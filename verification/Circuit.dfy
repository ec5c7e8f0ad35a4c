/**
  The circuit breaker: a bounded table of scopes, generation-stamped attempts, progressive
  backoff, and waiters parked on a notifier while a half-open probe is out.

  Every section that holds the mutex is one step; the notification that follows a section
  is a step of its own, owed until it fires.  Scope keys are digests, known here by number.
 */
module Circuit {
  import opened Prelude

  const MAX_SCOPES: nat := 128
  const MAX_WAITERS: nat := 64
  const FAILURE_THRESHOLD: nat := 3
  const FAILURE_GAP: nat := 60 * SECOND
  const COOLDOWN: nat := 5 * SECOND
  const FIRST_BACKOFF: nat := 1 * SECOND
  const MAX_BACKOFF: nat := 30 * SECOND

  type Key = nat

  datatype Gate = Closed | Open(since: nat, delay: nat) | HalfOpen

  datatype Entry = Entry(
    gate: Gate, generation: nat, inFlight: nat, failures: nat, lastFailure: Option<nat>,
    nextBackoff: nat, touched: nat)

  datatype Attempt = Attempt(key: Key, generation: nat, tracked: bool, resolved: bool)

  // ---------------------------------------------------------------- one entry

  function BlockedFor(e: Entry, now: nat): Option<nat> {
    match e.gate
    case Closed => None
    case Open(since, delay) =>
      if Monus(now, since) < delay then Some(delay - Monus(now, since)) else None
    case HalfOpen => Some(COOLDOWN)
  }

  function FreshEntry(now: nat): Entry { Entry(Closed, 0, 0, 0, None, FIRST_BACKOFF, now) }

  /** The entry after an attempt was let through. */
  function Enter(e: Entry, now: nat): Entry {
    var probe := e.gate.Open?;
    e.(gate := if probe then HalfOpen else e.gate,
       generation := if probe then e.generation + 1 else e.generation,
       inFlight := e.inFlight + 1, touched := now)
  }

  function FailuresAfter(e: Entry, now: nat): nat {
    var counted := if e.lastFailure.None? || FAILURE_GAP < Monus(now, e.lastFailure.value) then 0 else e.failures;
    Min(counted + 1, U8_MAX)
  }

  /** A result for the entry's own generation. */
  function Settle(e: Entry, failure: Option<nat>, now: nat): Entry {
    if failure.None? then
      e.(gate := Closed, failures := 0, lastFailure := None, nextBackoff := FIRST_BACKOFF, touched := now)
    else
      var f := e.(failures := FailuresAfter(e, now), lastFailure := Some(now), touched := now);
      if FAILURE_THRESHOLD <= f.failures || e.gate.HalfOpen? then
        f.(gate := Open(now, Max(failure.value, e.nextBackoff)),
           nextBackoff := Min(e.nextBackoff * 2, MAX_BACKOFF),
           generation := e.generation + 1)
      else f
  }

  /** Whether this result opens the circuit. */
  predicate Opens(e: Entry, failure: Option<nat>, now: nat) {
    failure.Some? && (FAILURE_THRESHOLD <= FailuresAfter(e, now) || e.gate.HalfOpen?)
  }

  // ---------------------------------------------------------------- the table

  /** Only inactive closed scopes may be evicted, the least recently touched first. */
  predicate Evictable(entries: map<Key, Entry>, key: Key) {
    key in entries && entries[key].inFlight == 0 && entries[key].gate.Closed?
  }

  predicate IsVictim(entries: map<Key, Entry>, key: Key) {
    Evictable(entries, key) && forall k :: k in entries && Evictable(entries, k) ==>
        entries[key].touched <= entries[k].touched
  }

  datatype Started =
    | Refused(probing: bool, delay: nat)
    | Running(attempt: Attempt)

  /** The table before the scope is looked at: full tables make room, or decline to track. */
  function MakeRoom(entries: map<Key, Entry>, key: Key, victim: Option<Key>): Option<map<Key, Entry>> {
    if key in entries || |entries| < MAX_SCOPES then Some(entries)
    else if victim.Some? then Some(entries - {victim.value})
    else None
  }

  function Start(entries: map<Key, Entry>, key: Key, now: nat, victim: Option<Key>): (map<Key, Entry>, Started) {
    var room := MakeRoom(entries, key, victim);
    if room.None? then (entries, Running(Attempt(key, 0, false, false)))
    else
      var e := if key in room.value then room.value[key] else FreshEntry(now);
      var blocked := BlockedFor(e, now);
      if blocked.Some? then (room.value[key := e], Refused(e.gate.HalfOpen?, blocked.value))
      else (room.value[key := Enter(e, now)], Running(Attempt(key, Enter(e, now).generation, true, false)))
  }

  /** The result of a tracked attempt: stale generations change nothing. */
  function Resolve(entries: map<Key, Entry>, a: Attempt, failure: Option<nat>, now: nat): map<Key, Entry>
    requires a.key in entries
  {
    if a.resolved || !a.tracked || entries[a.key].generation != a.generation then entries
    else entries[a.key := Settle(entries[a.key], failure, now)]
  }

  function DropEntry(e: Entry, a: Attempt, now: nat): Entry
    requires 0 < e.inFlight
  {
    var f := e.(inFlight := e.inFlight - 1);
    if !a.resolved && e.generation == a.generation && e.gate.HalfOpen?
    then f.(gate := Open(now, 0), generation := e.generation + 1) else f
  }

  // ---------------------------------------------------------------- the protocol

  /** What the breaker's history remembers about a scope. */
  datatype Event = Opened(key: Key, failureDelay: nat, lasts: nat) | Completed(key: Key)

  /** A caller in `wait`: registered at an epoch, parked or not, holding a waiter slot or not. */
  datatype Waiter = Waiter(key: Key, epoch: nat, parked: bool, counted: bool)

  datatype World = World(
    entries: map<Key, Entry>, attempts: map<nat, Attempt>, log: seq<Event>,
    waiters: map<nat, Waiter>, waiting: nat, epoch: nat, owed: nat)

  datatype Step =
    | Begin(id: nat, key: Key, now: nat, victim: Option<Key>)
    | Report(id: nat, failure: Option<nat>, now: nat)
    | Release(id: nat, now: nat)
    | Arrive(id: nat, key: Key)
    | LookAtGate(id: nat)
    | Depart(id: nat)
    | Rearm(id: nat)
    | Notify

  predicate AtHalfOpen(entries: map<Key, Entry>, key: Key) { key in entries && entries[key].gate.HalfOpen? }

  /** Steps that the program can take: fresh identities, live attempts, an honest victim. */
  predicate Enabled(w: World, s: Step) {
    match s
    case Begin(id, key, now, victim) =>
      && id !in w.attempts
      && (if victim.Some? then IsVictim(w.entries, victim.value)
          else forall k :: k in w.entries ==> !Evictable(w.entries, k))
    case Report(id, _, _) => id in w.attempts
    case Release(id, _) => id in w.attempts
    case Arrive(id, _) => id !in w.waiters
    case LookAtGate(id) => id in w.waiters && !w.waiters[id].parked
    case Depart(id) => id in w.waiters
    case Rearm(id) => id in w.waiters && w.waiters[id].parked && w.waiters[id].epoch < w.epoch
    case Notify => 0 < w.owed
  }

  function Unwait(w: World, id: nat): World
    requires id in w.waiters
  {
    w.(waiters := w.waiters - {id}, waiting := if w.waiters[id].counted then Monus(w.waiting, 1) else w.waiting)
  }

  function ReportStep(w: World, id: nat, failure: Option<nat>, now: nat): World
    requires id in w.attempts && (w.attempts[id].tracked ==> w.attempts[id].key in w.entries)
  {
    var a := w.attempts[id];
    if a.resolved || !a.tracked then w
    else
      var e := w.entries[a.key];
      var v := w.(entries := Resolve(w.entries, a, failure, now), attempts := w.attempts[id := a.(resolved := true)]);
      if e.generation != a.generation then v
      else
        v.(owed := if e.gate.HalfOpen? then w.owed + 1 else w.owed,
           log := if failure.None? then w.log + [Completed(a.key)]
                  else if !Opens(e, failure, now) then w.log
                  else w.log + [Opened(a.key, failure.value, Settle(e, failure, now).gate.delay)])
  }

  function ReleaseStep(w: World, id: nat, now: nat): World
    requires id in w.attempts
    requires w.attempts[id].tracked ==> w.attempts[id].key in w.entries && 0 < w.entries[w.attempts[id].key].inFlight
  {
    var a := w.attempts[id];
    var v := w.(attempts := w.attempts - {id});
    if !a.tracked then v
    else
      var e := w.entries[a.key];
      v.(entries := w.entries[a.key := DropEntry(e, a, now)],
         owed := if !a.resolved && e.generation == a.generation && e.gate.HalfOpen? then w.owed + 1 else w.owed)
  }

  function LookStep(w: World, id: nat): World
    requires id in w.waiters
  {
    var x := w.waiters[id];
    if AtHalfOpen(w.entries, x.key) then
      if x.counted then w.(waiters := w.waiters[id := x.(parked := true)])
      else if w.waiting == MAX_WAITERS then w.(waiters := w.waiters - {id})
      else w.(waiters := w.waiters[id := x.(parked := true, counted := true)], waiting := w.waiting + 1)
    else Unwait(w, id)
  }

  /** What one look inside `wait` decides: park, too many waiters, a refusal, or go on. */
  datatype Look = Parks | TooMany | Cools(delay: nat) | Goes

  function Looked(w: World, id: nat, now: nat): Look
    requires id in w.waiters
  {
    var x := w.waiters[id];
    if AtHalfOpen(w.entries, x.key) then (if !x.counted && w.waiting == MAX_WAITERS then TooMany else Parks)
    else
      var blocked := if x.key in w.entries then BlockedFor(w.entries[x.key], now) else None;
      if blocked.Some? then Cools(blocked.value) else Goes
  }
}
