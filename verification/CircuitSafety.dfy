/** What every run of the circuit breaker keeps. */
module CircuitSafety {
  import opened Prelude
  import opened Circuit

  // ---------------------------------------------------------------- the invariant

  function Tracked(attempts: map<nat, Attempt>, key: Key): set<nat> {
    set a | a in attempts && attempts[a].tracked && attempts[a].key == key
  }

  /** Live attempts that still carry the scope's own generation. */
  function Current(attempts: map<nat, Attempt>, key: Key, generation: nat): set<nat> {
    set a | a in attempts && attempts[a].tracked && attempts[a].key == key && attempts[a].generation == generation
  }

  function Pow2(n: nat): nat { if n == 0 then 1 else 2 * Pow2(n - 1) }

  /** The backoff floor after `k` openings without a completion: 1, 2, 4, ... capped at 30 seconds. */
  function BackoffAfter(k: nat): nat { Min(Pow2(k), 30) * SECOND }

  /** Openings of a scope since its last current-generation completion. */
  function Openings(log: seq<Event>, key: Key): nat {
    if log == [] then 0
    else
      var last := log[|log| - 1];
      var before := Openings(log[..|log| - 1], key);
      if last.key != key then before else if last.Completed? then 0 else before + 1
  }

  predicate Consistent(e: Entry, key: Key, attempts: map<nat, Attempt>) {
    && e.inFlight == |Tracked(attempts, key)|
    && (forall a :: a in Tracked(attempts, key) ==> attempts[a].generation <= e.generation)
    && (e.gate.Open? ==> Current(attempts, key, e.generation) == {})
    && (e.gate.HalfOpen? ==>
          |Current(attempts, key, e.generation)| == 1
          && forall a :: a in Current(attempts, key, e.generation) ==> !attempts[a].resolved)
  }

  predicate Table(entries: map<Key, Entry>, attempts: map<nat, Attempt>) {
    |entries| <= MAX_SCOPES && Rooted(entries, attempts) && AllConsistent(entries, attempts)
  }

  predicate Rooted(entries: map<Key, Entry>, attempts: map<nat, Attempt>) {
    forall a :: a in attempts && attempts[a].tracked ==> attempts[a].key in entries
  }

  predicate AllConsistent(entries: map<Key, Entry>, attempts: map<nat, Attempt>) {
    forall k :: k in entries ==> Consistent(entries[k], k, attempts)
  }

  ghost predicate Backed(entries: map<Key, Entry>, log: seq<Event>) {
    && (forall k :: k in entries ==> entries[k].nextBackoff == BackoffAfter(Openings(log, k)))
    && (forall k :: k in entries && entries[k].gate.Closed? ==> Openings(log, k) == 0)
    && (forall k :: k !in entries ==> Openings(log, k) == 0)
  }

  function Slots(waiters: map<nat, Waiter>): set<nat> { set i | i in waiters && waiters[i].counted }

  /** A parked waiter waits for a probe that is out, or has a notification fired or owed. */
  predicate Awaited(w: World, x: Waiter) {
    x.parked ==> x.counted && (AtHalfOpen(w.entries, x.key) || x.epoch < w.epoch || 0 < w.owed)
  }

  predicate Waits(w: World) {
    && w.waiting == |Slots(w.waiters)| && w.waiting <= MAX_WAITERS
    && (forall i :: i in w.waiters ==> w.waiters[i].epoch <= w.epoch && Awaited(w, w.waiters[i]))
  }

  ghost predicate Inv(w: World) { Table(w.entries, w.attempts) && Backed(w.entries, w.log) && Waits(w) }

  // ---------------------------------------------------------------- runs

  lemma TrackedIsCounted(w: World, id: nat)
    requires Table(w.entries, w.attempts) && id in w.attempts && w.attempts[id].tracked
    ensures w.attempts[id].key in w.entries && 0 < w.entries[w.attempts[id].key].inFlight
  {
    var key := w.attempts[id].key;
    assert Consistent(w.entries[key], key, w.attempts);
    assert id in Tracked(w.attempts, key);
  }

  /** The program's `expect("active circuit entry")` or its counter would fail. */
  predicate Panics(w: World, s: Step) {
    (s.Report? || s.Release?) && s.id in w.attempts && w.attempts[s.id].tracked
    && (w.attempts[s.id].key !in w.entries || w.entries[w.attempts[s.id].key].inFlight == 0)
  }

  lemma NeverPanics(w: World, s: Step)
    requires Inv(w)
    ensures !Panics(w, s)
  {
    if (s.Report? || s.Release?) && s.id in w.attempts && w.attempts[s.id].tracked {
      TrackedIsCounted(w, s.id);
    }
  }

  function Apply(w: World, s: Step): World
    requires Enabled(w, s) && !Panics(w, s)
  {
    match s
    case Begin(id, key, now, victim) =>
      var (entries, started) := Start(w.entries, key, now, victim);
      if started.Refused? then w.(entries := entries)
      else w.(entries := entries, attempts := w.attempts[id := started.attempt])
    case Report(id, failure, now) => ReportStep(w, id, failure, now)
    case Release(id, now) => ReleaseStep(w, id, now)
    case Arrive(id, key) => w.(waiters := w.waiters[id := Waiter(key, w.epoch, false, false)])
    case LookAtGate(id) => LookStep(w, id)
    case Depart(id) => Unwait(w, id)
    case Rearm(id) => w.(waiters := w.waiters[id := w.waiters[id].(epoch := w.epoch, parked := false)])
    case Notify => w.(epoch := w.epoch + 1, owed := w.owed - 1)
  }

  // ---------------------------------------------------------------- attempts and entries

  lemma OthersConsistent(e: Entry, key: Key, before: map<nat, Attempt>, after: map<nat, Attempt>)
    requires Consistent(e, key, before)
    requires Tracked(after, key) == Tracked(before, key)
    requires forall a :: a in Tracked(before, key) ==> after[a] == before[a]
    ensures Consistent(e, key, after)
  {
    forall a ensures a in Current(after, key, e.generation) <==> a in Current(before, key, e.generation) {
      assert a in Tracked(after, key) <==> a in Tracked(before, key);
    }
    assert Current(after, key, e.generation) == Current(before, key, e.generation);
  }

  lemma AddedSets(attempts: map<nat, Attempt>, id: nat, key: Key, generation: nat)
    requires id !in attempts
    ensures var after := attempts[id := Attempt(key, generation, true, false)];
      && Tracked(after, key) == Tracked(attempts, key) + {id}
      && Current(after, key, generation) == Current(attempts, key, generation) + {id}
      && id !in Tracked(attempts, key) && id !in Current(attempts, key, generation)
  {}

  /** A let-through attempt: the only current one behind a half-open gate. */
  lemma EnterConsistent(e: Entry, key: Key, attempts: map<nat, Attempt>, id: nat, now: nat)
    requires Consistent(e, key, attempts) && id !in attempts && !e.gate.HalfOpen?
    ensures var f := Enter(e, now); Consistent(f, key, attempts[id := Attempt(key, f.generation, true, false)])
  {
    var f := Enter(e, now);
    var after := attempts[id := Attempt(key, f.generation, true, false)];
    AddedSets(attempts, id, key, f.generation);
    if e.gate.Open? {
      NoneAhead(e, key, attempts);
      assert Current(after, key, f.generation) == {id};
    }
    forall a | a in Tracked(after, key) ensures after[a].generation <= f.generation {
      assert a == id || a in Tracked(attempts, key);
    }
  }

  /** No attempt carries a generation its scope has not reached. */
  lemma NoneAhead(e: Entry, key: Key, attempts: map<nat, Attempt>)
    requires Consistent(e, key, attempts)
    ensures Current(attempts, key, e.generation + 1) == {}
  {
    assert forall a :: a in Current(attempts, key, e.generation + 1) ==> a in Tracked(attempts, key);
  }

  lemma EnteredTable(entries: map<Key, Entry>, attempts: map<nat, Attempt>, key: Key, e: Entry, id: nat, now: nat)
    requires Table(entries, attempts) && (key in entries || |entries| < MAX_SCOPES) && id !in attempts
    requires e == (if key in entries then entries[key] else FreshEntry(now)) && !e.gate.HalfOpen?
    ensures Table(entries[key := Enter(e, now)], attempts[id := Attempt(key, Enter(e, now).generation, true, false)])
  {
    assert key !in entries ==> Tracked(attempts, key) == {};
    EnterConsistent(e, key, attempts, id, now);
    AddKeepsTable(entries, attempts, key, Enter(e, now), id);
  }

  /** The scope as a start finds it, once there is room for it. */
  function Found(room: map<Key, Entry>, key: Key, now: nat): Entry {
    if key in room then room[key] else FreshEntry(now)
  }

  /** What a start does to table and attempts, case by case. */
  lemma BeginIs(w: World, id: nat, key: Key, now: nat, victim: Option<Key>)
    requires Enabled(w, Begin(id, key, now, victim))
    ensures var v := Apply(w, Begin(id, key, now, victim)); var room := MakeRoom(w.entries, key, victim);
      if room.None? then v.entries == w.entries && v.attempts == w.attempts[id := Attempt(key, 0, false, false)]
      else
        var e := Found(room.value, key, now);
        if BlockedFor(e, now).Some? then v.entries == room.value && v.attempts == w.attempts
        else v.entries == room.value[key := Enter(e, now)]
             && v.attempts == w.attempts[id := Attempt(key, Enter(e, now).generation, true, false)]
  {
    var room := MakeRoom(w.entries, key, victim);
    if room.Some? && BlockedFor(Found(room.value, key, now), now).Some? {
      assert room.value[key := Found(room.value, key, now)] == room.value;
    }
  }

  lemma BeginKeepsTable(w: World, id: nat, key: Key, now: nat, victim: Option<Key>)
    requires Table(w.entries, w.attempts) && Enabled(w, Begin(id, key, now, victim))
    ensures var v := Apply(w, Begin(id, key, now, victim)); Table(v.entries, v.attempts)
  {
    BeginIs(w, id, key, now, victim);
    var room := MakeRoom(w.entries, key, victim);
    if room.None? {
      UntrackedKeepsTable(w, id, key);
    } else {
      RoomTable(w, key, victim);
      var e := Found(room.value, key, now);
      if BlockedFor(e, now).None? { EnteredTable(room.value, w.attempts, key, e, id, now); }
    }
  }

  lemma UntrackedKeepsTable(w: World, id: nat, key: Key)
    requires Table(w.entries, w.attempts) && id !in w.attempts
    ensures Table(w.entries, w.attempts[id := Attempt(key, 0, false, false)])
  {
    var after := w.attempts[id := Attempt(key, 0, false, false)];
    forall k | k in w.entries ensures Consistent(w.entries[k], k, after) {
      assert Tracked(after, k) == Tracked(w.attempts, k);
      OthersConsistent(w.entries[k], k, w.attempts, after);
    }
  }

  lemma AddKeepsTable(entries: map<Key, Entry>, attempts: map<nat, Attempt>, key: Key, e: Entry, id: nat)
    requires Table(entries, attempts) && id !in attempts && (key in entries || |entries| < MAX_SCOPES)
    requires Consistent(e, key, attempts[id := Attempt(key, e.generation, true, false)])
    ensures Table(entries[key := e], attempts[id := Attempt(key, e.generation, true, false)])
  {
    var after := attempts[id := Attempt(key, e.generation, true, false)];
    var all := entries[key := e];
    assert all.Keys == entries.Keys + {key};
    assert key in entries ==> entries.Keys + {key} == entries.Keys;
    forall k | k in all ensures Consistent(all[k], k, after) {
      if k != key {
        assert Tracked(after, k) == Tracked(attempts, k);
        OthersConsistent(entries[k], k, attempts, after);
      }
    }
  }

  /** Making room evicts no scope that an attempt still points to. */
  lemma RoomTable(w: World, key: Key, victim: Option<Key>)
    requires Table(w.entries, w.attempts)
    requires victim.Some? ==> Evictable(w.entries, victim.value)
    ensures var room := MakeRoom(w.entries, key, victim);
      room.Some? ==> Table(room.value, w.attempts) && (key in room.value || |room.value| < MAX_SCOPES)
  {
    var room := MakeRoom(w.entries, key, victim);
    if room.Some? && room.value != w.entries {
      var v := victim.value;
      assert Consistent(w.entries[v], v, w.attempts);
      assert Tracked(w.attempts, v) == {};
      assert room.value.Keys == w.entries.Keys - {v};
      forall a | a in w.attempts && w.attempts[a].tracked ensures w.attempts[a].key in room.value {
        assert a in Tracked(w.attempts, w.attempts[a].key);
      }
    }
  }

  lemma SettleConsistent(e: Entry, key: Key, attempts: map<nat, Attempt>, id: nat, failure: Option<nat>, now: nat)
    requires Consistent(e, key, attempts) && id in Current(attempts, key, e.generation)
    ensures Consistent(Settle(e, failure, now), key, attempts[id := attempts[id].(resolved := true)])
  {
    var f, after := Settle(e, failure, now), attempts[id := attempts[id].(resolved := true)];
    assert Tracked(after, key) == Tracked(attempts, key);
    NoneAhead(e, key, attempts);
    assert Current(after, key, e.generation + 1) == Current(attempts, key, e.generation + 1);
  }

  lemma ResolvedElsewhere(e: Entry, key: Key, attempts: map<nat, Attempt>, id: nat)
    requires Consistent(e, key, attempts) && id in attempts && attempts[id].tracked
    requires attempts[id].key != key || attempts[id].generation != e.generation
    ensures Consistent(e, key, attempts[id := attempts[id].(resolved := true)])
  {
    var after := attempts[id := attempts[id].(resolved := true)];
    assert Tracked(after, key) == Tracked(attempts, key);
    assert Current(after, key, e.generation) == Current(attempts, key, e.generation);
  }

  lemma ReportKeepsTable(w: World, id: nat, failure: Option<nat>, now: nat)
    requires Table(w.entries, w.attempts) && id in w.attempts
    requires w.attempts[id].tracked ==> w.attempts[id].key in w.entries
    ensures var v := ReportStep(w, id, failure, now); Table(v.entries, v.attempts)
  {
    var a := w.attempts[id];
    if !a.resolved && a.tracked {
      ReportKeys(w, id, failure, now);
      ReportAllConsistent(w, id, failure, now);
    }
  }

  lemma ReportKeys(w: World, id: nat, failure: Option<nat>, now: nat)
    requires Rooted(w.entries, w.attempts) && id in w.attempts && w.attempts[id].tracked
    requires w.attempts[id].key in w.entries
    ensures var v := ReportStep(w, id, failure, now); v.entries.Keys == w.entries.Keys && Rooted(v.entries, v.attempts)
  {}

  lemma ReportAllConsistent(w: World, id: nat, failure: Option<nat>, now: nat)
    requires AllConsistent(w.entries, w.attempts) && id in w.attempts && !w.attempts[id].resolved
    requires w.attempts[id].tracked
    requires w.attempts[id].key in w.entries
    ensures var v := ReportStep(w, id, failure, now); AllConsistent(v.entries, v.attempts)
  {
    var v := ReportStep(w, id, failure, now);
    forall k | k in v.entries ensures Consistent(v.entries[k], k, v.attempts) {
      assert Consistent(w.entries[k], k, w.attempts);
      ReportConsistent(w, id, failure, now, k);
    }
  }

  lemma ReportConsistent(w: World, id: nat, failure: Option<nat>, now: nat, k: Key)
    requires id in w.attempts && !w.attempts[id].resolved && w.attempts[id].tracked && w.attempts[id].key in w.entries
    requires k in w.entries && Consistent(w.entries[k], k, w.attempts)
    ensures var v := ReportStep(w, id, failure, now); k in v.entries && Consistent(v.entries[k], k, v.attempts)
  {
    var a := w.attempts[id];
    if k == a.key && w.entries[k].generation == a.generation {
      SettleConsistent(w.entries[k], k, w.attempts, id, failure, now);
    } else {
      ResolvedElsewhere(w.entries[k], k, w.attempts, id);
    }
  }

  lemma DropConsistent(e: Entry, key: Key, attempts: map<nat, Attempt>, id: nat, now: nat)
    requires Consistent(e, key, attempts) && id in Tracked(attempts, key) && 0 < e.inFlight
    ensures Consistent(DropEntry(e, attempts[id], now), key, attempts - {id})
  {
    var f, after := DropEntry(e, attempts[id], now), attempts - {id};
    assert Tracked(after, key) == Tracked(attempts, key) - {id};
    assert Current(after, key, e.generation) == Current(attempts, key, e.generation) - {id};
    if f.generation == e.generation + 1 {
      assert Current(after, key, f.generation) == {};
    } else if e.gate.HalfOpen? {
      assert id !in Current(attempts, key, e.generation);
    }
  }

  lemma ReleaseKeepsTable(w: World, id: nat, now: nat)
    requires Table(w.entries, w.attempts) && id in w.attempts
    requires w.attempts[id].tracked ==> w.attempts[id].key in w.entries && 0 < w.entries[w.attempts[id].key].inFlight
    ensures var v := ReleaseStep(w, id, now); Table(v.entries, v.attempts)
  {
    var a := w.attempts[id];
    var v := ReleaseStep(w, id, now);
    assert v.entries.Keys == w.entries.Keys;
    forall k | k in v.entries ensures Consistent(v.entries[k], k, v.attempts) {
      assert Consistent(w.entries[k], k, w.attempts);
      if a.tracked && k == a.key {
        DropConsistent(w.entries[k], k, w.attempts, id, now);
      } else {
        assert Tracked(v.attempts, k) == Tracked(w.attempts, k);
        OthersConsistent(w.entries[k], k, w.attempts, v.attempts);
      }
    }
  }

  // ---------------------------------------------------------------- backoff

  lemma {:induction false} OpeningsSnoc(log: seq<Event>, e: Event, key: Key)
    ensures Openings(log + [e], key) ==
      if e.key != key then Openings(log, key) else if e.Completed? then 0 else Openings(log, key) + 1
  {
    assert (log + [e])[..|log|] == log;
  }

  lemma NextBackoff(k: nat)
    ensures Min(BackoffAfter(k) * 2, MAX_BACKOFF) == BackoffAfter(k + 1)
  {}

  lemma RoomKeepsBacked(entries: map<Key, Entry>, log: seq<Event>, key: Key, victim: Option<Key>)
    requires Backed(entries, log) && (victim.Some? ==> Evictable(entries, victim.value))
    ensures var room := MakeRoom(entries, key, victim); room.Some? ==> Backed(room.value, log)
  {}

  lemma BeginKeepsBacked(entries: map<Key, Entry>, log: seq<Event>, key: Key, now: nat, victim: Option<Key>)
    requires Backed(entries, log) && (victim.Some? ==> Evictable(entries, victim.value))
    ensures Backed(Start(entries, key, now, victim).0, log)
  {
    RoomKeepsBacked(entries, log, key, victim);
    var room := MakeRoom(entries, key, victim);
    if room.Some? {
      var e := if key in room.value then room.value[key] else FreshEntry(now);
      var all := Start(entries, key, now, victim).0;
      assert all == room.value[key := if BlockedFor(e, now).Some? then e else Enter(e, now)];
    }
  }

  lemma ReportKeepsBacked(w: World, id: nat, failure: Option<nat>, now: nat)
    requires Inv(w) && id in w.attempts && (w.attempts[id].tracked ==> w.attempts[id].key in w.entries)
    ensures var v := ReportStep(w, id, failure, now); Backed(v.entries, v.log)
  {
    var a := w.attempts[id];
    var v := ReportStep(w, id, failure, now);
    if !a.resolved && a.tracked && w.entries[a.key].generation == a.generation {
      CurrentIsNotOpen(w, id);
      forall k ensures Openings(v.log, k) == OpeningsAfter(w, a.key, failure, now, k) {
        ReportOpenings(w, id, failure, now, k);
      }
      SettleBacked(w.entries[a.key], failure, now, Openings(w.log, a.key));
      UpdateBacked(w.entries, w.log, a.key, Settle(w.entries[a.key], failure, now), v.log);
    }
  }

  lemma CurrentIsNotOpen(w: World, id: nat)
    requires Table(w.entries, w.attempts) && id in w.attempts && w.attempts[id].tracked
    requires w.attempts[id].key in w.entries
    requires w.attempts[id].generation == w.entries[w.attempts[id].key].generation
    ensures !w.entries[w.attempts[id].key].gate.Open?
  {
    var a := w.attempts[id];
    assert Consistent(w.entries[a.key], a.key, w.attempts);
    assert id in Current(w.attempts, a.key, a.generation);
  }

  /** The backoff and gate that a result leaves, after `n` openings before it. */
  lemma SettleBacked(e: Entry, failure: Option<nat>, now: nat, n: nat)
    requires e.nextBackoff == BackoffAfter(n) && (e.gate.Closed? ==> n == 0) && !e.gate.Open?
    ensures var f := Settle(e, failure, now);
      var m := if failure.None? then 0 else if Opens(e, failure, now) then n + 1 else n;
      f.nextBackoff == BackoffAfter(m) && (f.gate.Closed? ==> m == 0)
  {
    NextBackoff(n);
  }

  lemma UpdateBacked(entries: map<Key, Entry>, log: seq<Event>, key: Key, e: Entry, after: seq<Event>)
    requires Backed(entries, log) && key in entries && forall k :: k != key ==> Openings(after, k) == Openings(log, k)
    requires e.nextBackoff == BackoffAfter(Openings(after, key)) && (e.gate.Closed? ==> Openings(after, key) == 0)
    ensures Backed(entries[key := e], after)
  {}

  function OpeningsAfter(w: World, key: Key, failure: Option<nat>, now: nat, k: Key): nat
    requires key in w.entries
  {
    if k != key then Openings(w.log, k)
    else if failure.None? then 0
    else if Opens(w.entries[key], failure, now) then Openings(w.log, k) + 1 else Openings(w.log, k)
  }

  lemma ReportOpenings(w: World, id: nat, failure: Option<nat>, now: nat, k: Key)
    requires id in w.attempts && !w.attempts[id].resolved && w.attempts[id].tracked && w.attempts[id].key in w.entries
    requires w.entries[w.attempts[id].key].generation == w.attempts[id].generation
    ensures Openings(ReportStep(w, id, failure, now).log, k) == OpeningsAfter(w, w.attempts[id].key, failure, now, k)
  {
    var v := ReportStep(w, id, failure, now);
    if |v.log| == |w.log| + 1 { OpeningsSnoc(w.log, v.log[|w.log|], k); }
  }

  // ---------------------------------------------------------------- waiters

  /** Steps on attempts either leave a scope half open, or owe a notification. */
  ghost predicate Covers(w: World, v: World) {
    && v.waiters == w.waiters && v.waiting == w.waiting && v.epoch == w.epoch && w.owed <= v.owed
    && (w.owed < v.owed || forall k :: AtHalfOpen(w.entries, k) ==> AtHalfOpen(v.entries, k))
  }

  lemma CoveredWaits(w: World, v: World)
    requires Waits(w) && Covers(w, v)
    ensures Waits(v)
  {
    forall i | i in v.waiters ensures Awaited(v, v.waiters[i]) {
      assert Awaited(w, w.waiters[i]);
    }
  }

  lemma LookWaits(w: World, id: nat)
    requires Waits(w) && id in w.waiters && !w.waiters[id].parked
    ensures Waits(LookStep(w, id))
  {
    LookSlots(w, id);
    StillAwaited(w, LookStep(w, id));
  }

  lemma LookSlots(w: World, id: nat)
    requires id in w.waiters && w.waiting == |Slots(w.waiters)| && w.waiting <= MAX_WAITERS
    ensures var v := LookStep(w, id); v.waiting == |Slots(v.waiters)| && v.waiting <= MAX_WAITERS
  {
    var v := LookStep(w, id);
    assert w.waiters[id].counted <==> id in Slots(w.waiters);
    if id in v.waiters {
      SlotTaken(w.waiters, id, v.waiters[id]);
    } else {
      SlotFreed(w.waiters, id);
    }
  }

  lemma SlotTaken(waiters: map<nat, Waiter>, id: nat, x: Waiter)
    requires x.counted
    ensures Slots(waiters[id := x]) == Slots(waiters) + {id}
  {}

  lemma SlotFreed(waiters: map<nat, Waiter>, id: nat)
    ensures Slots(waiters - {id}) == Slots(waiters) - {id}
  {}

  lemma DepartWaits(w: World, id: nat)
    requires Waits(w) && id in w.waiters
    ensures Waits(Unwait(w, id))
  {
    var v := Unwait(w, id);
    assert w.waiters[id].counted ==> id in Slots(w.waiters);
    assert Slots(v.waiters) == Slots(w.waiters) - {id};
    StillAwaited(w, v);
  }

  /** Registering, or registering again after a notification. */
  lemma RegisterWaits(w: World, id: nat, x: Waiter)
    requires Waits(w) && x.epoch == w.epoch && !x.parked && x.counted == (id in w.waiters && w.waiters[id].counted)
    ensures Waits(w.(waiters := w.waiters[id := x]))
  {
    var v := w.(waiters := w.waiters[id := x]);
    assert Slots(v.waiters) == Slots(w.waiters);
    StillAwaited(w, v);
  }

  lemma NotifyWaits(w: World)
    requires Waits(w) && 0 < w.owed
    ensures Waits(w.(epoch := w.epoch + 1, owed := w.owed - 1))
  {
    var v := w.(epoch := w.epoch + 1, owed := w.owed - 1);
    forall i | i in v.waiters ensures Awaited(v, v.waiters[i]) {
      assert Awaited(w, w.waiters[i]);
    }
  }

  lemma StillAwaited(w: World, v: World)
    requires Waits(w) && v.entries == w.entries && v.epoch == w.epoch && v.owed == w.owed
    requires forall i :: i in v.waiters ==>
      (i in w.waiters && v.waiters[i] == w.waiters[i]) ||
      (v.waiters[i].epoch <= v.epoch && (v.waiters[i].parked ==>
          v.waiters[i].counted && AtHalfOpen(v.entries, v.waiters[i].key)))
    ensures forall i :: i in v.waiters ==> v.waiters[i].epoch <= v.epoch && Awaited(v, v.waiters[i])
  {
    forall i | i in v.waiters ensures v.waiters[i].epoch <= v.epoch && Awaited(v, v.waiters[i]) {
      if i in w.waiters { assert Awaited(w, w.waiters[i]); }
    }
  }

  lemma BeginKeeps(w: World, id: nat, key: Key, now: nat, victim: Option<Key>)
    requires Inv(w) && Enabled(w, Begin(id, key, now, victim))
    ensures Inv(Apply(w, Begin(id, key, now, victim)))
  {
    BeginKeepsTable(w, id, key, now, victim);
    BeginKeepsBacked(w.entries, w.log, key, now, victim);
    BeginCovers(w, id, key, now, victim);
    CoveredWaits(w, Apply(w, Begin(id, key, now, victim)));
  }

  lemma BeginCovers(w: World, id: nat, key: Key, now: nat, victim: Option<Key>)
    requires Enabled(w, Begin(id, key, now, victim))
    ensures Covers(w, Apply(w, Begin(id, key, now, victim)))
  {
    var v := Apply(w, Begin(id, key, now, victim));
    forall k | AtHalfOpen(w.entries, k) ensures AtHalfOpen(v.entries, k) {
      assert victim.Some? ==> victim.value != k;
    }
  }

  lemma ReportKeeps(w: World, id: nat, failure: Option<nat>, now: nat)
    requires Inv(w) && Enabled(w, Report(id, failure, now)) && !Panics(w, Report(id, failure, now))
    ensures Inv(ReportStep(w, id, failure, now))
  {
    ReportKeepsTable(w, id, failure, now);
    ReportKeepsBacked(w, id, failure, now);
    ReportCovers(w, id, failure, now);
    CoveredWaits(w, ReportStep(w, id, failure, now));
  }

  lemma ReportCovers(w: World, id: nat, failure: Option<nat>, now: nat)
    requires id in w.attempts && (w.attempts[id].tracked ==> w.attempts[id].key in w.entries)
    ensures Covers(w, ReportStep(w, id, failure, now))
  {}

  lemma ReleaseKeeps(w: World, id: nat, now: nat)
    requires Inv(w) && Enabled(w, Release(id, now)) && !Panics(w, Release(id, now))
    ensures Inv(ReleaseStep(w, id, now))
  {
    ReleaseKeepsTable(w, id, now);
    ReleaseCovers(w, id, now);
    ReleaseKeepsBacked(w, id, now);
    CoveredWaits(w, ReleaseStep(w, id, now));
  }

  lemma ReleaseCovers(w: World, id: nat, now: nat)
    requires Enabled(w, Release(id, now)) && !Panics(w, Release(id, now))
    ensures Covers(w, ReleaseStep(w, id, now))
  {}

  lemma ReleaseKeepsBacked(w: World, id: nat, now: nat)
    requires Backed(w.entries, w.log) && Enabled(w, Release(id, now)) && !Panics(w, Release(id, now))
    ensures var v := ReleaseStep(w, id, now); Backed(v.entries, v.log)
  {}

  /** Every step keeps the invariant. */
  lemma ApplyKeeps(w: World, s: Step)
    requires Inv(w) && Enabled(w, s) && !Panics(w, s)
    ensures Inv(Apply(w, s))
  {
    match s
    case Begin(id, key, now, victim) => BeginKeeps(w, id, key, now, victim);
    case Report(id, failure, now) => ReportKeeps(w, id, failure, now);
    case Release(id, now) => ReleaseKeeps(w, id, now);
    case Arrive(id, key) => RegisterWaits(w, id, Waiter(key, w.epoch, false, false));
    case LookAtGate(id) => LookWaits(w, id);
    case Depart(id) => DepartWaits(w, id);
    case Rearm(id) => RegisterWaits(w, id, w.waiters[id].(epoch := w.epoch, parked := false));
    case Notify => NotifyWaits(w);
  }

  predicate Initial(w: World) {
    w.entries == map[] && w.attempts == map[] && w.log == [] && w.waiters == map[] && w.waiting == 0
  }

  /** A run skips steps that are not possible where it stands; `NeverPanics` says none is skipped for a panic. */
  ghost function Run(w: World, steps: seq<Step>): World {
    if steps == [] then w
    else
      var v, s := Run(w, steps[..|steps| - 1]), steps[|steps| - 1];
      if Enabled(v, s) && !Panics(v, s) then Apply(v, s) else v
  }

  lemma {:induction false} RunKeeps(w: World, steps: seq<Step>)
    requires Initial(w)
    ensures Inv(Run(w, steps))
  {
    if steps != [] {
      var v, s := Run(w, steps[..|steps| - 1]), steps[|steps| - 1];
      RunKeeps(w, steps[..|steps| - 1]);
      if Enabled(v, s) && !Panics(v, s) { ApplyKeeps(v, s); }
    }
  }

  // ---------------------------------------------------------------- the theorems

  /** The live attempts that a scope's gate is waiting for. */
  ghost function Unresolved(f: World, key: Key): set<nat>
    requires key in f.entries
  {
    set a | a in f.attempts && f.attempts[a].tracked && !f.attempts[a].resolved && f.attempts[a].key == key
            && f.attempts[a].generation == f.entries[key].generation
  }

  /**
    In every run, a half-open scope has exactly one live unresolved attempt of its own
    generation, an open scope has none, and `in_flight` is the number of live tracked attempts.
   */
  lemma GenerationsAgree(w: World, steps: seq<Step>, key: Key)
    requires Initial(w) && key in Run(w, steps).entries
    ensures var f := Run(w, steps); var e := f.entries[key];
      && (e.gate.HalfOpen? ==> |Unresolved(f, key)| == 1)
      && (e.gate.Open? ==> Unresolved(f, key) == {})
      && e.inFlight == |Tracked(f.attempts, key)|
  {
    RunKeeps(w, steps);
    var f := Run(w, steps);
    var e := f.entries[key];
    assert Consistent(e, key, f.attempts);
    if e.gate.HalfOpen? {
      assert Unresolved(f, key) == Current(f.attempts, key, e.generation);
    }
  }

  /** In every run, the table stays bounded and never loses a scope that is active or not closed. */
  lemma EvictionIsHarmless(w: World, steps: seq<Step>, s: Step, key: Key)
    requires Initial(w) && key in Run(w, steps).entries && Enabled(Run(w, steps), s)
    requires Tracked(Run(w, steps).attempts, key) != {} || !Run(w, steps).entries[key].gate.Closed?
    ensures var f := Run(w, steps);
      |f.entries| <= MAX_SCOPES && !Panics(f, s) && key in Apply(f, s).entries
  {
    RunKeeps(w, steps);
    NeverPanics(Run(w, steps), s);
    KeepsScope(Run(w, steps), s, key);
  }

  lemma KeepsScope(w: World, s: Step, key: Key)
    requires Inv(w) && Enabled(w, s) && !Panics(w, s) && key in w.entries
    requires Tracked(w.attempts, key) != {} || !w.entries[key].gate.Closed?
    ensures key in Apply(w, s).entries
  {
    assert Consistent(w.entries[key], key, w.attempts);
    if s.Begin? { BeginKeepsScope(w.entries, s.key, s.now, s.victim, key); }
  }

  lemma BeginKeepsScope(entries: map<Key, Entry>, key: Key, now: nat, victim: Option<Key>, other: Key)
    requires other in entries && (victim.Some? ==> Evictable(entries, victim.value)) && !Evictable(entries, other)
    ensures other in Start(entries, key, now, victim).0
  {}

  /** In every run, the result or loss of an attempt of another generation leaves every gate alone. */
  lemma StaleResultsChangeNothing(w: World, steps: seq<Step>, s: Step, key: Key)
    requires Initial(w) && key in Run(w, steps).entries
    requires (s.Report? || s.Release?) && s.id in Run(w, steps).attempts && Run(w, steps).attempts[s.id].tracked
    requires var f := Run(w, steps); var a := f.attempts[s.id];
        f.entries[key].generation != a.generation || a.key != key
    ensures var f := Run(w, steps);
      && Enabled(f, s) && !Panics(f, s)
      && var v := Apply(f, s);
         && key in v.entries
         && v.entries[key] == f.entries[key].(inFlight := v.entries[key].inFlight)
  {
    RunKeeps(w, steps);
    NeverPanics(Run(w, steps), s);
  }

  /** In every run, a half-open scope has an attempt whose completion, failure or loss reopens or closes it. */
  lemma HalfOpenIsNotStranded(w: World, steps: seq<Step>, key: Key, failure: Option<nat>, now: nat) returns (id: nat)
    requires Initial(w) && AtHalfOpen(Run(w, steps).entries, key)
    ensures var f := Run(w, steps);
      && Enabled(f, Report(id, failure, now)) && !Panics(f, Report(id, failure, now))
      && Enabled(f, Release(id, now)) && !Panics(f, Release(id, now))
      && !AtHalfOpen(Apply(f, Report(id, failure, now)).entries, key)
      && !AtHalfOpen(Apply(f, Release(id, now)).entries, key)
  {
    RunKeeps(w, steps);
    var f := Run(w, steps);
    var e := f.entries[key];
    assert Consistent(e, key, f.attempts);
    assert Current(f.attempts, key, e.generation) != {};
    id :| id in Current(f.attempts, key, e.generation);
    NeverPanics(f, Report(id, failure, now));
    NeverPanics(f, Release(id, now));
  }

  /** In every run, a parked waiter's scope is half open, or its notification has fired or is owed. */
  lemma NoLostWakeup(w: World, steps: seq<Step>, i: nat)
    requires Initial(w) && i in Run(w, steps).waiters && Run(w, steps).waiters[i].parked
    ensures var f := Run(w, steps);
      AtHalfOpen(f.entries, f.waiters[i].key) || f.waiters[i].epoch < f.epoch || 0 < f.owed
  {
    RunKeeps(w, steps);
    var f := Run(w, steps);
    assert Awaited(f, f.waiters[i]);
  }

  /** In every run, at most 64 callers hold a waiter slot, and the counter is their number. */
  lemma WaitersBounded(w: World, steps: seq<Step>)
    requires Initial(w)
    ensures var f := Run(w, steps); f.waiting == |Slots(f.waiters)| && f.waiting <= MAX_WAITERS
  {
    RunKeeps(w, steps);
  }

  /**
    In every run, the opening that follows `k` openings without a current-generation
    completion lasts the failure's delay or the k-th backoff, whichever is longer.
   */
  lemma {:induction false} OpeningLasts(w: World, steps: seq<Step>, i: nat)
    requires Initial(w) && i < |Run(w, steps).log| && Run(w, steps).log[i].Opened?
    ensures var log := Run(w, steps).log; var e := log[i];
      e.lasts == Max(e.failureDelay, BackoffAfter(Openings(log[..i], e.key)))
  {
    if steps != [] {
      var v, s := Run(w, steps[..|steps| - 1]), steps[|steps| - 1];
      var f := Run(w, steps);
      RunKeeps(w, steps[..|steps| - 1]);
      if i < |v.log| {
        LogGrows(v, s);
        assert f.log[..i] == v.log[..i];
        OpeningLasts(w, steps[..|steps| - 1], i);
      } else {
        NeverPanics(v, s);
        LastOpeningLasts(v, s);
        assert f.log[..i] == v.log;
      }
    }
  }

  /** An opening is logged at the end, with the backoff its scope had reached. */
  lemma LastOpeningLasts(v: World, s: Step)
    requires Inv(v) && Enabled(v, s) && !Panics(v, s) && |v.log| < |Apply(v, s).log|
    ensures var log := Apply(v, s).log; var e := log[|v.log|];
      |log| == |v.log| + 1 && log[..|v.log|] == v.log
      && (e.Opened? ==> e.lasts == Max(e.failureDelay, BackoffAfter(Openings(v.log, e.key))))
  {
    assert v.entries[v.attempts[s.id].key].nextBackoff == BackoffAfter(Openings(v.log, v.attempts[s.id].key));
  }

  lemma LogGrows(v: World, s: Step)
    requires Inv(v)
    ensures Enabled(v, s) ==> !Panics(v, s) && v.log <= Apply(v, s).log
  {
    NeverPanics(v, s);
  }
}
