/**
  The circuit breaker told from its history: which results open a scope and for how long, whom an
  open scope refuses, what a lost probe means, and which scope is forgotten when the table is full.
 */
module CircuitHistory {
  import opened Prelude
  import opened Circuit
  import opened CircuitSafety

  // ---------------------------------------------------------------- the history of a run

  /** What happened to a scope; results of other generations are not part of its history. */
  datatype Happening =
    | Used(key: Key, at: nat)
    | Failed(key: Key, at: nat, delay: nat)
    | Succeeded(key: Key, at: nat)
    | Lost(key: Key, at: nat)
    | Forgotten(key: Key)

  /** An attempt whose result still counts for its scope. */
  predicate Counts(w: World, id: nat) {
    && id in w.attempts && w.attempts[id].tracked && !w.attempts[id].resolved && w.attempts[id].key in w.entries
    && w.entries[w.attempts[id].key].generation == w.attempts[id].generation
  }

  /** What one step adds to the history. */
  function Happens(w: World, s: Step): seq<Happening> {
    match s
    case Begin(id, key, now, victim) =>
      (if key !in w.entries && MAX_SCOPES <= |w.entries| && victim.Some? then [Forgotten(victim.value)] else [])
      + (if MakeRoom(w.entries, key, victim).Some? && Start(w.entries, key, now, victim).1.Running?
         then [Used(key, now)] else [])
    case Report(id, failure, now) =>
      if !Counts(w, id) then []
      else if failure.Some? then [Failed(w.attempts[id].key, now, failure.value)]
      else [Succeeded(w.attempts[id].key, now)]
    case Release(id, now) =>
      if Counts(w, id) && w.entries[w.attempts[id].key].gate.HalfOpen? then [Lost(w.attempts[id].key, now)] else []
    case _ => []
  }

  ghost function History(w: World, steps: seq<Step>): seq<Happening> {
    if steps == [] then []
    else
      var v, s := Run(w, steps[..|steps| - 1]), steps[|steps| - 1];
      History(w, steps[..|steps| - 1]) + (if Enabled(v, s) && !Panics(v, s) then Happens(v, s) else [])
  }

  // ---------------------------------------------------------------- reading the history

  /** The time of the last failure since the scope last succeeded or was forgotten. */
  function LastFailure(h: seq<Happening>, key: Key): Option<nat> {
    if h == [] then None
    else
      var e := h[|h| - 1];
      if e.key != key || e.Used? || e.Lost? then LastFailure(h[..|h| - 1], key)
      else if e.Failed? then Some(e.at) else None
  }

  /** Failures in a row, none later than sixty seconds after the one before it. */
  function Streak(h: seq<Happening>, key: Key): nat {
    if h == [] then 0
    else
      var rest, e := h[..|h| - 1], h[|h| - 1];
      if e.key != key || e.Used? || e.Lost? then Streak(rest, key)
      else if !e.Failed? then 0
      else
        var last := LastFailure(rest, key);
        if last.Some? && Monus(e.at, last.value) <= 60 * SECOND then Streak(rest, key) + 1 else 1
  }

  datatype Phase = Calm | Tripped(since: nat, lasts: nat) | Probing

  /** Openings since the scope last succeeded or was forgotten. */
  function Trips(h: seq<Happening>, key: Key): nat
    decreases |h|, 2
  {
    if h == [] then 0
    else
      var rest, e := h[..|h| - 1], h[|h| - 1];
      if e.key != key || e.Used? || e.Lost? then Trips(rest, key)
      else if !e.Failed? then 0
      else if TripsNow(h, key) then Trips(rest, key) + 1
      else Trips(rest, key)
  }

  /** The failure that ends the history trips the scope: a failed probe, or the third in a row. */
  predicate TripsNow(h: seq<Happening>, key: Key)
    requires h != []
    decreases |h|, 0
  {
    PhaseOf(h[..|h| - 1], key) == Probing || 3 <= Streak(h, key)
  }

  /** Where the history leaves the scope. */
  function PhaseOf(h: seq<Happening>, key: Key): Phase
    decreases |h|, 1
  {
    if h == [] then Calm
    else
      var rest, e := h[..|h| - 1], h[|h| - 1];
      if e.key != key then PhaseOf(rest, key)
      else
        match e
        case Succeeded(_, _) => Calm
        case Forgotten(_) => Calm
        case Lost(_, at) => Tripped(at, 0)
        case Used(_, _) => if PhaseOf(rest, key).Tripped? then Probing else PhaseOf(rest, key)
        case Failed(_, at, delay) =>
          if TripsNow(h, key) then Tripped(at, Max(delay, BackoffAfter(Trips(rest, key)))) else PhaseOf(rest, key)
  }

  /** When the scope last let an attempt through or took a result in. */
  function LastUse(h: seq<Happening>, key: Key): nat {
    if h == [] then 0
    else
      var e := h[|h| - 1];
      if e.key != key || e.Lost? || e.Forgotten? then LastUse(h[..|h| - 1], key) else e.at
  }

  // ---------------------------------------------------------------- entries tell the history

  predicate GateTells(gate: Gate, phase: Phase) {
    match gate
    case Closed => phase == Calm
    case Open(since, delay) => phase == Tripped(since, delay)
    case HalfOpen => phase == Probing
  }

  predicate Tells(e: Entry, h: seq<Happening>, key: Key) {
    && GateTells(e.gate, PhaseOf(h, key))
    && e.failures == Min(Streak(h, key), U8_MAX) && e.lastFailure == LastFailure(h, key)
    && e.nextBackoff == BackoffAfter(Trips(h, key)) && e.touched == LastUse(h, key)
  }

  predicate Untold(h: seq<Happening>, key: Key) {
    PhaseOf(h, key) == Calm && Streak(h, key) == 0 && LastFailure(h, key).None? && Trips(h, key) == 0
  }

  ghost predicate Told(entries: map<Key, Entry>, h: seq<Happening>) {
    forall k :: if k in entries then Tells(entries[k], h, k) else Untold(h, k)
  }

  /** A happening elsewhere changes nothing here. */
  lemma Elsewhere(h: seq<Happening>, x: Happening, key: Key)
    requires x.key != key
    ensures var g := h + [x];
      && PhaseOf(g, key) == PhaseOf(h, key) && Streak(g, key) == Streak(h, key) && Trips(g, key) == Trips(h, key)
      && LastFailure(g, key) == LastFailure(h, key) && LastUse(g, key) == LastUse(h, key)
  {
    assert (h + [x])[..|h|] == h;
  }

  lemma UsedTells(e: Entry, h: seq<Happening>, key: Key, now: nat)
    requires Tells(e, h, key) && !e.gate.HalfOpen?
    ensures Tells(Enter(e, now), h + [Used(key, now)], key)
  {
    assert (h + [Used(key, now)])[..|h|] == h;
  }

  lemma FirstUseTells(h: seq<Happening>, key: Key, now: nat)
    requires Untold(h, key)
    ensures Tells(Enter(FreshEntry(now), now), h + [Used(key, now)], key)
  {
    assert (h + [Used(key, now)])[..|h|] == h;
  }

  lemma SuccessTells(e: Entry, h: seq<Happening>, key: Key, now: nat)
    requires Tells(e, h, key)
    ensures Tells(Settle(e, None, now), h + [Succeeded(key, now)], key)
  {
    assert (h + [Succeeded(key, now)])[..|h|] == h;
  }

  lemma FailureStreak(e: Entry, h: seq<Happening>, key: Key, now: nat, delay: nat)
    requires Tells(e, h, key)
    ensures var g := h + [Failed(key, now, delay)];
      && FailuresAfter(e, now) == Min(Streak(g, key), U8_MAX)
      && LastFailure(g, key) == Some(now) && LastUse(g, key) == now
      && (Opens(e, Some(delay), now) <==> TripsNow(g, key))
  {
    assert (h + [Failed(key, now, delay)])[..|h|] == h;
  }

  lemma FailurePhase(h: seq<Happening>, key: Key, now: nat, delay: nat)
    ensures var g := h + [Failed(key, now, delay)];
      && PhaseOf(g, key) == (if TripsNow(g, key) then Tripped(now, Max(delay, BackoffAfter(Trips(h, key))))
                             else PhaseOf(h, key))
      && Trips(g, key) == (if TripsNow(g, key) then Trips(h, key) + 1 else Trips(h, key))
  {
    assert (h + [Failed(key, now, delay)])[..|h|] == h;
  }

  lemma FailureTells(e: Entry, h: seq<Happening>, key: Key, now: nat, delay: nat)
    requires Tells(e, h, key)
    ensures Tells(Settle(e, Some(delay), now), h + [Failed(key, now, delay)], key)
  {
    FailureStreak(e, h, key, now, delay);
    FailurePhase(h, key, now, delay);
    NextBackoff(Trips(h, key));
  }

  lemma LossTells(e: Entry, h: seq<Happening>, key: Key, a: Attempt, now: nat)
    requires Tells(e, h, key) && 0 < e.inFlight && !a.resolved && e.generation == a.generation && e.gate.HalfOpen?
    ensures Tells(DropEntry(e, a, now), h + [Lost(key, now)], key)
  {
    assert (h + [Lost(key, now)])[..|h|] == h;
  }

  lemma ForgottenUntold(h: seq<Happening>, key: Key)
    ensures Untold(h + [Forgotten(key)], key)
  {
    assert (h + [Forgotten(key)])[..|h|] == h;
  }

  // ---------------------------------------------------------------- every step keeps the tale

  /** One scope is told anew by one happening; the others are not concerned. */
  lemma RetellOne(entries: map<Key, Entry>, h: seq<Happening>, x: Happening, after: map<Key, Entry>)
    requires Told(entries, h) && (forall k :: k != x.key ==> (k in after <==> k in entries))
    requires forall k :: k != x.key && k in entries ==> after[k] == entries[k]
    requires if x.key in after then Tells(after[x.key], h + [x], x.key) else Untold(h + [x], x.key)
    ensures Told(after, h + [x])
  {
    forall k ensures if k in after then Tells(after[k], h + [x], k) else Untold(h + [x], k) {
      if k != x.key { Elsewhere(h, x, k); }
    }
  }

  lemma RoomTold(w: World, h: seq<Happening>, key: Key, victim: Option<Key>)
    requires Told(w.entries, h)
    ensures var room := MakeRoom(w.entries, key, victim);
      var full := key !in w.entries && MAX_SCOPES <= |w.entries| && victim.Some?;
      var g := h + (if full then [Forgotten(victim.value)] else []);
      room.Some? ==> Told(room.value, g)
  {
    assert h + [] == h;
    if key !in w.entries && MAX_SCOPES <= |w.entries| && victim.Some? {
      ForgottenUntold(h, victim.value);
      RetellOne(w.entries, h, Forgotten(victim.value), w.entries - {victim.value});
    }
  }

  lemma EnteredTold(room: map<Key, Entry>, g: seq<Happening>, key: Key, now: nat)
    requires Told(room, g) && !Found(room, key, now).gate.HalfOpen?
    ensures Told(room[key := Enter(Found(room, key, now), now)], g + [Used(key, now)])
  {
    if key in room { UsedTells(room[key], g, key, now); } else { FirstUseTells(g, key, now); }
    RetellOne(room, g, Used(key, now), room[key := Enter(Found(room, key, now), now)]);
  }

  lemma BeginTold(w: World, h: seq<Happening>, s: Step)
    requires s.Begin? && Enabled(w, s) && Told(w.entries, h)
    ensures Told(Apply(w, s).entries, h + Happens(w, s))
  {
    BeginIs(w, s.id, s.key, s.now, s.victim);
    RoomTold(w, h, s.key, s.victim);
    var room := MakeRoom(w.entries, s.key, s.victim);
    var g := h + (if s.key !in w.entries && MAX_SCOPES <= |w.entries| && s.victim.Some?
                  then [Forgotten(s.victim.value)] else []);
    if room.Some? && BlockedFor(Found(room.value, s.key, s.now), s.now).None? {
      EnteredTold(room.value, g, s.key, s.now);
      assert h + Happens(w, s) == g + [Used(s.key, s.now)];
    } else if room.Some? {
      assert h + Happens(w, s) == g;
    } else {
      assert h + Happens(w, s) == h;
    }
  }

  lemma ReportTold(w: World, h: seq<Happening>, s: Step)
    requires s.Report? && Enabled(w, s) && !Panics(w, s) && Told(w.entries, h)
    ensures Told(Apply(w, s).entries, h + Happens(w, s))
  {
    assert h + [] == h;
    if Counts(w, s.id) {
      var key := w.attempts[s.id].key;
      var e := w.entries[key];
      assert Tells(e, h, key);
      if s.failure.Some? { FailureTells(e, h, key, s.now, s.failure.value); } else { SuccessTells(e, h, key, s.now); }
      RetellOne(w.entries, h, Happens(w, s)[0], w.entries[key := Settle(e, s.failure, s.now)]);
    }
  }

  lemma ReleaseTold(w: World, h: seq<Happening>, s: Step)
    requires s.Release? && Enabled(w, s) && !Panics(w, s) && Told(w.entries, h)
    ensures Told(Apply(w, s).entries, h + Happens(w, s))
  {
    assert h + [] == h;
    var a := w.attempts[s.id];
    if a.tracked {
      var e := w.entries[a.key];
      assert Tells(e, h, a.key);
      if Counts(w, s.id) && e.gate.HalfOpen? {
        LossTells(e, h, a.key, a, s.now);
        RetellOne(w.entries, h, Lost(a.key, s.now), w.entries[a.key := DropEntry(e, a, s.now)]);
      }
    }
  }

  lemma {:induction false} RunTold(w: World, steps: seq<Step>)
    requires Initial(w)
    ensures Told(Run(w, steps).entries, History(w, steps))
  {
    if steps != [] {
      var rest, s := steps[..|steps| - 1], steps[|steps| - 1];
      RunTold(w, rest);
      StepTold(Run(w, rest), History(w, rest), s);
    }
  }

  lemma StepTold(v: World, h: seq<Happening>, s: Step)
    requires Told(v.entries, h)
    ensures Enabled(v, s) && !Panics(v, s) ==> Told(Apply(v, s).entries, h + Happens(v, s))
    ensures Told(v.entries, h + [])
  {
    assert h + [] == h;
    if Enabled(v, s) && !Panics(v, s) {
      match s
      case Begin(_, _, _, _) => BeginTold(v, h, s);
      case Report(_, _, _) => ReportTold(v, h, s);
      case Release(_, _) => ReleaseTold(v, h, s);
      case _ =>
    }
  }

  // ---------------------------------------------------------------- the theorems

  /** The answer a start gives: a refusal with the time left, or one attempt more. */
  predicate Refuses(w: World, s: Step, probing: bool, left: nat)
    requires s.Begin? && Enabled(w, s)
  {
    && Start(w.entries, s.key, s.now, s.victim).1 == Refused(probing, left)
    && Apply(w, s).attempts == w.attempts
  }

  predicate LetsThrough(w: World, s: Step)
    requires s.Begin? && Enabled(w, s)
  {
    var v := Apply(w, s);
    && s.key in v.entries && v.attempts.Keys == w.attempts.Keys + {s.id}
    && v.attempts[s.id] == Attempt(s.key, v.entries[s.key].generation, true, false)
  }

  /**
    In every run, a scope that its history tripped at `since` for `lasts` refuses every start before
    that time is over, with exactly the time that is left, and lets the first one after it through
    as the only attempt of a half-open scope.
   */
  lemma TrippedScopeRefuses(w: World, steps: seq<Step>, s: Step)
    requires Initial(w) && s.Begin? && Enabled(Run(w, steps), s) && PhaseOf(History(w, steps), s.key).Tripped?
    ensures var f := Run(w, steps); var phase := PhaseOf(History(w, steps), s.key);
      var over := phase.since + phase.lasts;
      if Max(s.now, phase.since) < over then Refuses(f, s, false, over - Max(s.now, phase.since))
      else LetsThrough(f, s) && AtHalfOpen(Apply(f, s).entries, s.key)
  {
    var f := Run(w, steps);
    RunTold(w, steps);
    BeginIs(f, s.id, s.key, s.now, s.victim);
    assert s.key in f.entries && Tells(f.entries[s.key], History(w, steps), s.key);
  }

  /** In every run, a scope whose probe is out refuses every start. */
  lemma ProbingScopeRefuses(w: World, steps: seq<Step>, s: Step)
    requires Initial(w) && s.Begin? && Enabled(Run(w, steps), s) && PhaseOf(History(w, steps), s.key).Probing?
    ensures Refuses(Run(w, steps), s, true, COOLDOWN)
  {
    var f := Run(w, steps);
    RunTold(w, steps);
    BeginIs(f, s.id, s.key, s.now, s.victim);
    assert s.key in f.entries && Tells(f.entries[s.key], History(w, steps), s.key);
  }

  /** In every run, a calm scope - known, or new with room for it - lets every start through. */
  lemma CalmScopeLetsThrough(w: World, steps: seq<Step>, s: Step)
    requires Initial(w) && s.Begin? && Enabled(Run(w, steps), s) && PhaseOf(History(w, steps), s.key).Calm?
    requires s.key in Run(w, steps).entries || |Run(w, steps).entries| < 128 || s.victim.Some?
    ensures LetsThrough(Run(w, steps), s) && Apply(Run(w, steps), s).entries[s.key].gate.Closed?
  {
    var f := Run(w, steps);
    RunTold(w, steps);
    BeginIs(f, s.id, s.key, s.now, s.victim);
    CalmIsUnblocked(f, History(w, steps), s);
  }

  lemma CalmIsUnblocked(f: World, h: seq<Happening>, s: Step)
    requires s.Begin? && Told(f.entries, h) && PhaseOf(h, s.key).Calm?
    requires s.key in f.entries || |f.entries| < MAX_SCOPES || s.victim.Some?
    ensures var room := MakeRoom(f.entries, s.key, s.victim);
      && room.Some? && Found(room.value, s.key, s.now).gate.Closed?
      && BlockedFor(Found(room.value, s.key, s.now), s.now).None?
  {
    assert s.key in f.entries ==> Tells(f.entries[s.key], h, s.key);
  }

  /** In every run, when the table is full of scopes that cannot be forgotten, a new one runs untracked. */
  lemma FullTableRunsUntracked(w: World, steps: seq<Step>, s: Step)
    requires Initial(w) && s.Begin? && Enabled(Run(w, steps), s)
    requires s.key !in Run(w, steps).entries && 128 <= |Run(w, steps).entries| && s.victim.None?
    ensures var f := Run(w, steps); var v := Apply(f, s);
      v.entries == f.entries && v.attempts == f.attempts[s.id := Attempt(s.key, 0, false, false)]
  {
    BeginIs(Run(w, steps), s.id, s.key, s.now, s.victim);
  }

  /**
    In every run, a failure that counts opens its scope if and only if it is a failed probe or the
    third failure in a row with at most sixty seconds between them, and then for the failure's own
    delay or the backoff its openings have reached, whichever is longer.
   */
  lemma FailureOpensExactly(w: World, steps: seq<Step>, id: nat, delay: nat, now: nat)
    requires Initial(w) && Counts(Run(w, steps), id)
    ensures var f := Run(w, steps); var h := History(w, steps); var key := f.attempts[id].key;
      var s := Report(id, Some(delay), now); var third := 3 <= Streak(h + [Failed(key, now, delay)], key);
      && Enabled(f, s) && !Panics(f, s) && key in Apply(f, s).entries
      && Apply(f, s).entries[key].gate ==
           (if PhaseOf(h, key).Probing? || third then Open(now, Max(delay, BackoffAfter(Trips(h, key))))
            else f.entries[key].gate)
  {
    var f, h := Run(w, steps), History(w, steps);
    var key := f.attempts[id].key;
    RunTold(w, steps);
    RunKeeps(w, steps);
    NeverPanics(f, Report(id, Some(delay), now));
    assert Tells(f.entries[key], h, key);
    FailureStreak(f.entries[key], h, key, now, delay);
    assert (h + [Failed(key, now, delay)])[..|h|] == h;
  }

  /** In every run, what a full table forgets is a closed scope without attempts, least recently used of those. */
  lemma ForgetsTheLeastRecent(w: World, steps: seq<Step>, s: Step, k: Key)
    requires Initial(w) && s.Begin? && Enabled(Run(w, steps), s) && s.victim.Some?
    requires var f := Run(w, steps); k in f.entries && f.entries[k].inFlight == 0 && PhaseOf(History(w, steps), k).Calm?
    ensures var f := Run(w, steps); var h := History(w, steps);
      && s.victim.value in f.entries && f.entries[s.victim.value].inFlight == 0 && PhaseOf(h, s.victim.value).Calm?
      && LastUse(h, s.victim.value) <= LastUse(h, k)
  {
    var f, h := Run(w, steps), History(w, steps);
    RunTold(w, steps);
    assert Tells(f.entries[k], h, k) && Tells(f.entries[s.victim.value], h, s.victim.value);
  }

  /**
    In every run, a caller that waits parks exactly while its scope's probe is out and it has one of
    the 64 slots or finds one free; otherwise it is told how long the scope stays open, or goes on.
   */
  lemma LooksAreExact(w: World, steps: seq<Step>, id: nat, now: nat)
    requires Initial(w) && id in Run(w, steps).waiters
    ensures var f := Run(w, steps); var x := f.waiters[id]; var look := Looked(f, id, now); var v := LookStep(f, id);
      && look == LookDue(PhaseOf(History(w, steps), x.key), x.counted || |Slots(f.waiters)| < 64, now)
      && (look.Parks? <==> id in v.waiters)
      && (look.Parks? ==> v.waiters[id] == x.(parked := true, counted := true))
  {
    RunTold(w, steps);
    WaitersBounded(w, steps);
    LookTold(Run(w, steps), History(w, steps), id, now);
  }

  /** The look that a phase of the history calls for, with a slot to wait in or without. */
  function LookDue(phase: Phase, slot: bool, now: nat): Look {
    match phase
    case Probing => if slot then Parks else TooMany
    case Calm => Goes
    case Tripped(since, lasts) =>
      if Max(now, since) < since + lasts then Cools(since + lasts - Max(now, since)) else Goes
  }

  lemma LookTold(f: World, h: seq<Happening>, id: nat, now: nat)
    requires Told(f.entries, h) && id in f.waiters && f.waiting <= 64
    ensures var x := f.waiters[id];
      Looked(f, id, now) == LookDue(PhaseOf(h, x.key), x.counted || f.waiting < 64, now)
  {
    var key := f.waiters[id].key;
    assert key in f.entries ==> Tells(f.entries[key], h, key);
  }
}
