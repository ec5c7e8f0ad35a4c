/** Runs of the cache and what holds after each of them. */
module CacheRuns {
  import opened Prelude
  import opened Cache
  import opened CacheSafety

  datatype Step =
    | Ask(key: Key)
    | AskBypassed
    | LookOnce(r: nat, now: nat, ttl: nat)
    | Register(r: nat)
    | TakeTurn(r: nat, now: nat, ttl: nat)
    | ReadHeaders(r: nat, refusal: Option<Reason>, headers: seq<Header>, victims: seq<nat>)
    | Chunk(r: nat, bytes: seq<byte>)
    | Finish(r: nat, complete: bool, now: nat, victim: nat)
    | Discard(r: nat)
    | ReplayDone(i: nat)
    | Notify

  function NewRequest(key: Key, epoch: nat): Request {
    Request(key, Uncounted, Unclaimed, false, Looking, false, false, [], epoch, false)
  }

  /** Steps that the program can take where it stands. */
  predicate Enabled(w: World, s: Step) {
    match s
    case Ask(_) => true
    case AskBypassed => true
    case LookOnce(r, _, _) => r < |w.requests| && w.requests[r].phase.Looking? && !w.requests[r].parked
    case Register(r) =>
      r < |w.requests| && w.requests[r].phase.Looking? && (w.requests[r].parked ==> w.requests[r].registered < w.epoch)
    case TakeTurn(r, _, _) =>
      r < |w.requests| && w.requests[r].phase.Looking? && !w.requests[r].parked
    case ReadHeaders(r, refusal, headers, victims) =>
      && r < |w.requests| && w.requests[r].phase.Looking?
      && (refusal.None? && FoldHeaders(headers, 2) <= ENTRY_BYTES ==> Honest(w, victims))
    case Chunk(r, _) => r < |w.requests| && w.requests[r].phase.Capturing?
    case Finish(r, _, _, victim) =>
      && r < |w.requests| && w.requests[r].phase.Capturing?
      && (MAX_ENTRIES <= |w.entries| && w.requests[r].key !in w.entries ==> IsOldest(w, victim))
    case Discard(r) => r < |w.requests| && !w.requests[r].phase.Dropped?
    case ReplayDone(i) => i < |w.stored| && 0 < w.stored[i].pins
    case Notify => 0 < w.owed
  }

  /** An unsigned subtraction of the program would underflow in this step. */
  predicate Underflows(w: World, s: Step) {
    match s
    case Chunk(r, _) =>
      && r < |w.requests| && w.requests[r].phase.Capturing?
      && w.requests[r].phase.limit < |w.requests[r].phase.body|
    case Finish(r, _, _, _) =>
      && r < |w.requests| && w.requests[r].phase.Capturing?
      && (ENTRY_BYTES < Retained(w.requests[r]) || CounterUnderflows(w, r))
    case TakeTurn(r, _, _) => r < |w.requests| && CounterUnderflows(w, r)
    case LookOnce(r, _, _) => r < |w.requests| && CounterUnderflows(w, r)
    case Discard(r) => r < |w.requests| && CounterUnderflows(w, r)
    case _ => false
  }

  predicate CounterUnderflows(w: World, r: nat)
    requires r < |w.requests|
  {
    (w.requests[r].flight == Waiting && w.waiters == 0) || (w.requests[r].outcome.Miss? && w.misses == 0)
  }

  lemma NeverUnderflows(w: World, s: Step)
    requires Inv(w)
    ensures !Underflows(w, s)
  {
    match s
    case Chunk(r, _) => if r < |w.requests| { RequestCaptured(w, r); }
    case Finish(r, _, _, _) =>
      if r < |w.requests| && w.requests[r].phase.Capturing? {
        RequestCaptured(w, r);
        RetainedFits(w.requests[r]);
        CountersCover(w, r);
      }
    case TakeTurn(r, _, _) => if r < |w.requests| { CountersCover(w, r); }
    case LookOnce(r, _, _) => if r < |w.requests| { CountersCover(w, r); }
    case Discard(r) => if r < |w.requests| { CountersCover(w, r); }
    case _ =>
  }

  lemma CountersCover(w: World, r: nat)
    requires Inv(w) && r < |w.requests|
    ensures !CounterUnderflows(w, r)
  {
    assert Holds(Counts, w, 0);
    SumMember(w.requests, r, Weight(Waiters));
    SumMember(w.requests, r, Weight(Misses));
  }

  function Apply(w: World, s: Step): World
    requires Enabled(w, s) && !Underflows(w, s)
  {
    match s
    case Ask(key) => w.(considered := w.considered + 1, requests := w.requests + [NewRequest(key, w.epoch)])
    case AskBypassed => w.(considered := w.considered + 1, bypasses := w.bypasses + 1)
    case LookOnce(r, now, ttl) => LookIn(w, r, now, ttl).0
    case Register(r) => SetRequest(w, r, w.requests[r].(registered := w.epoch, parked := false))
    case TakeTurn(r, now, ttl) => Turn(w, r, now, ttl)
    case ReadHeaders(r, refusal, headers, victims) => Examine(w, r, refusal, headers, victims)
    case Chunk(r, bytes) => Observe(w, r, bytes)
    case Finish(r, complete, now, victim) => Commit(w, r, complete, now, victim)
    case Discard(r) => Drop(w, r)
    case ReplayDone(i) => Unpin(w, i)
    case Notify => w.(epoch := w.epoch + 1, owed := w.owed - 1)
  }

  // ---------------------------------------------------------------- the remaining steps

  lemma AskFlown(flights: set<Key>, requests: seq<Request>, q: Request)
    requires Flown(flights, requests) && q.flight != Owner
    ensures Flown(flights, requests + [q])
  {
    var s := requests + [q];
    forall k ensures k in flights <==> Owned(s, k) {
      if Owned(requests, k) {
        var x :| 0 <= x < |requests| && requests[x].flight == Owner && requests[x].key == k;
        assert s[x] == requests[x];
      }
      if Owned(s, k) {
        var x :| 0 <= x < |s| && s[x].flight == Owner && s[x].key == k;
        assert requests[x] == s[x];
      }
    }
  }

  lemma {:induction false} NoFillYet(fills: seq<Fill>, n: nat)
    requires forall i :: 0 <= i < |fills| ==> fills[i].request < n
    ensures FillCount(fills, n) == 0
  {
    if fills != [] { NoFillYet(fills[..|fills| - 1], n); }
  }

  lemma AskFilled(fills: seq<Fill>, requests: seq<Request>, q: Request)
    requires Filled(fills, requests) && !Concluded(q)
    ensures Filled(fills, requests + [q])
  {
    NoFillYet(fills, |requests|);
    var s := requests + [q];
    forall r | 0 <= r < |s| ensures FillCount(fills, r) == if Concluded(s[r]) then 1 else 0 {
      if r < |requests| { assert s[r] == requests[r]; }
    }
  }

  lemma AskCounted(requests: seq<Request>, waiters: nat, hits: nat, misses: nat, q: Request)
    requires Tallied(requests, waiters, hits, misses) && q.outcome == Uncounted && q.flight == Unclaimed
    ensures Tallied(requests + [q], waiters, hits, misses)
  {
    SumSnoc(requests, q, Weight(Waiters));
    SumSnoc(requests, q, Weight(Hits));
    SumSnoc(requests, q, Weight(Misses));
  }

  lemma AskKeeps(w: World, key: Key)
    requires Inv(w)
    ensures Inv(w.(considered := w.considered + 1, requests := w.requests + [NewRequest(key, w.epoch)]))
  {
    var q := NewRequest(key, w.epoch);
    var v := w.(considered := w.considered + 1, requests := w.requests + [q]);
    forall c ensures Holds(c, v, 0) {
      assert Holds(c, w, 0);
      match c
      case Budget => SumSnoc(w.requests, q, Weight(Captures));
      case Flights => AskFlown(w.flights, w.requests, q);
      case Counts => AskCounted(w.requests, w.waiters, w.hits, w.misses, q);
      case Outcomes => AskFilled(w.fills, w.requests, q);
      case _ =>
    }
  }

  lemma AskBypassedKeeps(w: World)
    requires Inv(w)
    ensures Inv(w.(considered := w.considered + 1, bypasses := w.bypasses + 1))
  {
    var v := w.(considered := w.considered + 1, bypasses := w.bypasses + 1);
    forall c ensures Holds(c, v, 0) { assert Holds(c, w, 0); }
  }

  lemma RegisterKeeps(w: World, r: nat)
    requires Inv(w) && r < |w.requests|
    ensures Inv(SetRequest(w, r, w.requests[r].(registered := w.epoch, parked := false)))
  {
    LookupKeeps(w, r, w.requests[r].(registered := w.epoch, parked := false), w.waiters, w.hits, w.misses);
  }

  lemma NotifyKeeps(w: World)
    requires Inv(w) && 0 < w.owed
    ensures Inv(w.(epoch := w.epoch + 1, owed := w.owed - 1))
  {
    var v := w.(epoch := w.epoch + 1, owed := w.owed - 1);
    forall c ensures Holds(c, v, 0) {
      assert Holds(c, w, 0);
      if c == Wakeups { NotifiedAwaited(w.requests, w.flights, w.epoch, w.owed); }
    }
  }

  lemma NotifiedAwaited(requests: seq<Request>, flights: set<Key>, epoch: nat, owed: nat)
    requires AllAwaited(requests, flights, epoch, owed) && 0 < owed
    ensures AllAwaited(requests, flights, epoch + 1, owed - 1)
  {
    forall r | 0 <= r < |requests| ensures Awaited(requests[r], flights, epoch + 1, owed - 1) {
      assert Awaited(requests[r], flights, epoch, owed);
    }
  }

  /** Every step keeps the invariant. */
  lemma ApplyKeeps(w: World, s: Step)
    requires Inv(w) && Enabled(w, s) && !Underflows(w, s)
    ensures Inv(Apply(w, s))
  {
    match s
    case Ask(key) => AskKeeps(w, key);
    case AskBypassed => AskBypassedKeeps(w);
    case LookOnce(r, now, ttl) => LookInKeeps(w, r, now, ttl);
    case Register(r) => RegisterKeeps(w, r);
    case TakeTurn(r, now, ttl) => TurnKeeps(w, r, now, ttl);
    case ReadHeaders(r, refusal, headers, victims) => ExamineKeeps(w, r, refusal, headers, victims);
    case Chunk(r, bytes) => ObserveKeeps(w, r, bytes);
    case Finish(r, complete, now, victim) => CommitKeeps(w, r, complete, now, victim);
    case Discard(r) => DropKeeps(w, r);
    case ReplayDone(i) => UnpinKeeps(w, i);
    case Notify => NotifyKeeps(w);
  }

  const EMPTY: World := World(BUDGET_BYTES, map[], [], {}, 0, 0, 0, 0, 0, [], [], 0, 0)

  /** A run skips steps that are not possible where it stands; `NoUnderflow` says none is skipped for its arithmetic. */
  function Run(steps: seq<Step>): World {
    if steps == [] then EMPTY
    else
      var v, s := Run(steps[..|steps| - 1]), steps[|steps| - 1];
      if Enabled(v, s) && !Underflows(v, s) then Apply(v, s) else v
  }

  lemma EmptyHolds()
    ensures Inv(EMPTY)
  {
    forall c ensures Holds(c, EMPTY, 0) {}
  }

  lemma {:induction false} RunKeeps(steps: seq<Step>)
    ensures Inv(Run(steps))
  {
    if steps == [] {
      EmptyHolds();
    } else {
      var v, s := Run(steps[..|steps| - 1]), steps[|steps| - 1];
      RunKeeps(steps[..|steps| - 1]);
      if Enabled(v, s) && !Underflows(v, s) { ApplyKeeps(v, s); }
    }
  }

  // ---------------------------------------------------------------- the theorems

  /**
    Byte conservation: in every run, free permits, one whole entry per live capture and the
    bytes of every entry still listed or pinned add up to the budget; the map stays bounded.
   */
  lemma BytesConserved(steps: seq<Step>)
    ensures var f := Run(steps);
      && f.available + ENTRY_BYTES * Tally(f.requests, Captures) + SumBy(f.stored, LiveBytes) == BUDGET_BYTES
      && |f.entries| <= MAX_ENTRIES
  {
    RunKeeps(steps);
    assert Holds(Budget, Run(steps), 0);
  }

  ghost function OwnerKeys(requests: seq<Request>): set<Key> {
    set r | 0 <= r < |requests| && requests[r].flight == Owner :: requests[r].key
  }

  /** Single flight: in every run, the flights are exactly the owners' keys, one owner per key. */
  lemma SingleFlight(steps: seq<Step>)
    ensures var f := Run(steps);
      && f.flights == OwnerKeys(f.requests) && |f.flights| <= MAX_ENTRIES
      && (forall r, s :: 0 <= r < s < |f.requests| && f.requests[r].flight == Owner && f.requests[s].flight == Owner
            ==> f.requests[r].key != f.requests[s].key)
  {
    RunKeeps(steps);
    var f := Run(steps);
    assert Holds(Flights, f, 0);
    forall k ensures k in f.flights <==> k in OwnerKeys(f.requests) {
      assert k in f.flights <==> Owned(f.requests, k);
    }
  }

  lemma {:induction false} EveryRequestWeighsOnce(s: seq<Request>)
    ensures Tally(s, Hits) + Tally(s, Misses) + Tally(s, NotLookedUp) == |s|
  {
    if s != [] { EveryRequestWeighsOnce(s[..|s| - 1]); }
  }

  /** Exact counting: in every run, the counters are the numbers of requests with that outcome. */
  lemma CountsAreExact(steps: seq<Step>)
    ensures var f := Run(steps);
      && f.waiters == Tally(f.requests, Waiters)
      && f.hits == Tally(f.requests, Hits) && f.misses == Tally(f.requests, Misses)
      && f.considered == f.bypasses + f.hits + f.misses + Tally(f.requests, NotLookedUp)
  {
    RunKeeps(steps);
    assert Holds(Counts, Run(steps), 0);
    EveryRequestWeighsOnce(Run(steps).requests);
  }

  /** In every run, an examined response has exactly one outcome, or its capture is still open. */
  lemma ExactlyOneFill(steps: seq<Step>, r: nat)
    requires r < |Run(steps).requests|
    ensures var f := Run(steps); var q := f.requests[r];
      && FillCount(f.fills, r) == (if q.examined && !q.capturePending then 1 else 0)
      && (q.phase.Dropped? || q.phase.Examined? ==> !q.capturePending)
  {
    RunKeeps(steps);
    assert Holds(Outcomes, Run(steps), 0);
    RequestCaptured(Run(steps), r);
  }

  /** In every run, a stored body is every chunk its capture was offered, under the key that was asked for. */
  lemma StoredBodyIsComplete(steps: seq<Step>, i: nat)
    requires i < |Run(steps).stored|
    ensures var f := Run(steps);
      && f.stored[i].source < |f.requests|
      && f.stored[i].key == f.requests[f.stored[i].source].key
      && f.stored[i].body == f.requests[f.stored[i].source].observed
  {
    RunKeeps(steps);
    assert Holds(Bodies, Run(steps), 0);
  }

  /** In every run, no subtraction underflows in any step that can be taken. */
  lemma NoUnderflow(steps: seq<Step>, s: Step)
    ensures !Underflows(Run(steps), s)
  {
    RunKeeps(steps);
    NeverUnderflows(Run(steps), s);
  }

  /** In every run, a parked waiter's key is in flight, or its notification has fired or is owed. */
  lemma NoLostWakeup(steps: seq<Step>, r: nat)
    requires r < |Run(steps).requests| && Run(steps).requests[r].parked
    ensures var f := Run(steps); var q := f.requests[r];
      q.key in f.flights || q.registered < f.epoch || 0 < f.owed
  {
    RunKeeps(steps);
    RequestAwaited(Run(steps), r);
  }
}
