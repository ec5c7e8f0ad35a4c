/** What every run of the cache keeps: bytes, flights, counts, outcomes and wake-ups. */
module CacheSafety {
  import opened Prelude
  import opened Cache

  // ---------------------------------------------------------------- measures

  datatype Measure = Captures | Waiters | Hits | Misses | NotLookedUp

  function Weigh(m: Measure, q: Request): nat {
    match m
    case Captures => if q.phase.Capturing? then 1 else 0
    case Waiters => if q.flight == Waiting then 1 else 0
    case Hits => if q.outcome.Hit? then 1 else 0
    case Misses => if q.outcome.Miss? then 1 else 0
    case NotLookedUp => if q.outcome.Uncounted? then 1 else 0
  }

  function Weight(m: Measure): Request -> int { (q: Request) => Weigh(m, q) }

  function Tally(s: seq<Request>, m: Measure): int { SumBy(s, Weight(m)) }

  function LiveBytes(e: Stored): int { if Alive(e) then e.retained else 0 }

  function FillFor(r: nat): Fill -> int { (f: Fill) => if f.request == r then 1 else 0 }

  /** How many outcomes have been recorded for request `r`. */
  function FillCount(fills: seq<Fill>, r: nat): int { SumBy(fills, FillFor(r)) }

  // ---------------------------------------------------------------- the invariant

  /** Permits are conserved; `slack` are those in the hands of a commit in progress. */
  predicate Bytes(available: nat, requests: seq<Request>, stored: seq<Stored>, slack: int) {
    available + ENTRY_BYTES * Tally(requests, Captures) + SumBy(stored, LiveBytes) + slack == BUDGET_BYTES
  }

  /** The map and the listed entries are the same relation. */
  predicate Indexed(entries: map<Key, nat>, stored: seq<Stored>) {
    && (forall k :: k in entries ==> entries[k] < |stored| && stored[entries[k]].listed && stored[entries[k]].key == k)
    && (forall i :: 0 <= i < |stored| && stored[i].listed ==> stored[i].key in entries && entries[stored[i].key] == i)
  }

  predicate CaptureOk(q: Request) {
    && (q.phase.Capturing? ==>
          |q.phase.body| <= q.phase.limit && q.phase.limit + FoldHeaders(q.phase.headers, 2) == ENTRY_BYTES)
    && (q.capturePending ==> q.phase.Capturing? && q.phase.body == q.observed)
    && (q.phase.Capturing? || q.phase.Examined? ==> q.examined)
    && (q.phase.Looking? ==> !q.examined)
    && (!q.examined ==> q.observed == [])
  }

  predicate Captured(requests: seq<Request>) { forall r :: 0 <= r < |requests| ==> CaptureOk(requests[r]) }

  ghost predicate Owned(requests: seq<Request>, k: Key) {
    exists r :: 0 <= r < |requests| && requests[r].flight == Owner && requests[r].key == k
  }

  /** The flights are the keys of the owners, one owner each. */
  ghost predicate Flown(flights: set<Key>, requests: seq<Request>) {
    && |flights| <= MAX_ENTRIES
    && (forall k :: k in flights <==> Owned(requests, k))
    && (forall r, s :: 0 <= r < s < |requests| && requests[r].flight == Owner && requests[s].flight == Owner
          ==> requests[r].key != requests[s].key)
  }

  predicate Tallied(requests: seq<Request>, waiters: nat, hits: nat, misses: nat) {
    waiters == Tally(requests, Waiters) && hits == Tally(requests, Hits) && misses == Tally(requests, Misses)
  }

  predicate Concluded(q: Request) { q.examined && !q.capturePending }

  predicate Filled(fills: seq<Fill>, requests: seq<Request>) {
    && (forall r :: 0 <= r < |requests| ==> FillCount(fills, r) == if Concluded(requests[r]) then 1 else 0)
    && (forall i :: 0 <= i < |fills| ==> fills[i].request < |requests|)
  }

  /** Every stored body is all that its capture observed for its own key, and that will not grow any more. */
  predicate Exact(stored: seq<Stored>, requests: seq<Request>) {
    forall i :: 0 <= i < |stored| ==>
      && stored[i].source < |requests|
      && stored[i].key == requests[stored[i].source].key
      && stored[i].body == requests[stored[i].source].observed
      && requests[stored[i].source].examined && !requests[stored[i].source].phase.Capturing?
  }

  /** A parked waiter's key is in flight, or its notification has fired or is owed. */
  predicate Awaited(q: Request, flights: set<Key>, epoch: nat, owed: nat) {
    && q.registered <= epoch
    && (q.parked ==> q.flight == Waiting && (q.key in flights || q.registered < epoch || 0 < owed))
  }

  predicate AllAwaited(requests: seq<Request>, flights: set<Key>, epoch: nat, owed: nat) {
    forall r :: 0 <= r < |requests| ==> Awaited(requests[r], flights, epoch, owed)
  }

  /** The clauses of the invariant, each over the fields it needs. */
  datatype Clause = Budget | Index | Phases | Flights | Counts | Outcomes | Bodies | Wakeups

  ghost predicate Holds(c: Clause, w: World, slack: int) {
    match c
    case Budget => Bytes(w.available, w.requests, w.stored, slack)
    case Index => Indexed(w.entries, w.stored)
    case Phases => Captured(w.requests)
    case Flights => Flown(w.flights, w.requests)
    case Counts => Tallied(w.requests, w.waiters, w.hits, w.misses) && w.considered == w.bypasses + |w.requests|
    case Outcomes => Filled(w.fills, w.requests)
    case Bodies => Exact(w.stored, w.requests)
    case Wakeups => AllAwaited(w.requests, w.flights, w.epoch, w.owed)
  }

  /** Every clause; a proof that needs one of them asks for it by name. */
  ghost predicate Core(w: World, slack: int) { forall c :: Holds(c, w, slack) }

  ghost predicate Inv(w: World) { Core(w, 0) && |w.entries| <= MAX_ENTRIES }

  // ---------------------------------------------------------------- entries

  lemma SetStoredBytes(w: World, i: nat, e: Stored, slack: int)
    requires Bytes(w.available, w.requests, w.stored, slack) && i < |w.stored|
    requires e.retained == w.stored[i].retained && (Alive(e) ==> Alive(w.stored[i]))
    ensures var v := SetStored(w, i, e); Bytes(v.available, v.requests, v.stored, slack)
  {
    SumUpdate(w.stored, i, e, LiveBytes);
  }

  lemma UnlistIndexed(entries: map<Key, nat>, stored: seq<Stored>, i: nat)
    requires Indexed(entries, stored) && i < |stored| && stored[i].listed
    ensures Indexed(entries - {stored[i].key}, stored[i := stored[i].(listed := false)])
    ensures |entries - {stored[i].key}| == |entries| - 1
  {
    assert (entries - {stored[i].key}).Keys == entries.Keys - {stored[i].key};
  }

  /** Pinning, unpinning and unlisting change no body. */
  lemma SameSourceExact(stored: seq<Stored>, requests: seq<Request>, i: nat, e: Stored)
    requires Exact(stored, requests) && i < |stored|
    requires e.source == stored[i].source && e.body == stored[i].body && e.key == stored[i].key
    ensures Exact(stored[i := e], requests)
  {}

  lemma SameListingIndexed(entries: map<Key, nat>, stored: seq<Stored>, i: nat, e: Stored)
    requires Indexed(entries, stored) && i < |stored| && e.key == stored[i].key && e.listed == stored[i].listed
    ensures Indexed(entries, stored[i := e])
  {}

  lemma UnlistKeeps(w: World, i: nat, slack: int)
    requires Core(w, slack) && i < |w.stored| && w.stored[i].listed
    ensures var v := Unlist(w, i);
      && Core(v, slack) && |v.entries| == |w.entries| - 1 && w.stored[i].key !in v.entries
      && v.requests == w.requests && |v.stored| == |w.stored|
  {
    var v, e := Unlist(w, i), w.stored[i].(listed := false);
    assert Holds(Index, w, slack);
    UnlistIndexed(w.entries, w.stored, i);
    forall c ensures Holds(c, v, slack) {
      assert Holds(c, w, slack);
      match c
      case Budget => SetStoredBytes(w, i, e, slack);
      case Bodies => SameSourceExact(w.stored, w.requests, i, e);
      case _ =>
    }
  }

  /** A change of pins that keeps a live entry alive or lets a pinned one go. */
  lemma PinsKeep(w: World, i: nat, pins: nat)
    requires Inv(w) && i < |w.stored| && Alive(w.stored[i])
    ensures Inv(SetStored(w, i, w.stored[i].(pins := pins)))
  {
    var e := w.stored[i].(pins := pins);
    var v := SetStored(w, i, e);
    forall c ensures Holds(c, v, 0) {
      assert Holds(c, w, 0);
      match c
      case Budget => SetStoredBytes(w, i, e, 0);
      case Index => SameListingIndexed(w.entries, w.stored, i, e);
      case Bodies => SameSourceExact(w.stored, w.requests, i, e);
      case _ =>
    }
  }

  lemma PinKeeps(w: World, i: nat)
    requires Inv(w) && i < |w.stored| && w.stored[i].listed
    ensures Inv(Pin(w, i))
  {
    PinsKeep(w, i, w.stored[i].pins + 1);
  }

  lemma UnpinKeeps(w: World, i: nat)
    requires Inv(w) && i < |w.stored| && 0 < w.stored[i].pins
    ensures Inv(Unpin(w, i))
  {
    PinsKeep(w, i, w.stored[i].pins - 1);
  }

  lemma {:induction false} PruneKeeps(w: World, n: nat, now: nat, ttl: nat)
    requires Inv(w) && n <= |w.stored|
    ensures Inv(Prune(w, n, now, ttl))
  {
    if n != 0 {
      PruneKeeps(w, n - 1, now, ttl);
      var v := Prune(w, n - 1, now, ttl);
      if Stale(v.stored[n - 1], now, ttl) { UnlistKeeps(v, n - 1, 0); }
    }
  }

  lemma {:induction false} EvictAllKeeps(w: World, victims: seq<nat>)
    requires Inv(w) && Honest(w, victims)
    ensures var v := EvictAll(w, victims); Inv(v) && (ENTRY_BYTES <= v.available || v.entries == map[])
    decreases |victims|
  {
    if victims != [] {
      UnlistKeeps(w, victims[0], 0);
      EvictAllKeeps(Unlist(w, victims[0]), victims[1..]);
    }
  }

  /** The eviction loop needs at most one round per listed entry. */
  lemma {:induction false} EvictionsBounded(w: World, victims: seq<nat>)
    requires Inv(w) && Honest(w, victims)
    ensures |victims| <= |w.entries|
    decreases |victims|
  {
    if victims != [] {
      UnlistKeeps(w, victims[0], 0);
      EvictionsBounded(Unlist(w, victims[0]), victims[1..]);
    }
  }

  lemma InsertKeeps(w: World, e: Stored)
    requires Core(w, e.retained) && e.listed && e.pins == 0
    requires |w.entries| < MAX_ENTRIES || (e.key in w.entries && |w.entries| <= MAX_ENTRIES)
    requires e.source < |w.requests| && e.key == w.requests[e.source].key && e.body == w.requests[e.source].observed
    requires w.requests[e.source].examined && !w.requests[e.source].phase.Capturing?
    ensures Inv(Insert(w, e)) && Insert(w, e).requests == w.requests
  {
    assert Holds(Index, w, e.retained);
    if e.key in w.entries {
      UnlistKeeps(w, w.entries[e.key], e.retained);
      AppendKeeps(Unlist(w, w.entries[e.key]), e);
    } else {
      AppendKeeps(w, e);
    }
  }

  lemma AppendKeeps(u: World, e: Stored)
    requires Core(u, e.retained) && e.listed && e.pins == 0 && e.key !in u.entries && |u.entries| < MAX_ENTRIES
    requires e.source < |u.requests| && e.key == u.requests[e.source].key && e.body == u.requests[e.source].observed
    requires u.requests[e.source].examined && !u.requests[e.source].phase.Capturing?
    ensures Inv(u.(entries := u.entries[e.key := |u.stored|], stored := u.stored + [e]))
  {
    var v := u.(entries := u.entries[e.key := |u.stored|], stored := u.stored + [e]);
    assert v.entries.Keys == u.entries.Keys + {e.key};
    forall c ensures Holds(c, v, 0) {
      assert Holds(c, u, e.retained);
      match c
      case Budget => SumSnoc(u.stored, e, LiveBytes);
      case Index => AppendIndexed(u.entries, u.stored, e);
      case Bodies => AppendExact(u.stored, u.requests, e);
      case _ =>
    }
  }

  lemma AppendIndexed(entries: map<Key, nat>, stored: seq<Stored>, e: Stored)
    requires Indexed(entries, stored) && e.listed && e.key !in entries
    ensures Indexed(entries[e.key := |stored|], stored + [e])
  {}

  lemma AppendExact(stored: seq<Stored>, requests: seq<Request>, e: Stored)
    requires Exact(stored, requests)
    requires e.source < |requests| && e.key == requests[e.source].key && e.body == requests[e.source].observed
    requires requests[e.source].examined && !requests[e.source].phase.Capturing?
    ensures Exact(stored + [e], requests)
  {}

  // ---------------------------------------------------------------- replacing one request

  lemma Retally(s: seq<Request>, r: nat, q: Request, m: Measure)
    requires r < |s|
    ensures Tally(s[r := q], m) == Tally(s, m) - Weigh(m, s[r]) + Weigh(m, q)
  {
    SumUpdate(s, r, q, Weight(m));
  }

  /** What a request keeps while only its lookup, flight or registration changes. */
  predicate SameCapture(p: Request, q: Request) {
    p.phase == q.phase && p.examined == q.examined && p.capturePending == q.capturePending && p.observed == q.observed
  }

  lemma SameCaptureFilled(fills: seq<Fill>, requests: seq<Request>, r: nat, q: Request)
    requires Filled(fills, requests) && r < |requests| && SameCapture(requests[r], q)
    ensures Filled(fills, requests[r := q])
  {}

  lemma SameCaptureExact(stored: seq<Stored>, requests: seq<Request>, r: nat, q: Request)
    requires Exact(stored, requests) && r < |requests| && SameCapture(requests[r], q) && q.key == requests[r].key
    ensures Exact(stored, requests[r := q])
  {}

  lemma SameCapturePhases(requests: seq<Request>, r: nat, q: Request)
    requires Captured(requests) && r < |requests| && SameCapture(requests[r], q)
    ensures Captured(requests[r := q])
  {
    assert CaptureOk(requests[r]) ==> CaptureOk(q);
  }

  lemma OneAwaited(requests: seq<Request>, flights: set<Key>, epoch: nat, owed: nat, r: nat, q: Request)
    requires AllAwaited(requests, flights, epoch, owed) && r < |requests| && Awaited(q, flights, epoch, owed)
    ensures AllAwaited(requests[r := q], flights, epoch, owed)
  {}

  lemma Recount(requests: seq<Request>, r: nat, q: Request, waiters: nat, hits: nat, misses: nat, v: nat, h: nat,
      m: nat)
    requires Tallied(requests, waiters, hits, misses) && r < |requests|
    requires v == waiters - Weigh(Waiters, requests[r]) + Weigh(Waiters, q)
    requires h == hits - Weigh(Hits, requests[r]) + Weigh(Hits, q)
    requires m == misses - Weigh(Misses, requests[r]) + Weigh(Misses, q)
    ensures Tallied(requests[r := q], v, h, m)
  {
    Retally(requests, r, q, Waiters);
    Retally(requests, r, q, Hits);
    Retally(requests, r, q, Misses);
  }

  lemma SameFlightFlown(flights: set<Key>, requests: seq<Request>, r: nat, q: Request)
    requires Flown(flights, requests) && r < |requests|
    requires q.key == requests[r].key && (q.flight == Owner <==> requests[r].flight == Owner)
    ensures Flown(flights, requests[r := q])
  {
    var s := requests[r := q];
    forall k ensures k in flights <==> Owned(s, k) {
      if Owned(requests, k) {
        var x :| 0 <= x < |requests| && requests[x].flight == Owner && requests[x].key == k;
        assert s[x].flight == Owner && s[x].key == k;
      }
      if Owned(s, k) {
        var x :| 0 <= x < |s| && s[x].flight == Owner && s[x].key == k;
        assert requests[x].flight == Owner && requests[x].key == k;
      }
    }
  }

  /** A change of lookup, flight or registration that involves no ownership; the counters follow it. */
  lemma LookupKeeps(w: World, r: nat, q: Request, waiters: nat, hits: nat, misses: nat)
    requires Inv(w) && r < |w.requests| && SameCapture(w.requests[r], q) && q.key == w.requests[r].key
    requires (q.flight == Owner <==> w.requests[r].flight == Owner) && Awaited(q, w.flights, w.epoch, w.owed)
    requires waiters == w.waiters - Weigh(Waiters, w.requests[r]) + Weigh(Waiters, q)
    requires hits == w.hits - Weigh(Hits, w.requests[r]) + Weigh(Hits, q)
    requires misses == w.misses - Weigh(Misses, w.requests[r]) + Weigh(Misses, q)
    ensures Inv(w.(requests := w.requests[r := q], waiters := waiters, hits := hits, misses := misses))
  {
    var v := w.(requests := w.requests[r := q], waiters := waiters, hits := hits, misses := misses);
    forall c ensures Holds(c, v, 0) {
      assert Holds(c, w, 0);
      match c
      case Budget => Retally(w.requests, r, q, Captures);
      case Index =>
      case Phases => SameCapturePhases(w.requests, r, q);
      case Flights => SameFlightFlown(w.flights, w.requests, r, q);
      case Counts => Recount(w.requests, r, q, w.waiters, w.hits, w.misses, waiters, hits, misses);
      case Outcomes => SameCaptureFilled(w.fills, w.requests, r, q);
      case Bodies => SameCaptureExact(w.stored, w.requests, r, q);
      case Wakeups => OneAwaited(w.requests, w.flights, w.epoch, w.owed, r, q);
    }
  }

  lemma RequestAwaited(w: World, r: nat)
    requires Inv(w) && r < |w.requests|
    ensures Awaited(w.requests[r], w.flights, w.epoch, w.owed)
  {
    assert Holds(Wakeups, w, 0);
  }

  lemma RequestCaptured(w: World, r: nat)
    requires Inv(w) && r < |w.requests|
    ensures CaptureOk(w.requests[r])
  {
    assert Holds(Phases, w, 0);
  }

  /** A change of the lookup outcome, with the counters following it. */
  lemma OutcomeKeeps(w: World, r: nat, q: Request, hits: nat, misses: nat)
    requires Inv(w) && r < |w.requests| && q == w.requests[r].(outcome := q.outcome)
    requires hits == w.hits - Weigh(Hits, w.requests[r]) + Weigh(Hits, q)
    requires misses == w.misses - Weigh(Misses, w.requests[r]) + Weigh(Misses, q)
    ensures Inv(w.(requests := w.requests[r := q], hits := hits, misses := misses))
  {
    RequestAwaited(w, r);
    LookupKeeps(w, r, q, w.waiters, hits, misses);
  }

  lemma MissCounted(w: World, r: nat)
    requires Inv(w) && r < |w.requests| && w.requests[r].outcome.Miss?
    ensures 0 < w.misses
  {
    assert Holds(Counts, w, 0);
    SumMember(w.requests, r, Weight(Misses));
  }

  lemma CountKeeps(w: World, r: nat, hit: bool)
    requires Inv(w) && r < |w.requests|
    ensures Inv(Count(w, r, hit))
    ensures var v := Count(w, r, hit); v == w.(requests := v.requests, hits := v.hits, misses := v.misses)
    ensures var v := Count(w, r, hit);
      |v.requests| == |w.requests| && v.requests[r] == w.requests[r].(outcome := v.requests[r].outcome)
  {
    var q := w.requests[r];
    if q.outcome.Uncounted? {
      if hit { OutcomeKeeps(w, r, q.(outcome := Hit), w.hits + 1, w.misses); }
      else { OutcomeKeeps(w, r, q.(outcome := Miss), w.hits, w.misses + 1); }
    } else if q.outcome.Miss? && hit {
      MissCounted(w, r);
      OutcomeKeeps(w, r, q.(outcome := Hit), w.hits + 1, w.misses - 1);
    }
  }

  /** A change of flight that involves no ownership, with the waiter counter following it. */
  lemma FlightKeeps(w: World, r: nat, q: Request, waiters: nat)
    requires Inv(w) && r < |w.requests| && SameCapture(w.requests[r], q)
    requires q.key == w.requests[r].key && q.outcome == w.requests[r].outcome
    requires q.flight != Owner && w.requests[r].flight != Owner
    requires Awaited(q, w.flights, w.epoch, w.owed)
    requires waiters == w.waiters - Weigh(Waiters, w.requests[r]) + Weigh(Waiters, q)
    ensures Inv(w.(requests := w.requests[r := q], waiters := waiters))
  {
    LookupKeeps(w, r, q, waiters, w.hits, w.misses);
  }

  lemma WaiterCounted(w: World, r: nat)
    requires Inv(w) && r < |w.requests| && w.requests[r].flight == Waiting
    ensures 0 < w.waiters
  {
    assert Holds(Counts, w, 0);
    SumMember(w.requests, r, Weight(Waiters));
  }

  lemma LeaveKeeps(w: World, r: nat)
    requires Inv(w) && r < |w.requests|
    ensures var v := Leave(w, r);
      Inv(v) && v.entries == w.entries && v.stored == w.stored && v.flights == w.flights && v.epoch == w.epoch
      && |v.requests| == |w.requests| && v.requests[r].key == w.requests[r].key
      && v.requests[r].registered == w.requests[r].registered
      && (v.requests[r].flight == if w.requests[r].flight == Waiting then Unclaimed else w.requests[r].flight)
  {
    var q := w.requests[r];
    if q.flight == Waiting {
      WaiterCounted(w, r);
      RequestAwaited(w, r);
      FlightKeeps(w, r, q.(flight := Unclaimed, parked := false), w.waiters - 1);
    }
  }

  lemma LookInKeeps(w: World, r: nat, now: nat, ttl: nat)
    requires Inv(w) && r < |w.requests|
    ensures var (v, hit) := LookIn(w, r, now, ttl);
      Inv(v) && |v.requests| == |w.requests| && v.requests[r].key == w.requests[r].key && v.epoch == w.epoch
      && (!hit ==> v.requests[r].flight == w.requests[r].flight && v.requests[r].registered == w.requests[r].registered)
  {
    PruneKeeps(w, |w.stored|, now, ttl);
    PruneEpoch(w, |w.stored|, now, ttl);
    var p := Prune(w, |w.stored|, now, ttl);
    var key := w.requests[r].key;
    var hit := key in p.entries && p.entries[key] < |p.stored|;
    CountKeeps(p, r, hit);
    if hit {
      assert Holds(Index, p, 0);
      LeaveKeeps(Count(p, r, hit), r);
      PinKeeps(Leave(Count(p, r, hit), r), p.entries[key]);
    }
  }

  lemma {:induction false} PruneEpoch(w: World, n: nat, now: nat, ttl: nat)
    requires n <= |w.stored|
    ensures Prune(w, n, now, ttl).epoch == w.epoch
  {
    if n != 0 { PruneEpoch(w, n - 1, now, ttl); }
  }

  /** Becoming the owner of a key nobody owns. */
  lemma ClaimKeeps(w: World, r: nat)
    requires Inv(w) && r < |w.requests| && w.requests[r].flight == Unclaimed
    requires w.requests[r].key !in w.flights && |w.flights| < MAX_ENTRIES
    ensures var q := w.requests[r];
      Inv(w.(requests := w.requests[r := q.(flight := Owner)], flights := w.flights + {q.key}))
  {
    var q := w.requests[r].(flight := Owner);
    var v := w.(requests := w.requests[r := q], flights := w.flights + {q.key});
    forall c ensures Holds(c, v, 0) {
      assert Holds(c, w, 0);
      match c
      case Flights => ClaimFlown(w.flights, w.requests, r);
      case Wakeups => ClaimAwaited(w.requests, w.flights, w.epoch, w.owed, r);
      case _ => OwnershipHolds(c, w, v, r, q);
    }
  }

  /** What a change of ownership alone does not touch. */
  lemma OwnershipHolds(c: Clause, w: World, v: World, r: nat, q: Request)
    requires Holds(c, w, 0) && c != Flights && c != Wakeups && r < |w.requests|
    requires q == w.requests[r].(flight := q.flight) && q.flight != Waiting && w.requests[r].flight != Waiting
    requires v == w.(requests := w.requests[r := q], flights := v.flights, owed := v.owed)
    ensures Holds(c, v, 0)
  {
    match c
    case Budget => Retally(w.requests, r, q, Captures);
    case Index =>
    case Phases => SameCapturePhases(w.requests, r, q);
    case Counts => Recount(w.requests, r, q, w.waiters, w.hits, w.misses, w.waiters, w.hits, w.misses);
    case Outcomes => SameCaptureFilled(w.fills, w.requests, r, q);
    case Bodies => SameCaptureExact(w.stored, w.requests, r, q);
  }

  lemma ClaimAwaited(requests: seq<Request>, flights: set<Key>, epoch: nat, owed: nat, r: nat)
    requires AllAwaited(requests, flights, epoch, owed) && r < |requests| && requests[r].flight == Unclaimed
    ensures AllAwaited(requests[r := requests[r].(flight := Owner)], flights + {requests[r].key}, epoch, owed)
  {
    var s := requests[r := requests[r].(flight := Owner)];
    forall x | 0 <= x < |s| ensures Awaited(s[x], flights + {requests[r].key}, epoch, owed) {
      assert Awaited(requests[x], flights, epoch, owed);
    }
  }

  lemma ClaimFlown(flights: set<Key>, requests: seq<Request>, r: nat)
    requires Flown(flights, requests) && r < |requests| && requests[r].key !in flights && |flights| < MAX_ENTRIES
    ensures Flown(flights + {requests[r].key}, requests[r := requests[r].(flight := Owner)])
  {
    var s := requests[r := requests[r].(flight := Owner)];
    forall k ensures k in flights + {requests[r].key} <==> Owned(s, k) {
      if Owned(requests, k) {
        var x :| 0 <= x < |requests| && requests[x].flight == Owner && requests[x].key == k;
        assert s[x].flight == Owner && s[x].key == k;
      }
      assert s[r].flight == Owner && s[r].key == requests[r].key;
      if Owned(s, k) && k != requests[r].key {
        var x :| 0 <= x < |s| && s[x].flight == Owner && s[x].key == k;
        assert requests[x].flight == Owner && requests[x].key == k;
      }
    }
    forall x | 0 <= x < |requests| && x != r && requests[x].flight == Owner ensures requests[x].key != requests[r].key {
      assert Owned(requests, requests[x].key);
    }
  }

  lemma ClaimTurnKeeps(l: World, r: nat)
    requires Inv(l) && r < |l.requests| && l.requests[r].flight != Owner && l.requests[r].flight != Bypass
    requires l.requests[r].key !in l.flights
    ensures var f := Leave(l, r); var key := l.requests[r].key;
      |f.requests| == |l.requests| &&
      if |f.flights| < MAX_ENTRIES then Inv(SetRequest(f.(flights := f.flights + {key}), r,
          f.requests[r].(flight := Owner)))
      else Inv(SetRequest(f, r, f.requests[r].(flight := Bypass)))
  {
    LeaveKeeps(l, r);
    var f := Leave(l, r);
    if |f.flights| < MAX_ENTRIES { ClaimKeeps(f, r); } else { BypassKeeps(f, r); }
  }

  lemma WaitTurnKeeps(l: World, r: nat)
    requires Inv(l) && r < |l.requests| && l.requests[r].flight != Owner && l.requests[r].key in l.flights
    ensures var q := l.requests[r];
      if q.flight != Waiting
      then Inv(SetRequest(l.(waiters := l.waiters + 1), r, q.(flight := Waiting, waited := true, parked := true)))
      else Inv(SetRequest(l, r, q.(parked := true)))
  {
    var q := l.requests[r];
    RequestAwaited(l, r);
    if q.flight != Waiting {
      FlightKeeps(l, r, q.(flight := Waiting, waited := true, parked := true), l.waiters + 1);
    } else {
      FlightKeeps(l, r, q.(parked := true), l.waiters);
    }
  }

  lemma TurnKeeps(w: World, r: nat, now: nat, ttl: nat)
    requires Inv(w) && r < |w.requests|
    ensures Inv(Turn(w, r, now, ttl))
  {
    LookInKeeps(w, r, now, ttl);
    var (l, hit) := LookIn(w, r, now, ttl);
    if !hit && l.requests[r].flight != Owner && l.requests[r].flight != Bypass {
      if l.requests[r].key !in l.flights {
        ClaimTurnKeeps(l, r);
      } else {
        WaitTurnKeeps(l, r);
      }
    }
  }

  lemma BypassKeeps(w: World, r: nat)
    requires Inv(w) && r < |w.requests| && w.requests[r].flight == Unclaimed
    ensures Inv(SetRequest(w, r, w.requests[r].(flight := Bypass)))
  {
    RequestAwaited(w, r);
    FlightKeeps(w, r, w.requests[r].(flight := Bypass), w.waiters);
  }

  // ---------------------------------------------------------------- captures

  /** What a request keeps while only its capture changes. */
  predicate SameLookup(p: Request, q: Request) {
    && p.key == q.key && p.outcome == q.outcome && p.flight == q.flight
    && p.registered == q.registered && p.parked == q.parked
  }

  /** An outcome is added exactly when the request becomes concluded. */
  predicate Charged(fills: seq<Fill>, after: seq<Fill>, r: nat, p: Request, q: Request) {
    if Concluded(p) == Concluded(q) then after == fills
    else Concluded(q) && |after| == |fills| + 1 && after[..|fills|] == fills && after[|fills|].request == r
  }

  lemma ChargedFilled(fills: seq<Fill>, after: seq<Fill>, requests: seq<Request>, r: nat, q: Request)
    requires Filled(fills, requests) && r < |requests| && Charged(fills, after, r, requests[r], q)
    ensures Filled(after, requests[r := q])
  {
    if Concluded(requests[r]) != Concluded(q) {
      assert after == fills + [after[|fills|]];
      forall x | 0 <= x < |requests| ensures FillCount(after, x) == FillCount(fills, x) + if x == r then 1 else 0 {
        SumSnoc(fills, after[|fills|], FillFor(x));
      }
    }
  }

  /** No stored entry depends on what changes. */
  predicate Harmless(p: Request, q: Request) {
    !p.examined || p.phase.Capturing? || (q.observed == p.observed && q.examined && !q.phase.Capturing?)
  }

  lemma HarmlessExact(stored: seq<Stored>, requests: seq<Request>, r: nat, q: Request)
    requires Exact(stored, requests) && r < |requests| && Harmless(requests[r], q) && q.key == requests[r].key
    ensures Exact(stored, requests[r := q])
  {}

  /** One change of a capture: permits, outcome and phase move together. */
  lemma CaptureKeeps(w: World, r: nat, q: Request, available: nat, fills: seq<Fill>, slack: int)
    requires Inv(w) && r < |w.requests| && SameLookup(w.requests[r], q) && CaptureOk(q)
    requires Charged(w.fills, fills, r, w.requests[r], q) && Harmless(w.requests[r], q)
    requires available + ENTRY_BYTES * Weigh(Captures, q) + slack
          == w.available + ENTRY_BYTES * Weigh(Captures, w.requests[r])
    ensures Core(w.(requests := w.requests[r := q], available := available, fills := fills), slack)
  {
    var v := w.(requests := w.requests[r := q], available := available, fills := fills);
    forall c ensures Holds(c, v, slack) {
      assert Holds(c, w, 0);
      match c
      case Budget => Retally(w.requests, r, q, Captures);
      case Index =>
      case Phases =>
      case Flights => SameFlightFlown(w.flights, w.requests, r, q);
      case Counts => Recount(w.requests, r, q, w.waiters, w.hits, w.misses, w.waiters, w.hits, w.misses);
      case Outcomes => ChargedFilled(w.fills, fills, w.requests, r, q);
      case Bodies => HarmlessExact(w.stored, w.requests, r, q);
      case Wakeups => assert Awaited(w.requests[r], w.flights, w.epoch, w.owed);
    }
  }

  function Refused(w: World, r: nat): Request
    requires r < |w.requests|
  {
    w.requests[r].(phase := Phase.Examined, examined := true)
  }

  lemma RefuseKeeps(w: World, r: nat, fill: Fill)
    requires Inv(w) && r < |w.requests| && w.requests[r].phase.Looking? && fill.request == r
    ensures Inv(SetRequest(w.(fills := w.fills + [fill]), r, Refused(w, r)))
    ensures Refused(w, r).(capturePending := false) == Refused(w, r)
  {
    RequestCaptured(w, r);
    CaptureKeeps(w, r, Refused(w, r), w.available, w.fills + [fill], 0);
  }

  lemma ReserveKeeps(w: World, r: nat, headers: seq<Header>)
    requires Inv(w) && r < |w.requests| && w.requests[r].phase.Looking? && ENTRY_BYTES <= w.available
    requires FoldHeaders(headers, 2) <= ENTRY_BYTES
    ensures Inv(SetRequest(w.(available := w.available - ENTRY_BYTES), r,
                  Refused(w, r).(phase := Capturing([], ENTRY_BYTES - FoldHeaders(headers, 2), headers),
                      capturePending := true)))
  {
    RequestCaptured(w, r);
    CaptureKeeps(w, r, Refused(w, r).(phase := Capturing([], ENTRY_BYTES - FoldHeaders(headers, 2), headers),
        capturePending := true),
                 w.available - ENTRY_BYTES, w.fills, 0);
  }

  lemma ExamineKeeps(w: World, r: nat, refusal: Option<Reason>, headers: seq<Header>, victims: seq<nat>)
    requires Inv(w) && r < |w.requests| && w.requests[r].phase.Looking?
    requires refusal.None? && FoldHeaders(headers, 2) <= ENTRY_BYTES ==> Honest(w, victims)
    ensures Inv(Examine(w, r, refusal, headers, victims))
  {
    if refusal.Some? {
      RefuseKeeps(w, r, NotStored(r, refusal.value));
    } else if ENTRY_BYTES < FoldHeaders(headers, 2) {
      RefuseKeeps(w, r, NotStored(r, Size));
    } else {
      EvictAllKeeps(w, victims);
      ReserveEntryKeeps(EvictAll(w, victims), r, headers);
    }
  }

  lemma ReserveEntryKeeps(w: World, r: nat, headers: seq<Header>)
    requires Inv(w) && r < |w.requests| && w.requests[r].phase.Looking? && FoldHeaders(headers, 2) <= ENTRY_BYTES
    ensures Inv(ReserveEntry(w, r, headers))
  {
    if w.available < ENTRY_BYTES { RefuseKeeps(w, r, OverBudget(r)); } else { ReserveKeeps(w, r, headers); }
  }

  lemma ObserveKeeps(w: World, r: nat, bytes: seq<byte>)
    requires Inv(w) && r < |w.requests| && w.requests[r].phase.Capturing?
    ensures Inv(Observe(w, r, bytes))
  {
    RequestCaptured(w, r);
    var q := w.requests[r].(observed := w.requests[r].observed + bytes);
    if Monus(q.phase.limit, |q.phase.body|) < |bytes| {
      CaptureKeeps(w, r, q.(capturePending := false), w.available,
                   if q.capturePending then w.fills + [NotStored(r, Size)] else w.fills, 0);
      assert !q.capturePending ==> q.(capturePending := false) == q;
    } else {
      CaptureKeeps(w, r, q.(phase := q.phase.(body := q.phase.body + bytes)), w.available, w.fills, 0);
    }
  }

  // ---------------------------------------------------------------- leaving

  lemma UnownFlown(flights: set<Key>, requests: seq<Request>, r: nat)
    requires Flown(flights, requests) && r < |requests| && requests[r].flight == Owner
    ensures Flown(flights - {requests[r].key}, requests[r := requests[r].(flight := Unclaimed)])
  {
    var key := requests[r].key;
    var s := requests[r := requests[r].(flight := Unclaimed)];
    forall k ensures k in flights - {key} <==> Owned(s, k) {
      if Owned(s, k) {
        var x :| 0 <= x < |s| && s[x].flight == Owner && s[x].key == k;
        assert requests[x].flight == Owner && requests[x].key == k;
        assert x != r;
      }
      if Owned(requests, k) && k != key {
        var x :| 0 <= x < |requests| && requests[x].flight == Owner && requests[x].key == k;
        assert s[x].flight == Owner && s[x].key == k;
      }
    }
  }

  lemma OwesAwaited(requests: seq<Request>, flights: set<Key>, epoch: nat, owed: nat, r: nat, q: Request,
      after: set<Key>)
    requires AllAwaited(requests, flights, epoch, owed) && r < |requests| && q.registered <= epoch && !q.parked
    ensures AllAwaited(requests[r := q], after, epoch, owed + 1)
  {
    var s := requests[r := q];
    forall x | 0 <= x < |s| ensures Awaited(s[x], after, epoch, owed + 1) {
      assert Awaited(requests[x], flights, epoch, owed);
    }
  }

  lemma UnownKeeps(w: World, r: nat)
    requires Inv(w) && r < |w.requests| && w.requests[r].flight == Owner
    ensures Inv(ReleaseFlight(w, r))
  {
    var q := w.requests[r].(flight := Unclaimed);
    var v := ReleaseFlight(w, r);
    RequestAwaited(w, r);
    forall c ensures Holds(c, v, 0) {
      assert Holds(c, w, 0);
      match c
      case Flights => UnownFlown(w.flights, w.requests, r);
      case Wakeups => OwesAwaited(w.requests, w.flights, w.epoch, w.owed, r, q, w.flights - {q.key});
      case _ => OwnershipHolds(c, w, v, r, q);
    }
  }

  lemma ReleaseFlightKeeps(w: World, r: nat)
    requires Inv(w) && r < |w.requests|
    ensures Inv(ReleaseFlight(w, r))
    ensures var v := ReleaseFlight(w, r);
      && v.available == w.available && v.fills == w.fills && |v.requests| == |w.requests|
      && SameCapture(w.requests[r], v.requests[r])
  {
    var q := w.requests[r];
    if q.flight == Owner {
      UnownKeeps(w, r);
    } else if q.flight == Waiting {
      WaiterCounted(w, r);
      RequestAwaited(w, r);
      FlightKeeps(w, r, q.(flight := Unclaimed, parked := false), w.waiters - 1);
    }
  }

  lemma UnfinishedKeeps(w: World, r: nat)
    requires Inv(w) && r < |w.requests| && w.requests[r].capturePending
    ensures Inv(Record(w, r, w.requests[r], IncompleteOrUnsafe))
  {
    var q := w.requests[r];
    RequestCaptured(w, r);
    CaptureKeeps(w, r, q.(capturePending := false), w.available, w.fills + [NotStored(r, IncompleteOrUnsafe)], 0);
  }

  lemma EndKeeps(w: World, r: nat)
    requires Inv(w) && r < |w.requests| && !w.requests[r].capturePending && !w.requests[r].phase.Dropped?
    ensures var q := w.requests[r];
      Inv(SetRequest(w.(available := if q.phase.Capturing? then w.available + ENTRY_BYTES else w.available), r,
                     q.(phase := Phase.Dropped)))
  {
    var q := w.requests[r];
    RequestCaptured(w, r);
    CaptureKeeps(w, r, q.(phase := Phase.Dropped),
                 if q.phase.Capturing? then w.available + ENTRY_BYTES else w.available, w.fills, 0);
  }

  lemma DropKeeps(w: World, r: nat)
    requires Inv(w) && r < |w.requests| && !w.requests[r].phase.Dropped?
    ensures Inv(Drop(w, r))
  {
    var q := w.requests[r];
    if q.capturePending { UnfinishedKeeps(w, r); }
    var a := if q.capturePending then Record(w, r, q, IncompleteOrUnsafe) else w;
    ReleaseFlightKeeps(a, r);
    EndKeeps(ReleaseFlight(a, r), r);
  }

  /** The subtraction in a commit cannot underflow. */
  lemma RetainedFits(q: Request)
    requires CaptureOk(q) && q.phase.Capturing?
    ensures Retained(q) <= ENTRY_BYTES
  {
    FoldIsStoredSize(q.phase.headers, 2);
  }

  lemma SplitKeeps(w: World, r: nat)
    requires Inv(w) && r < |w.requests| && w.requests[r].phase.Capturing? && w.requests[r].capturePending
    requires Retained(w.requests[r]) <= ENTRY_BYTES
    ensures Core(SplitPermit(w, r), Retained(w.requests[r]))
  {
    var q := w.requests[r];
    RequestCaptured(w, r);
    CaptureKeeps(w, r, q.(phase := Phase.Examined, capturePending := false),
                 w.available + (ENTRY_BYTES - Retained(q)), w.fills + [StoredBy(r)], Retained(q));
  }

  lemma StoreKeeps(w: World, r: nat, now: nat, victim: nat)
    requires Inv(w) && r < |w.requests| && w.requests[r].phase.Capturing? && w.requests[r].capturePending
    requires Retained(w.requests[r]) <= ENTRY_BYTES
    requires MAX_ENTRIES <= |w.entries| && w.requests[r].key !in w.entries ==> IsOldest(w, victim)
    ensures var q := w.requests[r]; var c := SplitPermit(w, r);
      var room := if MAX_ENTRIES <= |c.entries| && q.key !in c.entries then Unlist(c, victim) else c;
      var s := Insert(room, Stored(q.key, q.phase.body, Retained(q), now, true, 0, r));
      Inv(s) && |s.requests| == |w.requests|
  {
    var q := w.requests[r];
    RequestCaptured(w, r);
    SplitKeeps(w, r);
    var c := SplitPermit(w, r);
    if MAX_ENTRIES <= |c.entries| && q.key !in c.entries {
      UnlistKeeps(c, victim, Retained(q));
      InsertKeeps(Unlist(c, victim), Stored(q.key, q.phase.body, Retained(q), now, true, 0, r));
    } else {
      InsertKeeps(c, Stored(q.key, q.phase.body, Retained(q), now, true, 0, r));
    }
  }

  lemma CommitKeeps(w: World, r: nat, complete: bool, now: nat, victim: nat)
    requires Inv(w) && r < |w.requests| && w.requests[r].phase.Capturing?
    requires Retained(w.requests[r]) <= ENTRY_BYTES
    requires MAX_ENTRIES <= |w.entries| && w.requests[r].key !in w.entries ==> IsOldest(w, victim)
    ensures Inv(Commit(w, r, complete, now, victim))
  {
    var q := w.requests[r];
    if !complete || !q.capturePending {
      DropKeeps(w, r);
    } else {
      StoreKeeps(w, r, now, victim);
      var c := SplitPermit(w, r);
      var room := if MAX_ENTRIES <= |c.entries| && q.key !in c.entries then Unlist(c, victim) else c;
      var s := Insert(room, Stored(q.key, q.phase.body, Retained(q), now, true, 0, r));
      ReleaseFlightKeeps(s, r);
      OweKeeps(s);
    }
  }

  lemma OweKeeps(w: World)
    requires Inv(w)
    ensures Inv(w.(owed := w.owed + 1))
  {
    var v := w.(owed := w.owed + 1);
    forall c ensures Holds(c, v, 0) {
      assert Holds(c, w, 0);
      if c == Wakeups { OwedAwaited(w.requests, w.flights, w.epoch, w.owed); }
    }
  }

  lemma OwedAwaited(requests: seq<Request>, flights: set<Key>, epoch: nat, owed: nat)
    requires AllAwaited(requests, flights, epoch, owed)
    ensures AllAwaited(requests, flights, epoch, owed + 1)
  {
    forall x | 0 <= x < |requests| ensures Awaited(requests[x], flights, epoch, owed + 1) {
      assert Awaited(requests[x], flights, epoch, owed);
    }
  }
}
