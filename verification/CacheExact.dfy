/**
  The cache's answers, exactly: when a look is a hit and what it replays, who becomes the owner of
  a key, which chunks are kept, when the budget refuses a capture, and what a commit lists.
 */
module CacheExact {
  import opened Prelude
  import opened Cache
  import opened CacheSafety
  import opened CacheRuns

  // ---------------------------------------------------------------- looks

  /** Listed under the key and younger than the time to live. */
  predicate Replayable(e: Stored, key: Key, now: nat, ttl: nat) {
    e.listed && e.key == key && Monus(now, e.inserted) < ttl
  }

  /** Pruning takes exactly the outlived entries out of the map. */
  lemma {:induction false} PruneUnlists(w: World, n: nat, now: nat, ttl: nat, i: nat)
    requires n <= |w.stored| && i < |w.stored|
    ensures var e := w.stored[i]; var outlived := i < n && e.listed && ttl <= Monus(now, e.inserted);
      Prune(w, n, now, ttl).stored[i] == if outlived then e.(listed := false) else e
  {
    if n != 0 { PruneUnlists(w, n - 1, now, ttl, i); }
  }

  /** The entry a look finds for a key, if any. */
  lemma PrunedHolds(w: World, now: nat, ttl: nat, key: Key)
    requires Inv(w)
    ensures var p := Prune(w, |w.stored|, now, ttl);
      && (key in p.entries ==> p.entries[key] < |w.stored| && Replayable(w.stored[p.entries[key]], key, now, ttl))
      && (key !in p.entries ==> forall i :: 0 <= i < |w.stored| ==> !Replayable(w.stored[i], key, now, ttl))
  {
    var p := Prune(w, |w.stored|, now, ttl);
    PruneKeeps(w, |w.stored|, now, ttl);
    assert Holds(Index, p, 0);
    if key in p.entries {
      PruneUnlists(w, |w.stored|, now, ttl, p.entries[key]);
    } else {
      forall i | 0 <= i < |w.stored| ensures !Replayable(w.stored[i], key, now, ttl) {
        PruneUnlists(w, |w.stored|, now, ttl, i);
      }
    }
  }

  /** One more replay of entry `i`, and nothing else pinned or released. */
  predicate PinsOne(before: seq<Stored>, after: seq<Stored>, i: nat) {
    && |after| == |before| && i < |before| && after[i].pins == before[i].pins + 1
    && forall j :: 0 <= j < |before| && j != i ==> after[j].pins == before[j].pins
  }

  lemma PrunePins(w: World, now: nat, ttl: nat)
    ensures var p := Prune(w, |w.stored|, now, ttl);
      |p.stored| == |w.stored| && forall j :: 0 <= j < |w.stored| ==> p.stored[j].pins == w.stored[j].pins
  {
    forall j | 0 <= j < |w.stored| ensures Prune(w, |w.stored|, now, ttl).stored[j].pins == w.stored[j].pins {
      PruneUnlists(w, |w.stored|, now, ttl, j);
    }
  }

  lemma CountLeaves(w: World, r: nat, hit: bool)
    requires r < |w.requests|
    ensures var c := Count(w, r, hit); var q := w.requests[r];
      && c.stored == w.stored && c.entries == w.entries && c.flights == w.flights
      && c.requests == w.requests[r := q.(outcome := if hit || q.outcome.Hit? then Hit else Miss)]
  {
    var q := w.requests[r];
    if q.outcome.Hit? || (q.outcome.Miss? && !hit) { assert w.requests[r := q] == w.requests; }
  }

  lemma LeaveLeaves(w: World, r: nat)
    requires r < |w.requests|
    ensures var v := Leave(w, r); var q := w.requests[r];
      && v.stored == w.stored && v.entries == w.entries && v.flights == w.flights
      && v.requests == w.requests[r := if q.flight == Waiting then q.(flight := Unclaimed, parked := false) else q]
  {
    if w.requests[r].flight != Waiting { assert w.requests[r := w.requests[r]] == w.requests; }
  }

  /** The request after a look. */
  function Looked(q: Request, hit: bool): Request {
    var c := q.(outcome := if hit || q.outcome.Hit? then Hit else Miss);
    if hit && q.flight == Waiting then c.(flight := Unclaimed, parked := false) else c
  }

  /** What a look leaves of the entries and of the request. */
  lemma LookLeaves(w: World, r: nat, now: nat, ttl: nat)
    requires r < |w.requests|
    ensures var p := Prune(w, |w.stored|, now, ttl); var (l, hit) := LookIn(w, r, now, ttl);
      var key := w.requests[r].key;
      && (hit <==> key in p.entries && p.entries[key] < |p.stored|)
      && l.flights == p.flights && |l.requests| == |w.requests| && l.requests[r] == Looked(w.requests[r], hit)
      && (!hit ==> l.stored == p.stored)
      && (hit ==> PinsOne(p.stored, l.stored, p.entries[key]))
  {
    var p := Prune(w, |w.stored|, now, ttl);
    var key := w.requests[r].key;
    var hit := key in p.entries && p.entries[key] < |p.stored|;
    CountLeaves(p, r, hit);
    LeaveLeaves(Count(p, r, hit), r);
  }

  /**
    In every run, a look is a hit if and only if an entry younger than the time to live is listed
    under the request's key; a hit pins exactly one such entry, whose body was captured for a
    request with the same key, and the outcome is a hit from the first hit on and a miss until then.
   */
  lemma LooksAreExact(steps: seq<Step>, r: nat, now: nat, ttl: nat)
    requires r < |Run(steps).requests|
    ensures var f := Run(steps); var q := f.requests[r]; var (l, hit) := LookIn(f, r, now, ttl);
      && (hit <==> exists i :: 0 <= i < |f.stored| && Replayable(f.stored[i], q.key, now, ttl))
      && (hit ==> exists i: nat :: PinsOne(f.stored, l.stored, i) && Replayable(f.stored[i], q.key, now, ttl)
                              && f.stored[i].source < |f.requests| && f.requests[f.stored[i].source].key == q.key
                              && f.stored[i].body == f.requests[f.stored[i].source].observed)
      && l.requests[r].outcome == (if hit || q.outcome.Hit? then Hit else Miss)
  {
    var f := Run(steps);
    var q := f.requests[r];
    var p := Prune(f, |f.stored|, now, ttl);
    RunKeeps(steps);
    LookLeaves(f, r, now, ttl);
    PrunedHolds(f, now, ttl, q.key);
    PrunePins(f, now, ttl);
    if q.key in p.entries {
      var i := p.entries[q.key];
      assert Replayable(f.stored[i], q.key, now, ttl);
      StoredBodyIsComplete(steps, i);
      assert PinsOne(f.stored, LookIn(f, r, now, ttl).0.stored, i);
    }
  }

  // ---------------------------------------------------------------- turns

  lemma {:induction false} PruneFlights(w: World, n: nat, now: nat, ttl: nat)
    requires n <= |w.stored|
    ensures Prune(w, n, now, ttl).flights == w.flights
  {
    if n != 0 { PruneFlights(w, n - 1, now, ttl); }
  }

  /**
    In every run, a turn that is no hit makes the request the owner of a key nobody owns while
    fewer than 128 keys are in flight, lets it bypass when there are as many, and parks it when the
    key is owned; an owner or a bypassing request stays what it is.
   */
  lemma TurnsAreExact(steps: seq<Step>, r: nat, now: nat, ttl: nat)
    requires r < |Run(steps).requests| && !Run(steps).requests[r].parked
    ensures var f := Run(steps); var q := f.requests[r]; var v := Turn(f, r, now, ttl);
      var hit := LookIn(f, r, now, ttl).1;
      && |v.requests| == |f.requests|
      && (hit ==> v.flights == f.flights && !v.requests[r].parked && v.requests[r].flight != Waiting)
      && (!hit && (q.flight == Owner || q.flight == Bypass) ==>
            v.flights == f.flights && v.requests[r].flight == q.flight && !v.requests[r].parked)
      && (!hit && q.flight != Owner && q.flight != Bypass ==>
            if q.key in f.flights then
              v.flights == f.flights && v.requests[r].flight == Waiting && v.requests[r].parked
            else if |f.flights| < 128 then
              v.flights == f.flights + {q.key} && v.requests[r].flight == Owner && !v.requests[r].parked
            else v.flights == f.flights && v.requests[r].flight == Bypass && !v.requests[r].parked)
  {
    var f := Run(steps);
    LookLeaves(f, r, now, ttl);
    PruneFlights(f, |f.stored|, now, ttl);
    if !LookIn(f, r, now, ttl).1 { MissedTurn(f, r, now, ttl); }
  }

  /** A turn after a miss, on the world the look left. */
  lemma MissedTurn(w: World, r: nat, now: nat, ttl: nat)
    requires r < |w.requests| && !LookIn(w, r, now, ttl).1 && |LookIn(w, r, now, ttl).0.requests| == |w.requests|
    ensures var l := LookIn(w, r, now, ttl).0; var q := l.requests[r]; var v := Turn(w, r, now, ttl);
      && |v.requests| == |w.requests|
      && (q.flight == Owner || q.flight == Bypass ==> v == l)
      && (q.flight != Owner && q.flight != Bypass ==>
            if q.key in l.flights then
              v.flights == l.flights && v.requests[r].flight == Waiting && v.requests[r].parked
            else if |l.flights| < 128 then
              v.flights == l.flights + {q.key} && v.requests[r] == Settled(q).(flight := Owner)
            else v.flights == l.flights && v.requests[r] == Settled(q).(flight := Bypass))
  {
    var l := LookIn(w, r, now, ttl).0;
    LeaveLeaves(l, r);
  }

  /** A request that no longer waits. */
  function Settled(q: Request): Request { if q.flight == Waiting then q.(flight := Unclaimed, parked := false) else q }

  // ---------------------------------------------------------------- chunks

  /**
    In every run, a chunk keeps a pending capture pending if and only if all that it was offered
    still fits a whole entry beside its headers; from the first that does not, it is never stored.
   */
  lemma ChunksAreExact(steps: seq<Step>, r: nat, bytes: seq<byte>)
    requires r < |Run(steps).requests|
    requires Run(steps).requests[r].phase.Capturing? && Run(steps).requests[r].capturePending
    ensures var f := Run(steps); var q := f.requests[r]; var k := Observe(f, r, bytes).requests[r];
      && k.observed == q.observed + bytes
      && (k.capturePending <==> |q.observed + bytes| + StoredSize(q.phase.headers) <= ENTRY_BYTES)
      && (k.capturePending ==> k.phase.Capturing? && k.phase.body == q.observed + bytes)
  {
    RunKeeps(steps);
    RequestCaptured(Run(steps), r);
    FoldIsStoredSize(Run(steps).requests[r].phase.headers, 2);
  }

  // ---------------------------------------------------------------- the budget

  function FreeableOf(): Stored -> int { (e: Stored) => if e.listed && e.pins == 0 then e.retained else 0 }

  /** The bytes that evicting every listed entry would free. */
  function Freeable(stored: seq<Stored>): int { SumBy(stored, FreeableOf()) }

  lemma UnlistFrees(w: World, i: nat)
    requires i < |w.stored| && w.stored[i].listed
    ensures var v := Unlist(w, i); v.available + Freeable(v.stored) == w.available + Freeable(w.stored)
  {
    SumUpdate(w.stored, i, w.stored[i].(listed := false), FreeableOf());
  }

  lemma {:induction false} EvictionsFree(w: World, victims: seq<nat>)
    requires Inv(w) && Honest(w, victims)
    ensures var v := EvictAll(w, victims);
      && v.available + Freeable(v.stored) == w.available + Freeable(w.stored)
      && Inv(v) && (ENTRY_BYTES <= v.available || v.entries == map[])
    decreases |victims|
  {
    if victims != [] {
      UnlistFrees(w, victims[0]);
      UnlistKeeps(w, victims[0], 0);
      EvictionsFree(Unlist(w, victims[0]), victims[1..]);
    }
  }

  lemma NothingFreeable(stored: seq<Stored>)
    requires forall i :: 0 <= i < |stored| ==> !stored[i].listed
    ensures Freeable(stored) == 0
  {
    SumAgree(stored, FreeableOf(), (e: Stored) => 0);
    AllZero(stored);
  }

  lemma {:induction false} AllZero(stored: seq<Stored>)
    ensures SumBy(stored, (e: Stored) => 0) == 0
  {
    if stored != [] { AllZero(stored[..|stored| - 1]); }
  }

  lemma FreeableNonNegative(stored: seq<Stored>)
    ensures 0 <= Freeable(stored)
  {
    SumNonNegative(stored, FreeableOf());
  }

  /**
    In every run, an acceptable response is captured if and only if the free permits and the bytes
    of listed entries that no replay pins make up a whole entry; nothing is evicted while the free
    permits alone do.
   */
  lemma BudgetIsExact(steps: seq<Step>, r: nat, headers: seq<Header>, victims: seq<nat>)
    requires r < |Run(steps).requests| && FoldHeaders(headers, 2) <= ENTRY_BYTES && Honest(Run(steps), victims)
    ensures var f := Run(steps); var v := Examine(f, r, None, headers, victims);
      && |v.requests| == |f.requests|
      && (v.requests[r].phase.Capturing? <==> ENTRY_BYTES <= f.available + Freeable(f.stored))
      && (ENTRY_BYTES <= f.available ==> v.stored == f.stored && v.entries == f.entries)
  {
    var f := Run(steps);
    var e := EvictAll(f, victims);
    RunKeeps(steps);
    EvictionsFree(f, victims);
    FreeableNonNegative(e.stored);
    if e.entries == map[] {
      assert Holds(Index, e, 0);
      NothingFreeable(e.stored);
    }
  }

  lemma {:induction false} EvictsOldestFirst(w: World, victims: seq<nat>, i: nat, j: nat)
    requires Inv(w) && Honest(w, victims) && i < |w.stored| && j < |w.stored|
    requires |EvictAll(w, victims).stored| == |w.stored|
    requires w.stored[i].listed && !EvictAll(w, victims).stored[i].listed && EvictAll(w, victims).stored[j].listed
    ensures w.stored[j].listed && w.stored[i].inserted <= w.stored[j].inserted
    decreases |victims|
  {
    if victims != [] {
      var v := Unlist(w, victims[0]);
      UnlistKeeps(w, victims[0], 0);
      EvictedStays(v, victims[1..], j);
      if i != victims[0] { EvictsOldestFirst(v, victims[1..], i, j); }
    }
  }

  /** Eviction never lists anything, and moves no insertion time. */
  lemma {:induction false} EvictedStays(w: World, victims: seq<nat>, j: nat)
    requires Honest(w, victims) && j < |w.stored|
    ensures var v := EvictAll(w, victims);
      && |v.stored| == |w.stored| && v.stored[j].inserted == w.stored[j].inserted
      && (v.stored[j].listed ==> w.stored[j].listed)
    decreases |victims|
  {
    if victims != [] { EvictedStays(Unlist(w, victims[0]), victims[1..], j); }
  }

  /** In every run, an entry evicted for a capture was inserted no later than any entry that stays listed. */
  lemma EvictionIsByAge(steps: seq<Step>, victims: seq<nat>, i: nat, j: nat)
    requires Honest(Run(steps), victims) && i < |Run(steps).stored| && j < |Run(steps).stored|
    ensures var f := Run(steps); var v := EvictAll(f, victims);
      && |v.stored| == |f.stored|
      && (f.stored[i].listed && !v.stored[i].listed && v.stored[j].listed ==>
            f.stored[i].inserted <= f.stored[j].inserted)
  {
    var f := Run(steps);
    RunKeeps(steps);
    EvictedStays(f, victims, i);
    if f.stored[i].listed && !EvictAll(f, victims).stored[i].listed && EvictAll(f, victims).stored[j].listed {
      EvictsOldestFirst(f, victims, i, j);
    }
  }

  // ---------------------------------------------------------------- commits

  /** The entry a commit lists. */
  predicate Lists(v: World, q: Request, now: nat) {
    && q.key in v.entries && v.entries[q.key] < |v.stored|
    && var e := v.stored[v.entries[q.key]]; e.listed && e.key == q.key && e.body == q.observed && e.inserted == now
  }

  lemma UnlistedMap(w: World, i: nat)
    requires Indexed(w.entries, w.stored) && i < |w.stored| && w.stored[i].listed
    ensures Unlist(w, i).entries == w.entries - {w.stored[i].key} && |Unlist(w, i).stored| == |w.stored|
  {}

  lemma InsertLists(w: World, e: Stored)
    requires Indexed(w.entries, w.stored) && e.listed
    ensures var v := Insert(w, e);
      && v.entries == w.entries[e.key := |w.stored|] && |v.stored| == |w.stored| + 1 && v.stored[|w.stored|] == e
  {
    if e.key in w.entries { UnlistedMap(w, w.entries[e.key]); }
  }

  /** The map while a commit makes room: as it was, or without one oldest entry. */
  function Room(w: World, key: Key, victim: nat): map<Key, nat>
    requires MAX_ENTRIES <= |w.entries| && key !in w.entries ==> victim < |w.stored|
  {
    if MAX_ENTRIES <= |w.entries| && key !in w.entries then w.entries - {w.stored[victim].key} else w.entries
  }

  lemma CommitLists(w: World, r: nat, now: nat, victim: nat)
    requires Inv(w) && r < |w.requests| && w.requests[r].phase.Capturing? && w.requests[r].capturePending
    requires Retained(w.requests[r]) <= ENTRY_BYTES
    requires MAX_ENTRIES <= |w.entries| && w.requests[r].key !in w.entries ==> IsOldest(w, victim)
    ensures var v := Commit(w, r, true, now, victim); var q := w.requests[r];
      && Lists(v, q, now)
      && v.entries == Room(w, q.key, victim)[q.key := |w.stored|]
      && |v.requests| == |w.requests| && v.requests[r].flight != Owner
  {
    var q := w.requests[r];
    RequestCaptured(w, r);
    assert Holds(Index, w, 0);
    var c := SplitPermit(w, r);
    var full := MAX_ENTRIES <= |c.entries| && q.key !in c.entries;
    var room := if full then Unlist(c, victim) else c;
    if full {
      UnlistIndexed(c.entries, c.stored, victim);
      UnlistedMap(c, victim);
    }
    InsertLists(room, Stored(q.key, q.phase.body, Retained(q), now, true, 0, r));
  }

  lemma CommitWakes(w: World, r: nat, now: nat, victim: nat)
    requires r < |w.requests| && w.requests[r].phase.Capturing? && w.requests[r].capturePending
    requires MAX_ENTRIES <= |w.entries| && w.requests[r].key !in w.entries ==> IsOldest(w, victim)
    ensures var q := w.requests[r];
      Retained(q) <= ENTRY_BYTES ==>
        var v := Commit(w, r, true, now, victim);
        && v.flights == (if q.flight == Owner then w.flights - {q.key} else w.flights)
        && v.owed == w.owed + 1
  {}

  /**
    In every run, committing a complete pending capture lists exactly the body it observed under
    the request's own key, with the time of the commit, displaces at most what was there and - only
    when 128 other keys are listed - one oldest entry, gives up the request's flight, if it owned
    it, and owes the waiters exactly one notification.
   */
  lemma CommitsAreExact(steps: seq<Step>, r: nat, now: nat, victim: nat)
    requires r < |Run(steps).requests|
    requires Run(steps).requests[r].phase.Capturing? && Run(steps).requests[r].capturePending
    requires var f := Run(steps); MAX_ENTRIES <= |f.entries| && f.requests[r].key !in f.entries ==> IsOldest(f, victim)
    ensures var f := Run(steps); var q := f.requests[r];
      && Retained(q) <= ENTRY_BYTES
      && var v := Commit(f, r, true, now, victim);
         && Lists(v, q, now)
         && v.entries == Room(f, q.key, victim)[q.key := |f.stored|]
         && |v.requests| == |f.requests| && v.requests[r].flight != Owner
         && v.flights == (if q.flight == Owner then f.flights - {q.key} else f.flights)
         && v.owed == f.owed + 1
  {
    CommitWakes(Run(steps), r, now, victim);
    RunKeeps(steps);
    RequestCaptured(Run(steps), r);
    RetainedFits(Run(steps).requests[r]);
    CommitLists(Run(steps), r, now, victim);
  }

  /** In every run, a capture that is incomplete or given up lists nothing. */
  lemma UnfinishedListsNothing(steps: seq<Step>, r: nat, complete: bool, now: nat, victim: nat)
    requires r < |Run(steps).requests| && Run(steps).requests[r].phase.Capturing?
    requires !complete || !Run(steps).requests[r].capturePending
    requires Retained(Run(steps).requests[r]) <= ENTRY_BYTES
    requires var f := Run(steps); MAX_ENTRIES <= |f.entries| && f.requests[r].key !in f.entries ==> IsOldest(f, victim)
    ensures var f := Run(steps); var v := Commit(f, r, complete, now, victim);
      v.entries == f.entries && v.stored == f.stored && v.available == f.available + ENTRY_BYTES
  {
  }

  // ---------------------------------------------------------------- the recorded reason

  /** In every run, an examined response records the reason it was refused for, in the program's order. */
  lemma ExaminationsAreRecorded(steps: seq<Step>, r: nat, refusal: Option<Reason>, headers: seq<Header>,
                                victims: seq<nat>)
    requires r < |Run(steps).requests|
    requires refusal.None? && FoldHeaders(headers, 2) <= ENTRY_BYTES ==> Honest(Run(steps), victims)
    ensures var f := Run(steps); var v := Examine(f, r, refusal, headers, victims);
      && |v.requests| == |f.requests|
      && v.fills == f.fills + (if refusal.Some? then [NotStored(r, refusal.value)]
                               else if ENTRY_BYTES < StoredSize(headers) then [NotStored(r, Size)]
                               else if v.requests[r].phase.Capturing? then [] else [OverBudget(r)])
  {
    var f := Run(steps);
    FoldIsStoredSize(headers, 2);
    if refusal.None? && FoldHeaders(headers, 2) <= ENTRY_BYTES { EvictionFills(f, victims); }
    assert f.fills + [] == f.fills;
  }

  lemma {:induction false} EvictionFills(w: World, victims: seq<nat>)
    requires Honest(w, victims)
    ensures EvictAll(w, victims).fills == w.fills
    decreases |victims|
  {
    if victims != [] { EvictionFills(Unlist(w, victims[0]), victims[1..]); }
  }

  // ---------------------------------------------------------------- leaving

  /** A dropped request owns and awaits nothing. */
  predicate Landed(q: Request) { q.phase.Dropped? ==> q.flight != Owner && q.flight != Waiting }

  lemma DropLands(w: World, r: nat)
    requires r < |w.requests|
    ensures |Drop(w, r).requests| == |w.requests| && Landed(Drop(w, r).requests[r])
    ensures forall x :: 0 <= x < |w.requests| && x != r ==> Drop(w, r).requests[x] == w.requests[x]
  {}

  lemma CommitLands(w: World, r: nat, complete: bool, now: nat, victim: nat)
    requires r < |w.requests| && w.requests[r].phase.Capturing? && Retained(w.requests[r]) <= ENTRY_BYTES
    requires MAX_ENTRIES <= |w.entries| && w.requests[r].key !in w.entries ==> IsOldest(w, victim)
    ensures var v := Commit(w, r, complete, now, victim);
      && |v.requests| == |w.requests| && Landed(v.requests[r])
      && forall x :: 0 <= x < |w.requests| && x != r ==> v.requests[x] == w.requests[x]
  {
    if !complete || !w.requests[r].capturePending { DropLands(w, r); }
  }

  lemma TurnLands(w: World, r: nat, now: nat, ttl: nat)
    requires r < |w.requests|
    ensures var v := Turn(w, r, now, ttl);
      && |v.requests| == |w.requests| && v.requests[r].phase == w.requests[r].phase
      && forall x :: 0 <= x < |w.requests| && x != r ==> v.requests[x] == w.requests[x]
  {
    LookOthers(w, r, now, ttl);
    LeaveLeaves(LookIn(w, r, now, ttl).0, r);
  }

  lemma LookOthers(w: World, r: nat, now: nat, ttl: nat)
    requires r < |w.requests|
    ensures var l := LookIn(w, r, now, ttl).0;
      |l.requests| == |w.requests| && l.requests[r].phase == w.requests[r].phase
    ensures forall x :: 0 <= x < |w.requests| && x != r ==> LookIn(w, r, now, ttl).0.requests[x] == w.requests[x]
  {
    var p := Prune(w, |w.stored|, now, ttl);
    var key := w.requests[r].key;
    var hit := key in p.entries && p.entries[key] < |p.stored|;
    CountLeaves(p, r, hit);
    LeaveLeaves(Count(p, r, hit), r);
  }

  lemma StepLands(w: World, s: Step)
    requires Enabled(w, s) && !Underflows(w, s) && forall x :: 0 <= x < |w.requests| ==> Landed(w.requests[x])
    ensures forall x :: 0 <= x < |Apply(w, s).requests| ==> Landed(Apply(w, s).requests[x])
  {
    match s
    case LookOnce(r, now, ttl) => LookOthers(w, r, now, ttl);
    case TakeTurn(r, now, ttl) => TurnLands(w, r, now, ttl);
    case Finish(r, complete, now, victim) => CommitLands(w, r, complete, now, victim);
    case Discard(r) => DropLands(w, r);
    case _ =>
  }

  lemma {:induction false} RunLands(steps: seq<Step>, x: nat)
    requires x < |Run(steps).requests|
    ensures Landed(Run(steps).requests[x])
  {
    if steps != [] {
      var v, s := Run(steps[..|steps| - 1]), steps[|steps| - 1];
      forall y | 0 <= y < |v.requests| ensures Landed(v.requests[y]) { RunLands(steps[..|steps| - 1], y); }
      if Enabled(v, s) && !Underflows(v, s) { StepLands(v, s); }
    }
  }

  /** In every run, a request that is gone holds no flight, so every key in flight has a live owner. */
  lemma FlightsHaveLiveOwners(steps: seq<Step>, key: Key)
    ensures var f := Run(steps);
      key in f.flights <==>
        exists r ::
          && 0 <= r < |f.requests| && f.requests[r].flight == Owner
          && f.requests[r].key == key && !f.requests[r].phase.Dropped?
  {
    var f := Run(steps);
    RunKeeps(steps);
    assert Holds(Flights, f, 0);
    forall x | 0 <= x < |f.requests| ensures Landed(f.requests[x]) { RunLands(steps, x); }
    assert key in f.flights <==> Owned(f.requests, key);
  }
}
