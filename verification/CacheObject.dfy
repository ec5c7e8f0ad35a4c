/**
  The cache as an object that is updated in place, its loops included.  Requests and their
  captures live in the `requests` sequence; what dropping one does is `Discard`.
 */
module CacheObject {
  import opened Prelude
  import opened Cache
  import opened CacheSafety
  import CacheRuns

  class ExactCache {
    var available: nat
    var entries: map<Key, nat>
    var stored: seq<Stored>
    var flights: set<Key>
    var waiters: nat
    var considered: nat
    var bypasses: nat
    var hits: nat
    var misses: nat
    var requests: seq<Request>
    var fills: seq<Fill>
    var epoch: nat
    var owed: nat

    function Model(): World
      reads this
    {
      World(available, entries, stored, flights, waiters, considered, bypasses, hits, misses, requests, fills, epoch,
          owed)
    }

    constructor ()
      ensures Model() == CacheRuns.EMPTY
    {
      available, entries, stored, flights, waiters := BUDGET_BYTES, map[], [], {}, 0;
      considered, bypasses, hits, misses, requests, fills, epoch, owed := 0, 0, 0, 0, [], [], 0, 0;
    }

    // -------------------------------------------------------------- entries

    /** Takes an entry out of the map; its permits return unless a replay still holds it. */
    method Remove(i: nat)
      requires i < |stored|
      modifies this
      ensures Model() == Unlist(old(Model()), i)
    {
      var e := stored[i];
      entries := entries - {e.key};
      if e.listed && e.pins == 0 { available := available + e.retained; }
      stored := stored[i := e.(listed := false)];
    }

    /** Keeps only the entries that have not outlived their time. */
    method Retain(now: nat, ttl: nat)
      modifies this
      ensures Model() == Prune(old(Model()), |old(stored)|, now, ttl)
    {
      var i := 0;
      while i < |stored|
        invariant i <= |stored| == |old(stored)|
        invariant Model() == Prune(old(Model()), i, now, ttl)
      {
        if Stale(stored[i], now, ttl) { Remove(i); }
        i := i + 1;
      }
    }

    /** A listed entry with the least insertion time, if anything is listed. */
    method Oldest() returns (oldest: Option<nat>)
      ensures oldest.Some? ==> IsOldest(Model(), oldest.value)
      ensures oldest.None? ==> forall i :: 0 <= i < |stored| ==> !stored[i].listed
    {
      oldest := None;
      for i := 0 to |stored|
        invariant oldest.Some? ==> oldest.value < i && stored[oldest.value].listed
        invariant forall j :: 0 <= j < i && stored[j].listed ==>
                    oldest.Some? && stored[oldest.value].inserted <= stored[j].inserted
      {
        if stored[i].listed && (oldest.None? || stored[i].inserted < stored[oldest.value].inserted) {
          oldest := Some(i);
        }
      }
    }

    /** Evicts an oldest entry, unless nothing is listed. */
    method Evict() returns (evicted: bool, ghost victim: nat)
      requires Indexed(entries, stored)
      modifies this
      ensures evicted ==> IsOldest(old(Model()), victim) && Model() == Unlist(old(Model()), victim)
      ensures evicted ==> Indexed(entries, stored) && |entries| < |old(entries)|
      ensures !evicted ==> Model() == old(Model()) && entries == map[]
    {
      victim := 0;
      var oldest := Oldest();
      if oldest.None? {
        assert entries.Keys == {};
        return false, victim;
      }
      UnlistIndexed(entries, stored, oldest.value);
      Remove(oldest.value);
      return true, oldest.value;
    }

    /** Evicts oldest entries until a whole entry's permits can be taken, or nothing is left to evict. */
    method Acquire() returns (acquired: bool, ghost victims: seq<nat>)
      requires Indexed(entries, stored)
      modifies this
      ensures Honest(old(Model()), victims)
      ensures acquired <==> ENTRY_BYTES <= EvictAll(old(Model()), victims).available
      ensures Model() == Taken(EvictAll(old(Model()), victims), acquired)
    {
      victims := [];
      StartsHere(Model());
      while available < ENTRY_BYTES
        invariant Indexed(entries, stored)
        invariant Continues(old(Model()), victims, Model())
        decreases |entries|
      {
        ghost var before := Model();
        var evicted, victim := Evict();
        if !evicted {
          EndsHere(old(Model()), victims, Model());
          return false, victims;
        }
        OneMore(old(Model()), victims, before, victim);
        victims := victims + [victim];
      }
      EndsHere(old(Model()), victims, Model());
      available := available - ENTRY_BYTES;
      return true, victims;
    }

    // -------------------------------------------------------------- lookups and turns

    method LeaveWaiters(r: nat)
      requires r < |requests| && (requests[r].flight == Waiting ==> 0 < waiters)
      modifies this
      ensures Model() == Leave(old(Model()), r)
    {
      if requests[r].flight == Waiting {
        waiters := waiters - 1;
        requests := requests[r := requests[r].(flight := Unclaimed, parked := false)];
      }
    }

    /** Counts a request once, and moves it from the misses to the hits if a later look finds it. */
    method CountLook(r: nat, hit: bool)
      requires r < |requests| && (requests[r].outcome.Miss? ==> 0 < misses)
      modifies this
      ensures Model() == Count(old(Model()), r, hit)
    {
      var q := requests[r];
      if q.outcome.Uncounted? {
        if hit {
          hits := hits + 1;
          requests := requests[r := q.(outcome := Hit)];
        } else {
          misses := misses + 1;
          requests := requests[r := q.(outcome := Miss)];
        }
      } else if q.outcome.Miss? && hit {
        misses := misses - 1;
        hits := hits + 1;
        requests := requests[r := q.(outcome := Hit)];
      }
    }

    /** Looks the key up among the entries that are still fresh; a hit pins the entry for its replay. */
    method Lookup(r: nat, now: nat, ttl: nat) returns (hit: bool)
      requires r < |requests| && !CacheRuns.CounterUnderflows(Model(), r)
      modifies this
      ensures (Model(), hit) == LookIn(old(Model()), r, now, ttl)
    {
      Retain(now, ttl);
      PruneCounters(old(Model()), |old(stored)|, now, ttl);
      var key := requests[r].key;
      hit := key in entries && entries[key] < |stored|;
      CountLook(r, hit);
      if hit { Replay(r, entries[key]); }
    }

    /** Hands a stored entry out: the request stops waiting and the entry stays pinned. */
    method Replay(r: nat, i: nat)
      requires r < |requests| && i < |stored| && (requests[r].flight == Waiting ==> 0 < waiters)
      modifies this
      ensures Model() == Pin(Leave(old(Model()), r), i)
    {
      LeaveWaiters(r);
      stored := stored[i := stored[i].(pins := stored[i].pins + 1)];
    }

    /** One turn of the waiting loop; the answer is whether the request is done waiting. */
    method TakeTurn(r: nat, now: nat, ttl: nat) returns (hit: bool, parked: bool)
      requires r < |requests| && !requests[r].parked && !CacheRuns.CounterUnderflows(Model(), r)
      modifies this
      ensures Model() == Turn(old(Model()), r, now, ttl)
      ensures hit == LookIn(old(Model()), r, now, ttl).1
      ensures parked <==> requests[r].parked
    {
      LookCounters(Model(), r, now, ttl);
      hit := Lookup(r, now, ttl);
      if hit { return true, false; }
      var q := requests[r];
      if q.flight == Owner || q.flight == Bypass { return false, false; }
      if q.key !in flights {
        LeaveWaiters(r);
        if |flights| < MAX_ENTRIES {
          flights := flights + {q.key};
          requests := requests[r := requests[r].(flight := Owner)];
        } else {
          requests := requests[r := requests[r].(flight := Bypass)];
        }
        return false, false;
      }
      if q.flight != Waiting {
        waiters := waiters + 1;
        q := q.(flight := Waiting, waited := true);
      }
      requests := requests[r := q.(parked := true)];
      return false, true;
    }

    // -------------------------------------------------------------- captures

    method RecordNotStored(r: nat, q: Request, reason: Reason)
      requires r < |requests|
      modifies this
      ensures Model() == Record(old(Model()), r, q, reason)
    {
      fills := fills + [NotStored(r, reason)];
      requests := requests[r := q.(capturePending := false)];
    }

    /** Begins a capture, unless the response is refused or the budget is out. */
    method Capture(r: nat, refusal: Option<Reason>, headers: seq<Header>)
        returns (capturing: bool, ghost victims: seq<nat>)
      requires r < |requests| && Indexed(entries, stored)
      modifies this
      ensures refusal.None? && FoldHeaders(headers, 2) <= ENTRY_BYTES ==> Honest(old(Model()), victims)
      ensures Model() == Examine(old(Model()), r, refusal, headers, victims)
      ensures capturing <==> requests[r].phase.Capturing?
    {
      victims := [];
      var q := requests[r].(phase := Phase.Examined, examined := true);
      if refusal.Some? {
        RecordNotStored(r, q, refusal.value);
        return false, victims;
      }
      var total := SizeOf(headers);
      if ENTRY_BYTES < total {
        RecordNotStored(r, q, Size);
        return false, victims;
      }
      capturing, victims := Acquire();
      if !capturing {
        fills := fills + [OverBudget(r)];
        requests := requests[r := q];
        return false, victims;
      }
      requests := requests[r := q.(phase := Capturing([], ENTRY_BYTES - total, headers), capturePending := true)];
    }

    /** Copies a chunk, or gives the capture up as too large; never a part of a chunk. */
    method ObserveChunk(r: nat, bytes: seq<byte>) returns (kept: bool)
      requires r < |requests| && requests[r].phase.Capturing? && |requests[r].phase.body| <= requests[r].phase.limit
      modifies this
      ensures Model() == Observe(old(Model()), r, bytes)
      ensures kept ==> requests[r].phase.body == old(requests)[r].phase.body + bytes
      ensures !kept ==> requests[r].phase == old(requests)[r].phase && !requests[r].capturePending
    {
      var q := requests[r].(observed := requests[r].observed + bytes);
      if q.phase.limit - |q.phase.body| < |bytes| {
        if q.capturePending { RecordNotStored(r, q, Size); } else { requests := requests[r := q]; }
        return false;
      }
      requests := requests[r := q.(phase := q.phase.(body := q.phase.body + bytes))];
      return true;
    }

    method FreeFlight(r: nat)
      requires r < |requests| && (requests[r].flight == Waiting ==> 0 < waiters)
      modifies this
      ensures Model() == ReleaseFlight(old(Model()), r)
    {
      if requests[r].flight == Waiting {
        waiters := waiters - 1;
        requests := requests[r := requests[r].(flight := Unclaimed, parked := false)];
      } else if requests[r].flight == Owner {
        flights := flights - {requests[r].key};
        owed := owed + 1;
        requests := requests[r := requests[r].(flight := Unclaimed)];
      }
    }

    /** What dropping a request or its capture does. */
    method Discard(r: nat)
      requires r < |requests| && (requests[r].flight == Waiting ==> 0 < waiters)
      modifies this
      ensures Model() == Drop(old(Model()), r)
    {
      var capturing := requests[r].phase.Capturing?;
      if requests[r].capturePending { RecordNotStored(r, requests[r], IncompleteOrUnsafe); }
      FreeFlight(r);
      if capturing { available := available + ENTRY_BYTES; }
      requests := requests[r := requests[r].(phase := Phase.Dropped)];
    }

    /** Splits the capture's permit between the budget and the new entry. */
    method Split(r: nat) returns (retained: nat)
      requires r < |requests| && requests[r].phase.Capturing? && Retained(requests[r]) <= ENTRY_BYTES
      modifies this
      ensures Model() == SplitPermit(old(Model()), r)
      ensures retained == Retained(old(requests)[r])
    {
      var q := requests[r];
      var size := SizeOf(q.phase.headers);
      FoldIsStoredSize(q.phase.headers, 2);
      retained := |q.phase.body| + size;
      available := available + (ENTRY_BYTES - retained);
      fills := fills + [StoredBy(r)];
      requests := requests[r := q.(phase := Phase.Examined, capturePending := false)];
    }

    /** Puts a new entry in the map in place of any other under its key. */
    method Put(e: Stored)
      modifies this
      ensures Model() == Insert(old(Model()), e)
    {
      if e.key in entries && entries[e.key] < |stored| { Remove(entries[e.key]); }
      entries := entries[e.key := |stored|];
      stored := stored + [e];
    }

    /** Evicts an oldest entry if the map is full and `key` is not in it. */
    method MakeRoom(key: Key) returns (ghost victim: nat)
      requires Indexed(entries, stored)
      modifies this
      ensures Full(old(entries), key) ==> IsOldest(old(Model()), victim)
      ensures Model() == if Full(old(entries), key) then Unlist(old(Model()), victim) else old(Model())
    {
      victim := 0;
      if MAX_ENTRIES <= |entries| && key !in entries {
        var evicted;
        evicted, victim := Evict();
      }
    }

    /** Releases the flight of a request that owns one, and owes the waiters a notification. */
    method Land(r: nat)
      requires r < |requests|
      modifies this
      ensures Model() == if old(requests)[r].flight == Owner then ReleaseFlight(old(Model()), r)
                         else old(Model()).(owed := old(owed) + 1)
    {
      if requests[r].flight == Owner {
        flights := flights - {requests[r].key};
        requests := requests[r := requests[r].(flight := Unclaimed)];
      }
      owed := owed + 1;
    }

    /** Stores a complete capture, making room for it, and releases the flight. */
    method CommitCapture(r: nat, complete: bool, now: nat) returns (ghost victim: nat)
      requires Indexed(entries, stored) && r < |requests| && requests[r].phase.Capturing?
      requires Retained(requests[r]) <= ENTRY_BYTES
      requires requests[r].flight == Waiting ==> 0 < waiters
      modifies this
      ensures complete && old(requests)[r].capturePending && Full(old(entries), old(requests)[r].key) ==>
          IsOldest(old(Model()), victim)
      ensures complete && old(requests)[r].capturePending ==> Model() == Commit(old(Model()), r, true, now, victim)
      ensures !complete || !old(requests)[r].capturePending ==> Model() == Drop(old(Model()), r)
    {
      victim := 0;
      if !complete || !requests[r].capturePending {
        Discard(r);
        return;
      }
      var q := requests[r];
      var retained := Split(r);
      victim := MakeRoom(q.key);
      Put(Stored(q.key, q.phase.body, retained, now, true, 0, r));
      Land(r);
    }
  }

  predicate Full(entries: map<Key, nat>, key: Key) { MAX_ENTRIES <= |entries| && key !in entries }

  /** The size the capture limit allows for the headers. */
  method SizeOf(headers: seq<Header>) returns (total: nat)
    ensures total == FoldHeaders(headers, 2)
  {
    total := 2;
    for i := 0 to |headers|
      invariant FoldHeaders(headers[i..], total) == FoldHeaders(headers, 2)
    {
      assert headers[i..][1..] == headers[i + 1..];
      total := total + (|headers[i].name| + |headers[i].value| + 4);
    }
  }

  /** A whole entry's permits taken, or not. */
  function Taken(w: World, acquired: bool): World
    requires acquired ==> ENTRY_BYTES <= w.available
  {
    if acquired then w.(available := w.available - ENTRY_BYTES) else w
  }

  // ---------------------------------------------------------------- the eviction loop

  /** Any honest way to go on from `v` is an honest way to go on from `w` after `victims`. */
  ghost predicate Continues(w: World, victims: seq<nat>, v: World) {
    forall more :: Honest(v, more) ==> Honest(w, victims + more) && EvictAll(w, victims + more) == EvictAll(v, more)
  }

  lemma StartsHere(w: World)
    ensures Continues(w, [], w)
  {
    forall more | Honest(w, more) ensures Honest(w, [] + more) && EvictAll(w, [] + more) == EvictAll(w, more) {
      assert [] + more == more;
    }
  }

  lemma OneMore(w: World, victims: seq<nat>, v: World, i: nat)
    requires Continues(w, victims, v) && Indexed(v.entries, v.stored) && v.available < ENTRY_BYTES && IsOldest(v, i)
    ensures Continues(w, victims + [i], Unlist(v, i))
  {
    var u := Unlist(v, i);
    forall more | Honest(u, more)
      ensures Honest(w, victims + [i] + more) && EvictAll(w, victims + [i] + more) == EvictAll(u, more)
    {
      EvictFirst(v, i, more);
      assert victims + ([i] + more) == victims + [i] + more;
    }
  }

  lemma EvictFirst(v: World, i: nat, more: seq<nat>)
    requires Indexed(v.entries, v.stored) && v.available < ENTRY_BYTES && IsOldest(v, i) && Honest(Unlist(v, i), more)
    ensures Honest(v, [i] + more) && EvictAll(v, [i] + more) == EvictAll(Unlist(v, i), more)
  {
    assert v.stored[i].key in v.entries;
    assert ([i] + more)[1..] == more;
  }

  lemma EndsHere(w: World, victims: seq<nat>, v: World)
    requires Continues(w, victims, v) && (ENTRY_BYTES <= v.available || v.entries == map[])
    ensures Honest(w, victims) && EvictAll(w, victims) == v
  {
    assert Honest(v, []);
    assert victims + [] == victims;
  }

  // ---------------------------------------------------------------- counters across a look

  lemma {:induction false} PruneCounters(w: World, n: nat, now: nat, ttl: nat)
    requires n <= |w.stored|
    ensures var v := Prune(w, n, now, ttl);
      v.waiters == w.waiters && v.misses == w.misses && v.flights == w.flights && v.requests == w.requests
  {
    if n != 0 { PruneCounters(w, n - 1, now, ttl); }
  }

  /** A look that misses leaves the request's place among the waiters alone. */
  lemma LookCounters(w: World, r: nat, now: nat, ttl: nat)
    requires r < |w.requests|
    ensures var (l, hit) := LookIn(w, r, now, ttl);
      && |l.requests| == |w.requests|
      && (!hit ==> l.waiters == w.waiters && l.requests[r].flight == w.requests[r].flight)
      && (l.requests[r].parked ==> w.requests[r].parked)
  {
    PruneCounters(w, |w.stored|, now, ttl);
  }
}
