/** The circuit breaker's table and its attempts as objects that are updated in place. */
module CircuitObject {
  import opened Prelude
  import opened Circuit

  class Breaker {
    var entries: map<Key, Entry>

    constructor ()
      ensures entries == map[]
    {
      entries := map[];
    }

    /** The least recently touched scope that may be evicted, if any may. */
    method Oldest() returns (victim: Option<Key>)
      ensures victim.Some? ==> IsVictim(entries, victim.value)
      ensures victim.None? ==> forall k :: k in entries ==> !Evictable(entries, k)
    {
      victim := None;
      var left := entries.Keys;
      while left != {}
        invariant left <= entries.Keys
        invariant victim.Some? ==> Evictable(entries, victim.value)
        invariant forall k :: k in entries && k !in left && Evictable(entries, k) ==>
                    victim.Some? && entries[victim.value].touched <= entries[k].touched
        decreases left
      {
        var k :| k in left;
        left := left - {k};
        if Evictable(entries, k) && (victim.None? || entries[k].touched < entries[victim.value].touched) {
          victim := Some(k);
        }
      }
    }

    /** Taken immediately before the wire attempt; the victim, if one is needed, is an oldest one. */
    method Start(key: Key, now: nat) returns (started: Started, victim: Option<Key>)
      modifies this`entries
      ensures victim.Some? ==> IsVictim(old(entries), victim.value)
      ensures victim.None? && key !in old(entries) && MAX_SCOPES <= |old(entries)| ==>
                forall k :: k in old(entries) ==> !Evictable(old(entries), k)
      ensures (entries, started) == Circuit.Start(old(entries), key, now, victim)
    {
      victim := None;
      if key !in entries && MAX_SCOPES <= |entries| {
        victim := Oldest();
        if victim.None? { return Running(Attempt(key, 0, false, false)), None; }
        entries := entries - {victim.value};
      }
      ghost var room := entries;
      assert MakeRoom(old(entries), key, victim) == Some(room);
      if key !in entries { entries := entries[key := FreshEntry(now)]; }
      var e := entries[key];
      var blocked := BlockedFor(e, now);
      if blocked.Some? {
        assert room[key := e] == entries;
        return Refused(e.gate.HalfOpen?, blocked.value), victim;
      }
      if e.gate.Open? {
        e := e.(gate := HalfOpen, generation := e.generation + 1);
      }
      e := e.(inFlight := e.inFlight + 1, touched := now);
      entries := entries[key := e];
      assert entries == room[key := e];
      return Running(Attempt(key, e.generation, true, false)), victim;
    }
  }

  class AttemptHandle {
    const key: Key
    const generation: nat
    const tracked: bool
    var resolved: bool

    function Model(): Attempt
      reads this
    {
      Attempt(key, generation, tracked, resolved)
    }

    constructor (a: Attempt)
      ensures Model() == a
    {
      key, generation, tracked, resolved := a.key, a.generation, a.tracked, a.resolved;
    }

    /** Reports completion (`None`) or a failure with its delay, once; answers whether waiters must be woken. */
    method Resolve(breaker: Breaker, failure: Option<nat>, now: nat) returns (wake: bool)
      requires tracked ==> key in breaker.entries
      modifies this, breaker`entries
      ensures Model() == old(Model()).(resolved := old(resolved) || tracked)
      ensures tracked ==> breaker.entries == Circuit.Resolve(old(breaker.entries), old(Model()), failure, now)
      ensures !tracked ==> breaker.entries == old(breaker.entries)
      ensures wake <==> (tracked && !old(resolved) && old(breaker.entries)[key].generation == generation
                         && old(breaker.entries)[key].gate.HalfOpen?)
    {
      if resolved || !tracked { return false; }
      resolved := true;
      var e := breaker.entries[key];
      if e.generation != generation { return false; }
      wake := e.gate.HalfOpen?;
      e := e.(touched := now);
      if failure.Some? {
        if e.lastFailure.None? || FAILURE_GAP < Monus(now, e.lastFailure.value) {
          e := e.(failures := 0);
        }
        e := e.(failures := Min(e.failures + 1, U8_MAX), lastFailure := Some(now));
        if FAILURE_THRESHOLD <= e.failures || e.gate.HalfOpen? {
          e := e.(gate := Open(now, Max(failure.value, e.nextBackoff)),
                  nextBackoff := Min(e.nextBackoff * 2, MAX_BACKOFF),
                  generation := e.generation + 1);
        }
      } else {
        e := e.(failures := 0, lastFailure := None, nextBackoff := FIRST_BACKOFF, gate := Closed);
      }
      breaker.entries := breaker.entries[key := e];
    }

    /** What dropping the attempt does; answers whether waiters must be woken. */
    method Release(breaker: Breaker, now: nat) returns (wake: bool)
      requires tracked ==> key in breaker.entries && 0 < breaker.entries[key].inFlight
      modifies breaker`entries
      ensures tracked ==> breaker.entries == old(breaker.entries)[key := DropEntry(old(breaker.entries)[key], Model(),
          now)]
      ensures !tracked ==> breaker.entries == old(breaker.entries)
      ensures wake <==> (tracked && !resolved && old(breaker.entries)[key].generation == generation
                         && old(breaker.entries)[key].gate.HalfOpen?)
    {
      if !tracked { return false; }
      var e := breaker.entries[key];
      wake := !resolved && e.generation == generation && e.gate.HalfOpen?;
      e := e.(inFlight := e.inFlight - 1);
      if wake {
        e := e.(gate := Open(now, 0), generation := e.generation + 1);
      }
      breaker.entries := breaker.entries[key := e];
    }
  }
}
