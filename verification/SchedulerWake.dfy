/**
  The time that a drive returns is a sound alarm: until then, driving again does nothing.
 */
module SchedulerWake {
  import opened Prelude
  import opened Quota
  import opened Scheduler

  /** A queue on which a drive at `now` has nothing left to do. */
  predicate Idle(q: Queue, now: nat) {
    && Protect(q, now) == q
    && (now < q.cooldownUntil ||
          (Inspect(q, now) == q && Select(q, now).None? && (Len(q.roots) != 0 ==> now <= q.ledger.now)))
  }

  lemma ProtectTwice(q: Queue, now: nat)
    ensures Protect(Protect(q, now), now) == Protect(q, now)
  {
    var p := Protect(q, now);
    if p != q && Triggered(q.roots, now) {
      var r :| 0 <= r < |q.roots| && q.roots[r] != [] && Urgent(q.roots[r][0], now);
      assert Oldest(q.roots).Some?;
    }
  }

  lemma InspectTwice(q: Queue, now: nat)
    ensures Inspect(Inspect(q, now), now) == Inspect(q, now)
    ensures Len(q.roots) != 0 ==> now <= Inspect(q, now).ledger.now
    ensures Protect(Inspect(q, now), now) == Inspect(Protect(q, now), now)
  {
    AdvanceTwice(q.ledger, now);
    LenZero(q.roots);
  }

  /** Every drive ends on an idle queue. */
  lemma {:induction false} RoundsEndIdle(q: Queue, now: nat)
    ensures Idle(Rounds(q, now).0, now)
    decreases Len(q.roots)
  {
    var p := Protect(q, now);
    ProtectTwice(q, now);
    if p.cooldownUntil <= now {
      var c := Inspect(p, now);
      InspectTwice(p, now);
      var root := Select(c, now);
      if root.Some? {
        GrantShrinks(c, now, root.value);
        RoundsEndIdle(Grant(c, now, root.value), now);
      }
    }
  }

  /** An expired waiter never survives the first pass, and nothing adds waiters later. */
  lemma UnexpiredKeeps(s: seq<Waiting>, now: nat)
    ensures (forall w :: w in s ==> now < w.deadline) ==> Unexpired(s, now) == s
  {}

  predicate Alive(roots: seq<seq<Waiting>>, now: nat) {
    forall r, i :: 0 <= r < |roots| && 0 <= i < |roots[r]| ==> now < roots[r][i].deadline
  }

  lemma {:induction false} AliveExpiresNothing(roots: seq<seq<Waiting>>, now: nat, cells: map<nat, Outcome>)
    requires Alive(roots, now)
    ensures ExpireRoots(roots, now) == roots && ExpireAllCells(roots, now, cells) == cells
  {
    forall i | 0 <= i < |roots| ensures Unexpired(roots[i], now) == roots[i] {
      UnexpiredKeeps(roots[i], now);
    }
    if roots != [] {
      var n := |roots| - 1;
      assert forall r :: 0 <= r < n ==> roots[..n][r] == roots[r];
      AliveExpiresNothing(roots[..n], now, cells);
      AliveKeepsCells(roots[n], now, ExpireAllCells(roots[..n], now, cells));
    }
  }

  lemma {:induction false} AliveKeepsCells(s: seq<Waiting>, now: nat, cells: map<nat, Outcome>)
    requires forall i :: 0 <= i < |s| ==> now < s[i].deadline
    ensures ExpireCells(s, now, cells) == cells
  {
    if s != [] {
      AliveKeepsCells(s[..|s| - 1], now, cells);
    }
  }

  lemma ExpireLeavesAlive(q: Queue, now: nat)
    ensures Alive(Expire(q, now).roots, now)
  {
    var roots: seq<seq<Waiting>> := Expire(q, now).roots;
    forall r, i | 0 <= r < |roots| && 0 <= i < |roots[r]| ensures now < roots[r][i].deadline {
      assert roots[r][i] in Unexpired(q.roots[r], now);
    }
  }

  lemma GrantKeepsAlive(q: Queue, now: nat, root: nat)
    requires Fits(q, now, root) && Alive(q.roots, now)
    ensures Alive(Grant(q, now, root).roots, now)
  {
    var roots := BypassRoots(q, now, root);
    var end: seq<seq<Waiting>> := Grant(q, now, root).roots;
    forall r, i | 0 <= r < |end| && 0 <= i < |end[r]| ensures now < end[r][i].deadline {
      assert end[r][i].deadline == q.roots[r][if r == root then i + 1 else i].deadline;
    }
  }

  lemma {:induction false} RoundsKeepAlive(q: Queue, now: nat)
    requires Alive(q.roots, now)
    ensures Alive(Rounds(q, now).0.roots, now)
    decreases Len(q.roots)
  {
    var c := Inspect(Protect(q, now), now);
    if q.cooldownUntil <= now && Select(c, now).Some? {
      GrantShrinks(c, now, Select(c, now).value);
      GrantKeepsAlive(c, now, Select(c, now).value);
      RoundsKeepAlive(Grant(c, now, Select(c, now).value), now);
    }
  }

  // ---------------------------------------------------------------- what the alarm bounds

  lemma {:induction false} DeadlineBounds(s: seq<Waiting>)
    ensures DeadlineOf(s).None? <==> s == []
    ensures forall i :: 0 <= i < |s| ==> DeadlineOf(s).Some? && DeadlineOf(s).value <= s[i].deadline
    ensures s != [] ==> exists i :: 0 <= i < |s| && DeadlineOf(s) == Some(s[i].deadline)
  {
    if s != [] {
      var n := |s| - 1;
      DeadlineBounds(s[..n]);
      if DeadlineOf(s) != Some(s[n].deadline) {
        var i :| 0 <= i < n && DeadlineOf(s[..n]) == Some(s[..n][i].deadline);
        assert DeadlineOf(s) == Some(s[i].deadline);
      }
    }
  }

  lemma {:induction false} NextDeadlineBounds(roots: seq<seq<Waiting>>, now: nat)
    requires Alive(roots, now)
    ensures NextDeadline(roots).None? <==> Len(roots) == 0
    ensures NextDeadline(roots).Some? ==> now < NextDeadline(roots).value
    ensures forall t: nat :: (NextDeadline(roots).Some? ==> t < NextDeadline(roots).value) ==> Alive(roots, t)
  {
    if roots != [] {
      var n := |roots| - 1;
      assert forall r :: 0 <= r < n ==> roots[..n][r] == roots[r];
      NextDeadlineBounds(roots[..n], now);
      DeadlineBounds(roots[n]);
      if roots[n] != [] {
        var i :| 0 <= i < |roots[n]| && DeadlineOf(roots[n]) == Some(roots[n][i].deadline);
      }
      forall t: nat | NextDeadline(roots).Some? ==> t < NextDeadline(roots).value ensures Alive(roots, t) {
        assert Alive(roots[..n], t);
      }
    }
  }

  lemma {:induction false} NextAgeBounds(roots: seq<seq<Waiting>>, now: nat)
    ensures NextAge(roots, now).Some? ==> now < NextAge(roots, now).value
    ensures forall r :: 0 <= r < |roots| && AgeOf(roots[r], now).Some? ==>
              NextAge(roots, now).Some? && NextAge(roots, now).value <= AgeOf(roots[r], now).value
  {
    if roots != [] {
      var n := |roots| - 1;
      NextAgeBounds(roots[..n], now);
      assert forall r :: 0 <= r < n ==> roots[..n][r] == roots[r];
    }
  }

  /** Before the next age threshold no head becomes urgent by waiting. */
  lemma NotTriggeredBefore(roots: seq<seq<Waiting>>, now: nat, t: nat)
    requires !Triggered(roots, now)
    requires NextAge(roots, now).Some? ==> t < NextAge(roots, now).value
    ensures !Triggered(roots, t)
  {
    NextAgeBounds(roots, now);
    forall r | 0 <= r < |roots| && roots[r] != [] ensures !Urgent(roots[r][0], t) {
      assert !Urgent(roots[r][0], now);
      assert AgeOf(roots[r], now) == Some(roots[r][0].enqueued + MAX_AGE);
    }
  }

  lemma ProtectStays(q: Queue, now: nat, t: nat)
    requires Protect(q, now) == q
    requires NextAge(q.roots, now).Some? ==> t < NextAge(q.roots, now).value
    ensures Protect(q, t) == q
  {
    if !Standing(q) && !Triggered(q.roots, now) {
      NotTriggeredBefore(q.roots, now, t);
    }
  }

  /** Between two expiries the ledger keeps its entries and its totals. */
  lemma EntriesStay(l: State, t: nat)
    requires Retain(l.entries, l.now) == l.entries && l.config.readyAt <= l.now
    requires NextExpiry(l.entries, l.now).Some? ==> t < NextExpiry(l.entries, l.now).value
    ensures var later := Max(l.now, t);
      && Advance(l, t) == l.(now := later)
      && Total(l.entries, RpmLive(later)) == Total(l.entries, RpmLive(l.now))
      && Total(l.entries, TpmLive(later)) == Total(l.entries, TpmLive(l.now))
  {
    var later := Max(l.now, t);
    NextExpiryIsEarliest(l.entries, l.now);
    forall e | e in l.entries ensures Retained(e, later) {
      assert e in Retain(l.entries, l.now);
    }
    RetainAll(l.entries, later);
    SumAgree(l.entries, Weight(RpmLive(later)), Weight(RpmLive(l.now)));
    SumAgree(l.entries, Weight(TpmLive(later)), Weight(TpmLive(l.now)));
  }

  /** So it gives every request the same answer until its next wake. */
  lemma VerdictStays(l: State, t: nat, cost: Cost)
    requires Retain(l.entries, l.now) == l.entries
    requires NextWake(l).Some? ==> t < NextWake(l).value
    ensures Verdict(Advance(l, t), cost) == Verdict(l, cost)
  {
    if l.config.readyAt <= l.now {
      EntriesStay(l, t);
    }
  }

  lemma FitsStays(q: Queue, now: nat, t: nat, r: nat)
    requires Inspect(q, now) == q && Len(q.roots) != 0
    requires NextWake(q.ledger).Some? ==> t < NextWake(q.ledger).value
    requires now <= q.ledger.now
    ensures Fits(q, t, r) == Fits(q, now, r)
  {
    LenZero(q.roots);
    var some :| 0 <= some < |q.roots| && q.roots[some] != [];
    assert Advance(q.ledger, now) == q.ledger;
    if r < |q.roots| && q.roots[r] != [] {
      VerdictStays(q.ledger, t, q.roots[r][0].cost);
    }
  }

  /** The same roots fit one queue at one time as another at another time. */
  ghost predicate SameFits(q: Queue, c: Queue, now: nat, t: nat) { forall r :: Fits(c, t, r) == Fits(q, now, r) }

  lemma {:induction false} FirstFitStays(q: Queue, c: Queue, now: nat, t: nat, offset: nat)
    requires offset <= |q.roots| && c.roots == q.roots && c.cursor == q.cursor
    requires SameFits(q, c, now, t)
    ensures FirstFit(c, t, offset) == FirstFit(q, now, offset)
    decreases |q.roots| - offset
  {
    if offset < |q.roots| {
      FirstFitStays(q, c, now, t, offset + 1);
      FitStays(q, c, now, t, offset, (q.cursor + offset) % |q.roots|);
    }
  }

  lemma FitStays(q: Queue, c: Queue, now: nat, t: nat, offset: nat, r: nat)
    requires offset < |q.roots| && |c.roots| == |q.roots| && c.cursor == q.cursor
    requires r == (q.cursor + offset) % |q.roots| && SameFits(q, c, now, t)
    requires FirstFit(c, t, offset + 1) == FirstFit(q, now, offset + 1)
    ensures FirstFit(c, t, offset) == FirstFit(q, now, offset)
  {
    FirstFitOnce(q, now, offset, r);
    FirstFitOnce(c, t, offset, r);
  }

  lemma FirstFitOnce(q: Queue, now: nat, offset: nat, r: nat)
    requires offset < |q.roots| && r == (q.cursor + offset) % |q.roots|
    ensures FirstFit(q, now, offset) == if Fits(q, now, r) then Some(r) else FirstFit(q, now, offset + 1)
  {}

  lemma InspectedFits(q: Queue, t: nat, r: nat)
    ensures Fits(Inspect(q, t), t, r) == Fits(q, t, r)
  {
    AdvanceTwice(q.ledger, t);
  }

  /** The parts of the queue that a caller or another waiter can notice. */
  predicate SameButClock(a: Queue, b: Queue) { a == b.(ledger := a.ledger) }

  lemma IdleStays(q: Queue, now: nat, t: nat)
    requires Idle(q, now) && Len(q.roots) != 0
    requires NextAge(q.roots, now).Some? ==> t < NextAge(q.roots, now).value
    requires now < q.cooldownUntil ==> t < q.cooldownUntil
    requires q.cooldownUntil <= now && NextWake(q.ledger).Some? ==> t < NextWake(q.ledger).value
    ensures Rounds(q, t).1 == [] && SameButClock(Rounds(q, t).0, q)
  {
    ProtectStays(q, now, t);
    if q.cooldownUntil <= t {
      var c := Inspect(q, t);
      forall r ensures Fits(c, t, r) == Fits(q, now, r) {
        InspectedFits(q, t, r);
        FitsStays(q, now, t, r);
      }
      FirstFitStays(q, c, now, t, 0);
      assert Select(c, t) == Select(q, now);
    }
  }

  lemma DriveEnds(q: Queue, now: nat)
    ensures var d := Drive(q, now).queue; Idle(d, now) && Alive(d.roots, now)
  {
    ExpireLeavesAlive(q, now);
    RoundsKeepAlive(Expire(q, now), now);
    RoundsEndIdle(Expire(q, now), now);
  }

  lemma WakeBounds(q: Queue, now: nat)
    requires Alive(q.roots, now)
    ensures Wake(q, now).None? <==> Len(q.roots) == 0
    ensures forall t: nat :: Wake(q, now).Some? && t < Wake(q, now).value ==>
      && Alive(q.roots, t)
      && (NextAge(q.roots, now).Some? ==> t < NextAge(q.roots, now).value)
      && (now < q.cooldownUntil ==> t < q.cooldownUntil)
      && (q.cooldownUntil <= now && NextWake(q.ledger).Some? ==> t < NextWake(q.ledger).value)
  {
    NextDeadlineBounds(q.roots, now);
  }

  /** Idle queues stay idle until their alarm. */
  lemma IdleUntilWake(q: Queue, now: nat, t: nat)
    requires Idle(q, now) && Alive(q.roots, now)
    requires Wake(q, now).Some? ==> t < Wake(q, now).value
    ensures Drive(q, t).log == [] && SameButClock(Drive(q, t).queue, q)
  {
    WakeBounds(q, now);
    if Len(q.roots) == 0 {
      LenZero(q.roots);
      AliveExpiresNothing(q.roots, t, q.cells);
      assert Expire(q, t) == q;
      EmptyStays(q, now, t);
    } else {
      AliveExpiresNothing(q.roots, t, q.cells);
      assert Expire(q, t) == q;
      IdleStays(q, now, t);
    }
  }

  // ---------------------------------------------------------------- the theorems

  /** The alarm lies strictly in the future, and there is none exactly when nobody waits. */
  lemma WakeIsLater(q: Queue, now: nat)
    ensures var d := Drive(q, now);
      && (d.wake.None? <==> Len(d.queue.roots) == 0)
      && (d.wake.Some? ==> now < d.wake.value)
  {
    DriveEnds(q, now);
    IdleWakesLater(Drive(q, now).queue, now);
  }

  lemma IdleWakesLater(d: Queue, now: nat)
    requires Idle(d, now) && Alive(d.roots, now)
    ensures (Wake(d, now).None? <==> Len(d.roots) == 0) && (Wake(d, now).Some? ==> now < Wake(d, now).value)
  {
    NextDeadlineBounds(d.roots, now);
    NextAgeBounds(d.roots, now);
    NextExpiryIsEarliest(d.ledger.entries, d.ledger.now);
  }

  /**
    Wake soundness: from the queue a drive leaves behind, driving again at any time before
    the alarm admits nobody, expires nobody and changes neither barrier nor bypass counts.
   */
  lemma WakeIsSound(q: Queue, now: nat, t: nat)
    requires var wake := Drive(q, now).wake; wake.Some? ==> t < wake.value
    ensures var d := Drive(q, now).queue;
      && Drive(d, t).log == []
      && SameButClock(Drive(d, t).queue, d)
  {
    DriveEnds(q, now);
    IdleUntilWake(Drive(q, now).queue, now, t);
  }

  lemma EmptyStays(q: Queue, now: nat, t: nat)
    requires Len(q.roots) == 0 && Protect(q, now) == q
    ensures Rounds(q, t) == (q, [])
  {
    LenZero(q.roots);
    assert q.barrier.None?;
    forall r ensures !Fits(q, t, r) {}
    NoFit(q, t, 0);
  }

  lemma {:induction false} NoFit(q: Queue, t: nat, offset: nat)
    requires offset <= |q.roots| && forall r :: !Fits(q, t, r)
    ensures FirstFit(q, t, offset).None?
    decreases |q.roots| - offset
  {
    if offset < |q.roots| { NoFit(q, t, offset + 1); }
  }
}
