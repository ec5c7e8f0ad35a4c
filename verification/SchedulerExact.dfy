/**
  The queue's answers, exactly: how often a waiting request was passed over, whom a drive leaves
  waiting and why, who is expired, how long the queue can get, and what its alarm stands for.
 */
module SchedulerExact {
  import opened Prelude
  import opened Quota
  import opened Scheduler
  import opened SchedulerFairness
  import SchedulerOrder
  import SchedulerWake
  import QuotaHistory

  // ---------------------------------------------------------------- bypasses

  /** In this selection the request headed root `r`, another root won, and it did not fit. */
  predicate PassedAt(s: Selection, sequence: nat, r: nat) {
    var q := s.before;
    && r < |q.roots| && r != s.root && q.roots[r] != [] && q.roots[r][0].sequence == sequence
    && !Fits(q, s.now, r)
  }

  ghost predicate Passes(s: Selection, sequence: nat) { exists r :: PassedAt(s, sequence, r) }

  ghost function PassOf(sequence: nat): Selection -> int { (s: Selection) => if Passes(s, sequence) then 1 else 0 }

  /** How often a request headed its root without fitting while another was admitted. */
  ghost function Passed(log: seq<Selection>, sequence: nat): int { SumBy(log, PassOf(sequence)) }

  ghost predicate Noted(log: seq<Selection>, w: Waiting) {
    0 <= Passed(log, w.sequence) && w.bypasses == Min(Passed(log, w.sequence), U8_MAX)
  }

  ghost predicate AllNoted(roots: seq<seq<Waiting>>, sequence: nat, log: seq<Selection>) {
    && (forall r, i :: 0 <= r < |roots| && 0 <= i < |roots[r]| ==> Noted(log, roots[r][i]))
    && (forall x :: sequence < x ==> Passed(log, x) == 0)
  }

  lemma PassSnoc(log: seq<Selection>, s: Selection, sequence: nat)
    ensures Passed(log + [s], sequence) == Passed(log, sequence) + if Passes(s, sequence) then 1 else 0
  {
    SumSnoc(log, s, PassOf(sequence));
  }

  /** A number heads at most one root. */
  lemma PassesOnlyAsHead(q: Queue, now: nat, root: nat, r: nat, i: nat)
    requires Ordered(q.roots, q.sequence) && r < |q.roots| && i < |q.roots[r]| && root < |q.roots|
    ensures Passes(Selection(q, now, root), q.roots[r][i].sequence) <==> i == 0 && r != root && !Fits(q, now, r)
  {
    var s, x := Selection(q, now, root), q.roots[r][i].sequence;
    if i == 0 && r != root && !Fits(q, now, r) { assert PassedAt(s, x, r); }
    forall t: nat | PassedAt(s, x, t) ensures t == r && i == 0 {
      assert t == r || Apart(q.roots[r], q.roots[t]);
      assert Tidy(q.roots[r], q.sequence);
    }
  }

  lemma PassedWasGiven(q: Queue, now: nat, root: nat, x: nat)
    requires Ordered(q.roots, q.sequence)
    ensures Passes(Selection(q, now, root), x) ==> x <= q.sequence
  {
    if Passes(Selection(q, now, root), x) {
      var r: nat :| PassedAt(Selection(q, now, root), x, r);
      assert Tidy(q.roots[r], q.sequence);
    }
  }

  lemma GrantNoted(q: Queue, now: nat, root: nat, log: seq<Selection>)
    requires Ordered(q.roots, q.sequence) && AllNoted(q.roots, q.sequence, log) && Fits(q, now, root)
    ensures AllNoted(Grant(q, now, root).roots, q.sequence, log + [Selection(q, now, root)])
  {
    var s := Selection(q, now, root);
    var g: seq<seq<Waiting>> := Grant(q, now, root).roots;
    forall r: nat, i: nat | r < |g| && i < |g[r]| ensures Noted(log + [s], g[r][i]) {
      GrantRoot(q, now, root, r);
      var j := if r == root then i + 1 else i;
      assert Noted(log, q.roots[r][j]);
      PassesOnlyAsHead(q, now, root, r, j);
      PassSnoc(log, s, q.roots[r][j].sequence);
      assert g[r][i].sequence == q.roots[r][j].sequence;
    }
    forall x | q.sequence < x ensures Passed(log + [s], x) == 0 {
      PassSnoc(log, s, x);
      PassedWasGiven(q, now, root, x);
    }
  }

  lemma ThinnedNoted(thin: seq<seq<Waiting>>, roots: seq<seq<Waiting>>, sequence: nat, log: seq<Selection>)
    requires AllNoted(roots, sequence, log) && ThinnedRoots(thin, roots)
    ensures AllNoted(thin, sequence, log)
  {
    forall r, i | 0 <= r < |thin| && 0 <= i < |thin[r]| ensures Noted(log, thin[r][i]) {
      assert thin[r][i] in roots[r];
      var j :| 0 <= j < |roots[r]| && roots[r][j] == thin[r][i];
    }
  }

  lemma JoinNoted(q: Queue, s: Step, log: seq<Selection>)
    requires s.Join? && AllNoted(q.roots, q.sequence, log)
    ensures var p := Enqueue(q, s.root, s.cost, s.enqueued, s.deadline).0; AllNoted(p.roots, p.sequence, log)
  {
    var p := Enqueue(q, s.root, s.cost, s.enqueued, s.deadline).0;
    forall r, i | 0 <= r < |p.roots| && 0 <= i < |p.roots[r]| ensures Noted(log, p.roots[r][i]) {
      if i < |q.roots[r]| { assert p.roots[r][i] == q.roots[r][i] && Noted(log, q.roots[r][i]); }
    }
  }

  ghost predicate RoundsNote(q: Queue, now: nat, log: seq<Selection>) {
    AllNoted(Rounds(q, now).0.roots, Rounds(q, now).0.sequence, log + Rounds(q, now).1)
  }

  lemma {:induction false} RoundsNoted(q: Queue, now: nat, log: seq<Selection>)
    requires Ordered(q.roots, q.sequence) && AllNoted(q.roots, q.sequence, log)
    ensures RoundsNote(q, now, log)
    decreases Len(q.roots)
  {
    var c := Ready(q, now);
    if q.cooldownUntil <= now && Select(c, now).Some? {
      var root := Select(c, now).value;
      var g, s := Grant(c, now, root), Selection(c, now, root);
      FirstNoted(q, now, c, root, log);
      RoundsNoted(g, now, log + [s]);
      RoundsOnce(q, now);
      NotesJoin(q, g, now, log, s);
    } else {
      RoundsOnce(q, now);
      assert log + [] == log;
    }
  }

  lemma FirstNoted(q: Queue, now: nat, c: Queue, root: nat, log: seq<Selection>)
    requires Ordered(q.roots, q.sequence) && AllNoted(q.roots, q.sequence, log)
    requires c.roots == q.roots && c.sequence == q.sequence && Fits(c, now, root)
    ensures var g := Grant(c, now, root);
      && Len(g.roots) < Len(q.roots) && Ordered(g.roots, g.sequence)
      && AllNoted(g.roots, g.sequence, log + [Selection(c, now, root)])
  {
    GrantShrinks(c, now, root);
    GrantOrdered(c, now, root);
    GrantNoted(c, now, root, log);
  }

  lemma NotesJoin(q: Queue, g: Queue, now: nat, log: seq<Selection>, s: Selection)
    requires Rounds(q, now) == (Rounds(g, now).0, [s] + Rounds(g, now).1) && RoundsNote(g, now, log + [s])
    ensures RoundsNote(q, now, log)
  {
    OneMore(log, s, Rounds(g, now).1);
  }

  lemma OneMore(log: seq<Selection>, s: Selection, rest: seq<Selection>)
    ensures log + ([s] + rest) == (log + [s]) + rest
  {}

  lemma StepNoted(w: World, s: Step)
    requires SchedulerFairness.Inv(w) && AllNoted(w.queue.roots, w.queue.sequence, w.log)
    ensures var v := Apply(w, s); AllNoted(v.queue.roots, v.queue.sequence, v.log)
  {
    var q := w.queue;
    assert Obeys(Order, q, w.log);
    match s
    case Join(_, _, _, _) => JoinNoted(q, s, w.log);
    case Leave(now, root, sequence) =>
      if root < |q.roots| {
        AbandonThins(q, now, root, sequence);
        AbandonProtects(q, now, root, sequence);
        ThinnedNoted(Abandon(q, now, root, sequence).roots, q.roots, q.sequence, w.log);
      }
    case Turn(now) =>
      var e := Expire(q, now);
      ExpireThins(q, now);
      ThinnedNoted(e.roots, q.roots, q.sequence, w.log);
      ThinnedOrdered(e.roots, q.roots, q.sequence);
      RoundsNoted(e, now, w.log);
      TurnIs(w, now);
    case Environment(_) =>
  }

  lemma {:induction false} RunNoted(w: World, steps: seq<Step>)
    requires Initial(w)
    ensures AllNoted(Run(w, steps).queue.roots, Run(w, steps).queue.sequence, Run(w, steps).log)
  {
    if steps != [] {
      RunNoted(w, steps[..|steps| - 1]);
      RunKeeps(w, steps[..|steps| - 1]);
      StepNoted(Run(w, steps[..|steps| - 1]), steps[|steps| - 1]);
    }
  }

  /**
    In every run, a waiting request's bypass count is the number of admissions of others while it
    headed its root without fitting, up to 255; turns that pass over a fitting head do not count.
   */
  lemma BypassesAreExact(w: World, steps: seq<Step>, r: nat, i: nat)
    requires Initial(w) && r < |Run(w, steps).queue.roots| && i < |Run(w, steps).queue.roots[r]|
    ensures var f := Run(w, steps); var x := f.queue.roots[r][i];
      0 <= Passed(f.log, x.sequence) && x.bypasses == Min(Passed(f.log, x.sequence), 255)
  {
    RunNoted(w, steps);
    assert Noted(Run(w, steps).log, Run(w, steps).queue.roots[r][i]);
  }

  // ---------------------------------------------------------------- whom a drive leaves waiting

  /** The ledger refuses the head, or the gate has its probe out and does not let this kind by. */
  predicate Held(q: Queue, now: nat, head: Waiting) {
    || Check(q.ledger, now, head.cost).1.Some?
    || (q.recovery.Some? && q.recovery.value.probe.Some? && !(q.recovery.value.generationOnly && head.cost.Metadata?))
  }

  lemma NotFittingIsHeld(q: Queue, now: nat, r: nat)
    requires r < |q.roots| && q.roots[r] != []
    ensures !Fits(q, now, r) <==> Held(q, now, q.roots[r][0])
  {}

  /**
    In every run, a drive during a cooldown admits nobody; after one, it leaves no head waiting -
    only the protected one, if a barrier stands - unless the ledger refuses it or a probe that the
    gate waits for is out.
   */
  lemma DriveLeavesOnlyTheHeld(w: World, steps: seq<Step>, now: nat, r: nat)
    requires Initial(w) && r < |Drive(Run(w, steps).queue, now).queue.roots|
    ensures var q := Run(w, steps).queue; var d := Drive(q, now).queue;
      && (now < q.cooldownUntil ==> Drive(q, now).log == [])
      && (q.cooldownUntil <= now && d.roots[r] != [] && (d.barrier.None? || d.barrier.value.root == r) ==>
            Held(d, now, d.roots[r][0]))
  {
    var q := Run(w, steps).queue;
    var d := Drive(q, now).queue;
    RoundsOnce(Expire(q, now), now);
    SchedulerWake.DriveEnds(q, now);
    DriveCools(Expire(q, now), now);
    SchedulerOrder.RunLogged(w, steps + [Turn(now)]);
    assert (steps + [Turn(now)])[..|steps|] == steps;
    if q.cooldownUntil <= now && d.roots[r] != [] {
      NotFittingIsHeld(d, now, r);
      if d.barrier.None? && Fits(d, now, r) { SchedulerOrder.FirstFitIsNearest(d, now, 0, r); }
    }
  }

  lemma {:induction false} DriveCools(q: Queue, now: nat)
    ensures Rounds(q, now).0.cooldownUntil == q.cooldownUntil
    decreases Len(q.roots)
  {
    RoundsOnce(q, now);
    var c := Ready(q, now);
    if q.cooldownUntil <= now && Select(c, now).Some? {
      GrantShrinks(c, now, Select(c, now).value);
      DriveCools(Grant(c, now, Select(c, now).value), now);
    }
  }

  // ---------------------------------------------------------------- joining

  /**
    A join is accepted if and only if the root exists, what it asks for is not above the token
    limit, fewer than 64 wait and a number is left; it then waits last in its root, unbypassed.  An
    unknown root is answered first, then a cost above the limit, then a full queue.
   */
  lemma JoinsAreExact(q: Queue, s: Step)
    requires s.Join?
    ensures var (p, joined) := Enqueue(q, s.root, s.cost, s.enqueued, s.deadline); var tpm := q.ledger.config.tpm;
      var over := tpm.Known? && tpm.capacity < QuotaHistory.Asked(s.cost);
      && (joined.Ticket? <==> s.root < |q.roots| && !over && Len(q.roots) < 64 && q.sequence != U64_MAX)
      && (joined.InvalidRoot? <==> |q.roots| <= s.root)
      && (joined.OverBudget? <==> s.root < |q.roots| && over)
      && (joined.Ticket? ==>
            && joined.sequence == q.sequence + 1 && p.sequence == q.sequence + 1
            && (var last := Waiting(s.cost, s.enqueued, s.deadline, q.sequence + 1, 0);
                p.roots == q.roots[s.root := q.roots[s.root] + [last]]))
      && (!joined.Ticket? ==> p == q)
  {}

  lemma {:induction false} RoundsShorten(q: Queue, now: nat)
    ensures Len(Rounds(q, now).0.roots) <= Len(q.roots)
    decreases Len(q.roots)
  {
    RoundsOnce(q, now);
    var c := Ready(q, now);
    if q.cooldownUntil <= now && Select(c, now).Some? {
      GrantShrinks(c, now, Select(c, now).value);
      RoundsShorten(Grant(c, now, Select(c, now).value), now);
    }
  }

  lemma {:induction false} LenAtMost(a: seq<seq<Waiting>>, b: seq<seq<Waiting>>)
    requires |a| == |b| && forall r :: 0 <= r < |a| ==> |a[r]| <= |b[r]|
    ensures Len(a) <= Len(b)
  {
    if a != [] { LenAtMost(a[..|a| - 1], b[..|b| - 1]); }
  }

  lemma {:induction false} WithoutShortens(s: seq<Waiting>, sequence: nat)
    ensures |Without(s, sequence)| <= |s|
  {
    if s != [] { WithoutShortens(s[1..], sequence); }
  }

  lemma StepStaysShort(w: World, s: Step)
    requires Len(w.queue.roots) <= 64
    ensures Len(Apply(w, s).queue.roots) <= 64
  {
    var q := w.queue;
    match s
    case Join(root, cost, enqueued, deadline) =>
      JoinsAreExact(q, s);
      if Enqueue(q, root, cost, enqueued, deadline).1.Ticket? {
        LenUpdate(q.roots, root, q.roots[root] + [Waiting(cost, enqueued, deadline, q.sequence + 1, 0)]);
      }
    case Leave(now, root, sequence) =>
      if root < |q.roots| {
        WithoutShortens(q.roots[root], sequence);
        LenAtMost(Abandon(q, now, root, sequence).roots, q.roots);
      }
    case Turn(now) =>
      LenAtMost(ExpireRoots(q.roots, now), q.roots);
      RoundsShorten(Expire(q, now), now);
      TurnIs(w, now);
    case Environment(_) =>
  }

  /** In every run, at most 64 requests wait. */
  lemma {:induction false} AtMostSixtyFourWait(w: World, steps: seq<Step>)
    requires Initial(w)
    ensures Len(Run(w, steps).queue.roots) <= 64
  {
    if steps == [] {
      LenZero(w.queue.roots);
    } else {
      AtMostSixtyFourWait(w, steps[..|steps| - 1]);
      StepStaysShort(Run(w, steps[..|steps| - 1]), steps[|steps| - 1]);
    }
  }

  // ---------------------------------------------------------------- the alarm

  /** Something is due at `t`: a deadline, a head's fifth second, the end of a cooldown or of a debit. */
  ghost predicate DueAt(q: Queue, now: nat, t: nat) {
    || (exists r, i :: 0 <= r < |q.roots| && 0 <= i < |q.roots[r]| && q.roots[r][i].deadline == t)
    || (exists r :: 0 <= r < |q.roots| && q.roots[r] != [] && q.roots[r][0].enqueued + 5 * SECOND == t)
    || (now < q.cooldownUntil && t == q.cooldownUntil)
    || (q.cooldownUntil <= now && LedgerDue(q.ledger, t))
  }

  predicate LedgerDue(l: State, t: nat) {
    if l.now < l.config.readyAt then t == l.config.readyAt
    else exists e :: e in l.entries && (e.rpmUntil == Some(t) || e.tpmUntil == Some(t))
  }

  lemma {:induction false} DeadlineIsSomeones(roots: seq<seq<Waiting>>)
    ensures NextDeadline(roots).Some? ==>
      exists r, i :: 0 <= r < |roots| && 0 <= i < |roots[r]| && roots[r][i].deadline == NextDeadline(roots).value
  {
    if NextDeadline(roots).Some? {
      var n := |roots| - 1;
      DeadlineIsSomeones(roots[..n]);
      SchedulerWake.DeadlineBounds(roots[n]);
      if NextDeadline(roots) == DeadlineOf(roots[n]) {
        var i :| 0 <= i < |roots[n]| && DeadlineOf(roots[n]) == Some(roots[n][i].deadline);
        assert roots[n][i].deadline == NextDeadline(roots).value;
      } else {
        var r, i :| 0 <= r < n && 0 <= i < |roots[..n][r]|
                 && roots[..n][r][i].deadline == NextDeadline(roots[..n]).value;
        assert roots[r][i].deadline == NextDeadline(roots).value;
      }
    }
  }

  lemma {:induction false} AgeIsSomeones(roots: seq<seq<Waiting>>, now: nat)
    ensures NextAge(roots, now).Some? ==>
      exists r :: 0 <= r < |roots| && roots[r] != [] && roots[r][0].enqueued + 5 * SECOND == NextAge(roots, now).value
  {
    if NextAge(roots, now).Some? {
      var n := |roots| - 1;
      AgeIsSomeones(roots[..n], now);
      if NextAge(roots, now) == AgeOf(roots[n], now) {
        assert roots[n] != [] && roots[n][0].enqueued + 5 * SECOND == NextAge(roots, now).value;
      } else {
        var r :| 0 <= r < n && roots[..n][r] != []
              && roots[..n][r][0].enqueued + 5 * SECOND == NextAge(roots[..n], now).value;
        assert roots[r] == roots[..n][r];
      }
    }
  }

  lemma LedgerIsDue(l: State)
    ensures NextWake(l).Some? ==> LedgerDue(l, NextWake(l).value)
  {
    NextExpiryIsEarliest(l.entries, l.now);
    if NextWake(l).Some? && l.config.readyAt <= l.now {
      var e :| e in l.entries && (e.rpmUntil == NextWake(l) || e.tpmUntil == NextWake(l));
    }
  }

  /**
    The alarm of every drive stands for something: at that time a waiting request's deadline passes,
    a head has waited five seconds, the cooldown ends, or the ledger's startup hold or a debit does.
   */
  lemma AlarmHasACause(q: Queue, now: nat)
    requires Drive(q, now).wake.Some?
    ensures DueAt(Drive(q, now).queue, now, Drive(q, now).wake.value)
  {
    WakeIsDue(Drive(q, now).queue, now);
  }

  lemma WakeIsDue(d: Queue, now: nat)
    ensures Wake(d, now).Some? ==> DueAt(d, now, Wake(d, now).value)
  {
    DeadlineIsSomeones(d.roots);
    AgeIsSomeones(d.roots, now);
    LedgerIsDue(d.ledger);
  }
}
