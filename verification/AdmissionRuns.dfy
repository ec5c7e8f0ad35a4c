/**
  Every run of the admission protocol is a run of its ledger and a run of its queue, so what is
  proved of those holds of the protocol.
 */
module AdmissionRuns {
  import opened Prelude
  import opened Quota
  import opened Scheduler
  import opened LedgerStages
  import opened Admission
  import Ownership
  import QuotaHistory
  import SchedulerFairness

  // ---------------------------------------------------------------- the ledger's view

  /** The ledger operations of a drive's rounds. */
  function RoundOps(q: Queue, now: nat): seq<QuotaHistory.Op>
    decreases Len(q.roots)
  {
    var p := Protect(q, now);
    if now < p.cooldownUntil then []
    else
      var c := Inspect(p, now);
      var look := if c == p then [] else [QuotaHistory.Look(now)];
      var root := Select(c, now);
      if root.None? then look
      else
        GrantShrinks(c, now, root.value);
        look + [QuotaHistory.Reserve(now, c.roots[root.value][0].cost)] + RoundOps(Grant(c, now, root.value), now)
  }

  /** The ledger operations of one step under the lock. */
  function StepOps(w: World, s: Step): seq<QuotaHistory.Op> {
    match s
    case Join(now, _, _, _, _) => RoundOps(Expire(w.queue, now), now)
    case Poll(now, t) => if t in w.tickets then RoundOps(Expire(w.queue, now), now) else []
    case DropTicket(now, t) =>
      if t in w.tickets && w.tickets[t].root < |w.queue.roots| && t in w.queue.cells && w.queue.cells[t].Granted?
      then [QuotaHistory.Withdraw(now, w.queue.cells[t].id)] else []
    case StartHold(now, id) =>
      if id in w.holds && !w.holds[id].started && CanStart(w.queue, now, id, w.holds[id].cost)
      then [QuotaHistory.Launch(now, id)] else []
    case DropHold(now, id, usage) =>
      if id !in w.holds then []
      else if w.holds[id].started then [QuotaHistory.Complete(now, id, usage)]
      else [QuotaHistory.Withdraw(now, id)]
    case Look(now) => [QuotaHistory.Look(now)]
    case Headers(_, _, _, _, _) => []
    case Rejected(_, _, _, _, _, _) => []
    case Cooldown(_, _) => []
  }

  lemma {:induction false} LedgerConcat(l: State, a: seq<QuotaHistory.Op>, b: seq<QuotaHistory.Op>)
    ensures QuotaHistory.LedgerRun(l, a + b) == QuotaHistory.LedgerRun(QuotaHistory.LedgerRun(l, a), b)
    decreases |b|
  {
    if b == [] {
      assert a + b == a;
    } else {
      var init, op := b[..|b| - 1], b[|b| - 1];
      assert a + b == (a + init) + [op];
      LedgerConcat(l, a, init);
      QuotaHistory.LedgerSnoc(l, a + init, op);
    }
  }

  lemma OneOp(l: State, op: QuotaHistory.Op)
    ensures QuotaHistory.LedgerRun(l, [op]) == QuotaHistory.LedgerStep(l, op)
  {
    QuotaHistory.LedgerSnoc(l, [], op);
    assert [] + [op] == [op];
  }

  /** What considering the heads asks of the ledger. */
  function LookOps(q: Queue, now: nat): seq<QuotaHistory.Op> {
    if SchedulerFairness.Ready(q, now) == Protect(q, now) then [] else [QuotaHistory.Look(now)]
  }

  lemma LookLedger(q: Queue, now: nat)
    ensures QuotaHistory.LedgerRun(q.ledger, LookOps(q, now)) == SchedulerFairness.Ready(q, now).ledger
  {
    OneOp(q.ledger, QuotaHistory.Look(now));
  }

  lemma GrantLedger(c: Queue, now: nat, root: nat)
    requires Fits(c, now, root)
    ensures QuotaHistory.LedgerRun(c.ledger, [QuotaHistory.Reserve(now, c.roots[root][0].cost)])
        == Grant(c, now, root).ledger
  {
    OneOp(c.ledger, QuotaHistory.Reserve(now, c.roots[root][0].cost));
  }

  lemma RoundOpsOnce(q: Queue, now: nat)
    ensures var c := SchedulerFairness.Ready(q, now); var root := Select(c, now);
      RoundOps(q, now) ==
        if now < q.cooldownUntil then []
        else if root.None? then LookOps(q, now)
        else (LookOps(q, now) + [QuotaHistory.Reserve(now, c.roots[root.value][0].cost)]
              + RoundOps(Grant(c, now, root.value), now))
  {}

  lemma {:induction false} RoundsLedger(q: Queue, now: nat)
    ensures QuotaHistory.LedgerRun(q.ledger, RoundOps(q, now)) == Rounds(q, now).0.ledger
    decreases Len(q.roots)
  {
    RoundOpsOnce(q, now);
    SchedulerFairness.RoundsOnce(q, now);
    LookLedger(q, now);
    var c := SchedulerFairness.Ready(q, now);
    if q.cooldownUntil <= now && Select(c, now).Some? {
      var root := Select(c, now).value;
      var reserve, g := [QuotaHistory.Reserve(now, c.roots[root][0].cost)], Grant(c, now, root);
      GrantShrinks(c, now, root);
      RoundsLedger(g, now);
      GrantLedger(c, now, root);
      LedgerConcat(q.ledger, LookOps(q, now), reserve);
      LedgerConcat(q.ledger, LookOps(q, now) + reserve, RoundOps(g, now));
    }
  }

  lemma DriveLedger(q: Queue, now: nat)
    ensures QuotaHistory.LedgerRun(q.ledger, RoundOps(Expire(q, now), now)) == Drive(q, now).queue.ledger
  {
    RoundsLedger(Expire(q, now), now);
  }

  lemma AbandonLedger(q: Queue, now: nat, root: nat, t: nat)
    requires root < |q.roots|
    ensures Abandon(q, now, root, t).ledger ==
      if t in q.cells && q.cells[t].Granted? then Cancel(q.ledger, now, q.cells[t].id).0 else q.ledger
  {}

  /** Every step of the protocol is a sequence of ledger operations. */
  lemma StepIsLedgerRun(w: World, s: Step)
    requires w.queue.stage < |STAGES|
    ensures QuotaHistory.LedgerRun(w.queue.ledger, StepOps(w, s)) == Apply(w, s).queue.ledger
  {
    if s.Join? || s.Poll? || s.DropTicket? {
      TicketStepIsLedgerRun(w, s);
    } else if s.StartHold? || s.DropHold? || s.Look? {
      HoldStepIsLedgerRun(w, s);
    }
  }

  lemma TicketStepIsLedgerRun(w: World, s: Step)
    requires w.queue.stage < |STAGES| && (s.Join? || s.Poll? || s.DropTicket?)
    ensures QuotaHistory.LedgerRun(w.queue.ledger, StepOps(w, s)) == Apply(w, s).queue.ledger
  {
    var q := w.queue;
    match s
    case Join(now, _, _, _, _) => DriveLedger(q, now);
    case Poll(now, t) => DriveLedger(q, now);
    case DropTicket(now, t) =>
      if t in w.tickets && w.tickets[t].root < |q.roots| {
        AbandonLedger(q, now, w.tickets[t].root, t);
        if t in q.cells && q.cells[t].Granted? { OneOp(q.ledger, QuotaHistory.Withdraw(now, q.cells[t].id)); }
      }
  }

  lemma HoldStepIsLedgerRun(w: World, s: Step)
    requires w.queue.stage < |STAGES| && (s.StartHold? || s.DropHold? || s.Look?)
    ensures QuotaHistory.LedgerRun(w.queue.ledger, StepOps(w, s)) == Apply(w, s).queue.ledger
  {
    var l := w.queue.ledger;
    match s
    case StartHold(now, id) => OneOp(l, QuotaHistory.Launch(now, id));
    case DropHold(now, id, usage) =>
      OneOp(l, QuotaHistory.Complete(now, id, usage));
      OneOp(l, QuotaHistory.Withdraw(now, id));
    case Look(now) => OneOp(l, QuotaHistory.Look(now));
  }

  ghost function AllOps(w: World, steps: seq<Step>): seq<QuotaHistory.Op>
    requires Ownership.Initial(w)
  {
    if steps == [] then []
    else
      var rest := steps[..|steps| - 1];
      AllOps(w, rest) + StepOps(Ownership.Run(w, rest), steps[|steps| - 1])
  }

  lemma {:induction false} RunIsLedgerRun(w: World, steps: seq<Step>)
    requires Ownership.Initial(w)
    ensures QuotaHistory.LedgerRun(w.queue.ledger, AllOps(w, steps)) == Ownership.Run(w, steps).queue.ledger
  {
    if steps != [] {
      var rest, s := steps[..|steps| - 1], steps[|steps| - 1];
      var v := Ownership.Run(w, rest);
      RunIsLedgerRun(w, rest);
      StepIsLedgerRun(v, s);
      LedgerConcat(w.queue.ledger, AllOps(w, rest), StepOps(v, s));
    }
  }

  /** The reservation history of a run of the protocol. */
  ghost function History(w: World, steps: seq<Step>): QuotaHistory.World
    requires Ownership.Initial(w)
  {
    QuotaHistory.Run(QuotaHistory.World(w.queue.ledger, []), AllOps(w, steps))
  }

  lemma HistoryLedger(w: World, steps: seq<Step>)
    requires Ownership.Initial(w) && w.queue.ledger.next == 0
    ensures QuotaHistory.Initial(QuotaHistory.World(w.queue.ledger, []))
    ensures History(w, steps).ledger == Ownership.Run(w, steps).queue.ledger
  {
    RunIsLedgerRun(w, steps);
    QuotaHistory.RunLedger(QuotaHistory.World(w.queue.ledger, []), AllOps(w, steps));
  }

  /**
    In every run of the protocol, each live hold is a running record of the history, and it has
    started exactly when its record says so.
   */
  lemma HoldsAreRecorded(w: World, steps: seq<Step>, id: nat)
    requires Ownership.Initial(w) && w.queue.ledger.next == 0 && id in Ownership.Run(w, steps).holds
    ensures var h := History(w, steps).history; var hold := Ownership.Run(w, steps).holds[id];
      1 <= id <= |h| && h[id - 1].end.Running? && (h[id - 1].startedAt.Some? <==> hold.started)
  {
    var f, g := Ownership.Run(w, steps), History(w, steps);
    HistoryLedger(w, steps);
    QuotaHistory.RunKeeps(QuotaHistory.World(w.queue.ledger, []), AllOps(w, steps));
    assert QuotaHistory.Holds(QuotaHistory.Mirroring, g);
    assert Upheld(Owning, f);
    StagedIsRecorded(g, id);
  }

  lemma StagedIsRecorded(g: QuotaHistory.World, id: nat)
    requires QuotaHistory.Mirrors(g) && StageOf(g.ledger.entries, id).Some?
    ensures 1 <= id <= |g.history| && g.history[id - 1].end.Running?
    ensures g.history[id - 1].startedAt.Some? <==> StageOf(g.ledger.entries, id).value.started
  {
    var i := StageSource(g.ledger.entries, id);
    QuotaHistory.OwnedRecord(g, i);
  }

  /** In every run of the protocol, every window of sixty seconds holds at most `rpm` starts. */
  lemma RequestsPerMinute(w: World, steps: seq<Step>, T: int)
    requires Ownership.Initial(w) && w.queue.ledger.next == 0 && w.queue.ledger.config.rpm.Known?
    ensures QuotaHistory.StartsUpTo(History(w, steps).history, T) <= w.queue.ledger.config.rpm.capacity
  {
    HistoryLedger(w, steps);
    QuotaHistory.RpmWindow(QuotaHistory.World(w.queue.ledger, []), AllOps(w, steps), T);
  }

  /** In every run of the protocol, live and held tokens exceed the limit only by recorded overshoot. */
  lemma TokensPerMinute(w: World, steps: seq<Step>)
    requires Ownership.Initial(w) && w.queue.ledger.next == 0 && w.queue.ledger.config.tpm.Known?
    ensures var l := Ownership.Run(w, steps).queue.ledger;
      Total(l.entries, TpmLive(l.now)) + Total(l.entries, TpmHeld)
        <= w.queue.ledger.config.tpm.capacity + QuotaHistory.Overshoot(l.config, History(w, steps).history, l.now)
  {
    HistoryLedger(w, steps);
    QuotaHistory.TpmBound(QuotaHistory.World(w.queue.ledger, []), AllOps(w, steps));
  }

  // ---------------------------------------------------------------- the queue's view

  /** The queue steps of one step under the lock. */
  function TurnsOf(w: World, s: Step): seq<SchedulerFairness.Step>
    requires w.queue.stage < |STAGES|
  {
    match s
    case Join(now, root, cost, enqueued, deadline) =>
      [SchedulerFairness.Turn(now), SchedulerFairness.Join(root, cost, enqueued, deadline)]
    case Poll(now, t) =>
      if t in w.tickets then [SchedulerFairness.Turn(now), SchedulerFairness.Environment(Apply(w, s).queue)] else []
    case DropTicket(now, t) =>
      if t in w.tickets && w.tickets[t].root < |w.queue.roots|
      then [SchedulerFairness.Leave(now, w.tickets[t].root, t)] else []
    case _ => [SchedulerFairness.Environment(Apply(w, s).queue)]
  }

  lemma RunOne(v: SchedulerFairness.World, a: SchedulerFairness.Step)
    ensures SchedulerFairness.Run(v, [a]) == SchedulerFairness.Apply(v, a)
  {
    assert [a][..0] == [];
  }

  lemma RunTwo(v: SchedulerFairness.World, a: SchedulerFairness.Step, b: SchedulerFairness.Step)
    ensures SchedulerFairness.Run(v, [a, b]) == SchedulerFairness.Apply(SchedulerFairness.Apply(v, a), b)
  {
    assert [a, b][..1] == [a];
    RunOne(v, a);
  }

  lemma {:induction false} RunConcat(v: SchedulerFairness.World, a: seq<SchedulerFairness.Step>,
      b: seq<SchedulerFairness.Step>)
    ensures SchedulerFairness.Run(v, a + b) == SchedulerFairness.Run(SchedulerFairness.Run(v, a), b)
    decreases |b|
  {
    if b == [] {
      assert a + b == a;
    } else {
      assert (a + b)[..|a + b| - 1] == a + b[..|b| - 1];
      RunConcat(v, a, b[..|b| - 1]);
    }
  }

  /** Steps on holds, the cooldown and the clock leave the lines alone. */
  lemma HoldStepsKeepSchedule(w: World, s: Step)
    requires w.queue.stage < |STAGES| && !s.Join? && !s.Poll? && !s.DropTicket?
    ensures SchedulerFairness.SameSchedule(Apply(w, s).queue, w.queue)
  {}

  lemma PollKeepsSchedule(w: World, now: nat, t: nat)
    requires w.queue.stage < |STAGES| && t in w.tickets
    ensures SchedulerFairness.SameSchedule(Apply(w, Poll(now, t)).queue, Drive(w.queue, now).queue)
  {}

  /** Every step of the protocol is a sequence of steps of the queue. */
  lemma StepIsQueueRun(w: World, s: Step, log: seq<Selection>)
    requires w.queue.stage < |STAGES|
    ensures SchedulerFairness.Run(SchedulerFairness.World(w.queue, log), TurnsOf(w, s)).queue == Apply(w, s).queue
  {
    var v := SchedulerFairness.World(w.queue, log);
    if s.Join? {
      RunTwo(v, SchedulerFairness.Turn(s.now), SchedulerFairness.Join(s.root, s.cost, s.enqueued, s.deadline));
    } else if s.Poll? {
      if s.ticket in w.tickets {
        RunTwo(v, SchedulerFairness.Turn(s.now), SchedulerFairness.Environment(Apply(w, s).queue));
        PollKeepsSchedule(w, s.now, s.ticket);
      }
    } else if s.DropTicket? {
      if s.ticket in w.tickets && w.tickets[s.ticket].root < |w.queue.roots| {
        RunOne(v, SchedulerFairness.Leave(s.now, w.tickets[s.ticket].root, s.ticket));
      }
    } else {
      RunOne(v, SchedulerFairness.Environment(Apply(w, s).queue));
      HoldStepsKeepSchedule(w, s);
    }
  }

  ghost function AllTurns(w: World, steps: seq<Step>): seq<SchedulerFairness.Step>
    requires Ownership.Initial(w)
  {
    if steps == [] then []
    else
      var rest := steps[..|steps| - 1];
      AllTurns(w, rest) + TurnsOf(Ownership.Run(w, rest), steps[|steps| - 1])
  }

  /** The admissions of a run of the protocol, with the queue each was decided on. */
  ghost function Admissions(w: World, steps: seq<Step>): SchedulerFairness.World
    requires Ownership.Initial(w)
  {
    SchedulerFairness.Run(SchedulerFairness.World(w.queue, []), AllTurns(w, steps))
  }

  lemma {:induction false} RunIsQueueRun(w: World, steps: seq<Step>)
    requires Ownership.Initial(w)
    ensures Admissions(w, steps).queue == Ownership.Run(w, steps).queue
  {
    if steps != [] {
      var rest, s := steps[..|steps| - 1], steps[|steps| - 1];
      var v := Ownership.Run(w, rest);
      RunIsQueueRun(w, rest);
      RunConcat(SchedulerFairness.World(w.queue, []), AllTurns(w, rest), TurnsOf(v, s));
      StepIsQueueRun(v, s, Admissions(w, rest).log);
    }
  }

  /** In every run of the protocol, no request is overtaken more than eight times while it cannot fit. */
  lemma NobodyStarves(w: World, steps: seq<Step>, k: SchedulerFairness.Key)
    requires Ownership.Initial(w) && w.queue.cursor == 0 && w.queue.barrier.None?
    ensures Admissions(w, steps).queue == Ownership.Run(w, steps).queue
    ensures SchedulerFairness.Overtaken(Admissions(w, steps).log, k) <= MAX_BYPASSES
  {
    RunIsQueueRun(w, steps);
    SchedulerFairness.StarvationBound(SchedulerFairness.World(w.queue, []), AllTurns(w, steps), k);
  }
}
