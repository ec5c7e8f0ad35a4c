/** The admission queue as an object: it owns the only ledger and is updated in place. */
module QueueObject {
  import opened Prelude
  import opened Quota
  import opened LedgerObject
  import opened Scheduler
  import SchedulerFairness

  class AdmissionQueue {
    const ledger: Ledger
    var cooldownUntil: nat
    var generation: nat
    var recovery: Option<Recovery>
    var stage: nat
    var roots: seq<seq<Waiting>>
    var cursor: nat
    var sequence: nat
    var barrier: Option<Barrier>
    var cells: map<nat, Outcome>

    function Model(): Queue
      reads this, ledger
    {
      Queue(ledger.Model(), cooldownUntil, generation, recovery, stage, roots, cursor, sequence, barrier, cells)
    }

    constructor (ledger: Ledger, roots: nat)
      requires roots <= 16
      ensures this.ledger == ledger
      ensures Model() == NewQueue(ledger.Model(), roots)
    {
      this.ledger := ledger;
      cooldownUntil, generation, recovery, stage := 0, 0, None, 0;
      this.roots := seq(roots, _ => []);
      cursor, sequence, barrier, cells := 0, 0, None, map[];
    }

    method Length() returns (n: nat)
      ensures n == Len(roots)
    {
      n := 0;
      for i := 0 to |roots|
        invariant n == Len(roots[..i])
      {
        assert roots[..i + 1][..i] == roots[..i];
        n := n + |roots[i]|;
      }
      assert roots[..|roots|] == roots;
    }

    // -------------------------------------------------------------- recovery gate

    method ArmRecovery(now: nat, delay: nat, generationOnly: bool)
      modifies this
      ensures Model() == Scheduler.ArmRecovery(old(Model()), now, delay, generationOnly)
    {
      cooldownUntil := Max(cooldownUntil, now + delay);
      var strict := generationOnly || (recovery.Some? && recovery.value.generationOnly);
      generation := generation + 1;
      recovery := Some(Recovery(strict, None));
    }

    method Throttle(now: nat, observed: nat, cost: Cost, hasTiming: bool, jitter: nat)
      requires stage < |STAGES|
      modifies this
      ensures Model() == Scheduler.Throttle(old(Model()), now, observed, cost, hasTiming, jitter)
    {
      if observed != generation {
        if IsGeneration(cost) && recovery.Some? && !recovery.value.generationOnly {
          var keep := false;
          if recovery.value.probe.Some? {
            keep := ledger.IsActiveGeneration(recovery.value.probe.value);
          }
          recovery := Some(recovery.value.(generationOnly := true));
          if !keep {
            generation := generation + 1;
            recovery := Some(recovery.value.(probe := None));
          }
        }
        return;
      }
      var delay := 0;
      if !hasTiming {
        delay := STAGES[stage] * SECOND + jitter;
        stage := Min(stage + 1, |STAGES| - 1);
      }
      ArmRecovery(now, delay, IsGeneration(cost));
    }

    method Accepted(now: nat, id: nat, observed: nat)
      modifies this
      ensures Model() == Scheduler.Accepted(old(Model()), now, id, observed)
    {
      if observed == generation && cooldownUntil <= now && recovery.Some? && recovery.value.probe == Some(id) {
        recovery := None;
        stage := 0;
      }
    }

    method ReleaseProbe(id: nat)
      modifies this
      ensures Model() == Scheduler.ReleaseProbe(old(Model()), id)
    {
      if recovery.Some? && recovery.value.probe == Some(id) {
        recovery := Some(recovery.value.(probe := None));
      }
    }

    // -------------------------------------------------------------- joining and leaving

    method Enqueue(root: nat, cost: Cost, enqueued: nat, deadline: nat) returns (joined: Joined)
      modifies this
      ensures (Model(), joined) == Scheduler.Enqueue(old(Model()), root, cost, enqueued, deadline)
    {
      if |roots| <= root { return InvalidRoot; }
      if !TotalFits(ledger.config, cost) { return OverBudget; }
      var n := Length();
      if MAX_WAITING <= n { return QueueFull; }
      if sequence == U64_MAX { return QueueFull; }
      sequence := sequence + 1;
      roots := roots[root := roots[root] + [Waiting(cost, enqueued, deadline, sequence, 0)]];
      return Ticket(sequence);
    }

    /** Takes a ticket out of its line, wherever it stands. */
    method StepOut(root: nat, ticket: nat)
      requires root < |roots|
      modifies this`roots
      ensures roots == old(roots)[root := Without(old(roots)[root], ticket)]
    {
      var line := roots[root];
      var i := 0;
      while i < |line| && line[i].sequence != ticket
        invariant i <= |line|
        invariant Without(line, ticket) == line[..i] + Without(line[i..], ticket)
      {
        assert line[i..][1..] == line[i + 1..];
        i := i + 1;
      }
      if i < |line| {
        assert line[i..][1..] == line[i + 1..];
        roots := roots[root := line[..i] + line[i + 1..]];
      } else {
        assert line[..i] + Without(line[i..], ticket) == line;
        assert roots[root := line] == roots;
      }
    }

    method Abandon(now: nat, root: nat, ticket: nat)
      requires root < |roots|
      modifies this, ledger
      ensures Model() == Scheduler.Abandon(old(Model()), now, root, ticket)
    {
      StepOut(root, ticket);
      var taken := if ticket in cells then Some(cells[ticket]) else None;
      cells := cells - {ticket};
      if taken.Some? && taken.value.Granted? {
        var _ := ledger.Cancel(now, taken.value.id);
        ReleaseProbe(taken.value.id);
      }
      Protect(now);
    }

    // -------------------------------------------------------------- the barrier

    method Protect(now: nat)
      modifies this
      ensures Model() == Scheduler.Protect(old(Model()), now)
    {
      if Standing(Model()) { return; }
      var triggered := false;
      for r := 0 to |roots|
        invariant triggered <==> exists i :: 0 <= i < r && roots[i] != [] && Urgent(roots[i][0], now)
      {
        if roots[r] != [] && Urgent(roots[r][0], now) { triggered := true; }
      }
      barrier := None;
      if triggered {
        var oldest: Option<nat> := None;
        for r := 0 to |roots|
          invariant oldest == Oldest(roots[..r])
          invariant Model() == old(Model()).(barrier := None)
        {
          assert roots[..r + 1][..r] == roots[..r];
          if roots[r] != [] && (oldest.None? || Older(roots[r][0], roots[oldest.value][0])) {
            oldest := Some(r);
          }
        }
        assert roots[..|roots|] == roots;
        if oldest.Some? {
          barrier := Some(Barrier(oldest.value, roots[oldest.value][0].sequence));
        }
      }
    }

    // -------------------------------------------------------------- one drive

    method ExpireRoot(r: nat, now: nat)
      requires r < |roots|
      modifies this
      ensures Model() == old(Model()).(roots := old(roots)[r := Unexpired(old(roots)[r], now)],
                                       cells := ExpireCells(old(roots)[r], now, old(cells)))
    {
      var line, kept: seq<Waiting> := roots[r], [];
      for i := 0 to |line|
        invariant Model() == old(Model()).(cells := cells)
        invariant kept == Unexpired(line[..i], now)
        invariant cells == ExpireCells(line[..i], now, old(cells))
      {
        assert line[..i + 1][..i] == line[..i];
        if line[i].deadline <= now {
          cells := cells[line[i].sequence := Expired];
        } else {
          kept := kept + [line[i]];
        }
      }
      assert line[..|line|] == line;
      roots := roots[r := kept];
    }

    method ExpireAll(now: nat)
      modifies this
      ensures Model() == Expire(old(Model()), now)
    {
      ghost var before := roots;
      for r := 0 to |roots|
        invariant Model() == old(Model()).(roots := roots, cells := cells)
        invariant |roots| == |before|
        invariant forall i :: 0 <= i < r ==> roots[i] == Unexpired(before[i], now)
        invariant forall i :: r <= i < |roots| ==> roots[i] == before[i]
        invariant cells == ExpireAllCells(before[..r], now, old(cells))
      {
        assert before[..r + 1][..r] == before[..r];
        ExpireRoot(r, now);
      }
      assert before[..|before|] == before;
      assert roots == ExpireRoots(before, now);
    }

    /** Inspects each root head once, before any reservation. */
    method Inspect(now: nat) returns (fits: seq<bool>)
      modifies ledger
      ensures Model() == Scheduler.Inspect(old(Model()), now)
      ensures |fits| == |roots| && forall r :: 0 <= r < |roots| ==> fits[r] == Fits(Model(), now, r)
    {
      fits := [];
      ghost var before := Model();
      AdvanceTwice(before.ledger, now);
      for r := 0 to |roots|
        invariant |fits| == r && forall i :: 0 <= i < r ==> fits[i] == Fits(before, now, i)
        invariant ledger.Model() == if exists i :: 0 <= i < r && roots[i] != [] then Advance(before.ledger, now)
                                    else before.ledger
        invariant Model() == before.(ledger := ledger.Model())
      {
        var fit := false;
        if roots[r] != [] {
          var refusal := ledger.Check(now, roots[r][0].cost);
          fit := refusal.None? && Eligible(recovery, roots[r][0].cost);
        }
        fits := fits + [fit];
      }
    }

    method Choose(now: nat, fits: seq<bool>) returns (root: Option<nat>)
      requires |fits| == |roots| && forall r :: 0 <= r < |roots| ==> fits[r] == Fits(Model(), now, r)
      requires barrier.Some? ==> barrier.value.root < |roots|
      ensures root == Select(Model(), now)
    {
      if barrier.Some? {
        return if fits[barrier.value.root] then Some(barrier.value.root) else None;
      }
      for offset := 0 to |roots|
        invariant FirstFit(Model(), now, 0) == FirstFit(Model(), now, offset)
      {
        var r := (cursor + offset) % |roots|;
        if fits[r] { return Some(r); }
      }
      return None;
    }

    method ChargeBypasses(now: nat, root: nat, fits: seq<bool>)
      requires |fits| == |roots| && forall r :: 0 <= r < |roots| ==> fits[r] == Fits(Model(), now, r)
      modifies this
      ensures Model() == old(Model()).(roots := BypassRoots(old(Model()), now, root))
    {
      ghost var before := Model();
      for r := 0 to |roots|
        invariant |roots| == |before.roots| && Model() == before.(roots := roots)
        invariant forall i :: 0 <= i < r ==> roots[i] == BypassRoot(before, now, root, i)
        invariant forall i :: r <= i < |roots| ==> roots[i] == before.roots[i]
      {
        if r != root && !fits[r] && roots[r] != [] {
          roots := roots[r := roots[r][0 := Bypassed(roots[r][0])]];
        }
      }
      assert roots == BypassRoots(before, now, root);
    }

    method Reserve(now: nat, root: nat, fits: seq<bool>)
      requires |fits| == |roots| && forall r :: 0 <= r < |roots| ==> fits[r] == Fits(Model(), now, r)
      requires Fits(Model(), now, root)
      modifies this, ledger
      ensures Model() == Grant(old(Model()), now, root)
    {
      ghost var before := Model();
      FitsAdmits(before, now, root);
      ChargeBypasses(now, root, fits);
      assert roots[root] == BypassRoot(before, now, root, root);
      var head := roots[root][0];
      roots := roots[root := roots[root][1..]];
      var decision := ledger.Admit(now, head.cost);
      var id := decision.id;
      if recovery.Some? && (!recovery.value.generationOnly || IsGeneration(head.cost)) {
        recovery := Some(recovery.value.(probe := Some(id)));
      }
      cells := cells[head.sequence := Granted(id)];
      cursor := (root + 1) % |roots|;
    }

    method Alarm(now: nat) returns (wake: Option<nat>)
      ensures wake == Wake(Model(), now)
    {
      var n := Length();
      if n == 0 { return None; }
      var deadlines: Option<nat>, ages: Option<nat> := None, None;
      for r := 0 to |roots|
        invariant deadlines == NextDeadline(roots[..r]) && ages == NextAge(roots[..r], now)
      {
        assert roots[..r + 1][..r] == roots[..r];
        var first: Option<nat> := None;
        for i := 0 to |roots[r]|
          invariant first == DeadlineOf(roots[r][..i])
        {
          assert roots[r][..i + 1][..i] == roots[r][..i];
          first := Earliest(first, Some(roots[r][i].deadline));
        }
        assert roots[r][..|roots[r]|] == roots[r];
        deadlines := Earliest(deadlines, first);
        ages := Earliest(ages, AgeOf(roots[r], now));
      }
      assert roots[..|roots|] == roots;
      var resource := Some(cooldownUntil);
      if cooldownUntil <= now { resource := ledger.NextWake(); }
      return Earliest(Earliest(deadlines, ages), resource);
    }

    /** Expires, then admits one request at a time until nothing more can be admitted. */
    method Drive(now: nat) returns (wake: Option<nat>)
      modifies this, ledger
      ensures Model() == Scheduler.Drive(old(Model()), now).queue
      ensures wake == Scheduler.Drive(old(Model()), now).wake
    {
      ghost var goal := Rounds(Expire(Model(), now), now).0;
      ExpireAll(now);
      while true
        invariant Rounds(Model(), now).0 == goal
        decreases Len(roots)
      {
        ghost var start := Model();
        SchedulerFairness.RoundsOnce(start, now);
        Protect(now);
        if now < cooldownUntil { break; }
        var fits := Inspect(now);
        assert Model() == Scheduler.Inspect(Scheduler.Protect(start, now), now);
        BarrierInRange(start, now);
        var root := Choose(now, fits);
        if root.None? { break; }
        GrantShrinks(Model(), now, root.value);
        Reserve(now, root.value, fits);
      }
      wake := Alarm(now);
    }

    static lemma BarrierInRange(q: Queue, now: nat)
      ensures var b := Scheduler.Protect(q, now).barrier; b.Some? ==> b.value.root < |q.roots|
    {}
  }
}
