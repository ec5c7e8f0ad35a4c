/**
  The recovery gate over whole runs: who may start behind it, how it strengthens, what
  clears it, and how often a rejection without timing is allowed to back off.
 */
module RecoveryGate {
  import opened Prelude
  import opened Quota
  import opened Scheduler
  import opened LedgerStages
  import opened Admission
  import opened Ownership
  import SchedulerFairness

  // ---------------------------------------------------------------- drives leave the gate alone

  /** Only the probe may differ. */
  predicate OnlyProbe(a: Queue, b: Queue) { SameGate(a, b) && a.cooldownUntil == b.cooldownUntil }

  lemma RoundKeepsGate(q: Queue, now: nat, root: nat)
    requires q.cooldownUntil <= now && Select(SchedulerFairness.Ready(q, now), now) == Some(root)
    ensures var g := Grant(SchedulerFairness.Ready(q, now), now, root);
      OnlyProbe(q, g) && Rounds(q, now).0 == Rounds(g, now).0
  {
    SchedulerFairness.RoundsOnce(q, now);
  }

  lemma LastRoundKeepsGate(q: Queue, now: nat)
    requires now < q.cooldownUntil || Select(SchedulerFairness.Ready(q, now), now).None?
    ensures OnlyProbe(q, Rounds(q, now).0)
  {
    SchedulerFairness.RoundsOnce(q, now);
  }

  lemma {:induction false} RoundsKeepGate(q: Queue, now: nat)
    ensures OnlyProbe(q, Rounds(q, now).0)
    decreases Len(q.roots)
  {
    var c := SchedulerFairness.Ready(q, now);
    if q.cooldownUntil <= now && Select(c, now).Some? {
      var root := Select(c, now).value;
      GrantShrinks(c, now, root);
      RoundKeepsGate(q, now, root);
      RoundsKeepGate(Grant(c, now, root), now);
    } else {
      LastRoundKeepsGate(q, now);
    }
  }

  lemma DriveKeepsGate(q: Queue, now: nat)
    ensures OnlyProbe(q, Drive(q, now).queue)
  {
    RoundsKeepGate(Expire(q, now), now);
  }

  lemma AbandonKeepsGate(q: Queue, now: nat, root: nat, t: nat)
    requires root < |q.roots|
    ensures OnlyProbe(q, Abandon(q, now, root, t))
  {}

  // ---------------------------------------------------------------- the rules, step by step

  /** A gate clears only on a 200 for the probe that started, as the probe, under this generation. */
  predicate Clears(w: World, s: Step) {
    && s.Headers? && s.status == OK && s.hint.None? && s.id in w.holds
    && w.queue.recovery.Some? && w.queue.recovery.value.probe == Some(s.id)
    && w.queue.cooldownUntil <= s.now
    && w.holds[s.id].started && w.holds[s.id].generation == w.queue.generation
    && s.id in w.launches && w.launches[s.id].armed && w.launches[s.id].probe == Some(s.id)
    && (w.queue.recovery.value.generationOnly ==> IsGeneration(w.holds[s.id].cost))
  }

  /** The probe of a gate is the hold it says it is. */
  lemma HealerIsProbe(w: World, now: nat, id: nat)
    requires Inv(w) && id in w.holds && Heals(w.queue, now, id, w.holds[id].generation)
    ensures w.holds[id].started && id in w.launches && w.launches[id].armed && w.launches[id].probe == Some(id)
    ensures w.queue.recovery.value.generationOnly ==> IsGeneration(w.holds[id].cost)
  {
    assert Upheld(Memory, w) && Upheld(Gating, w) && Upheld(Owning, w);
    assert Remembered(w.queue, id, w.holds[id], w.launches);
  }

  lemma HeadersRule(w: World, s: Step)
    requires Inv(w) && s.Headers? && w.queue.recovery.Some?
    ensures var r := Apply(w, s).queue.recovery;
      (r.None? && Clears(w, s)) || (r.Some? && (w.queue.recovery.value.generationOnly ==> r.value.generationOnly))
  {
    if s.id in w.holds && s.hint.None? && s.status == OK
       && Heals(w.queue, s.now, s.id, w.holds[s.id].generation) {
      HealerIsProbe(w, s.now, s.id);
    }
    if s.id in w.holds && s.hint.Some? {
      assert Upheld(Memory, w);
      assert Remembered(w.queue, s.id, w.holds[s.id], w.launches);
    }
  }

  lemma EnqueueKeepsGate(q: Queue, s: Step)
    requires s.Join?
    ensures OnlyProbe(q, Enqueue(q, s.root, s.cost, s.enqueued, s.deadline).0)
    ensures q.recovery == Enqueue(q, s.root, s.cost, s.enqueued, s.deadline).0.recovery
  {}

  lemma TakeKeepsGate(q: Queue, tickets: map<nat, Pending>, holds: map<nat, Hold>, t: nat)
    ensures OnlyProbe(q, Take(q, tickets, holds, t).0) && q.recovery == Take(q, tickets, holds, t).0.recovery
  {}

  /** Steps on tickets and the clock leave everything of the gate but its probe alone. */
  lemma TicketStepsKeepGate(w: World, s: Step)
    requires w.queue.stage < |STAGES| && (s.Join? || s.Poll? || s.DropTicket? || s.StartHold? || s.Look?)
    ensures OnlyProbe(w.queue, Apply(w, s).queue)
  {
    if s.Join? {
      DriveKeepsGate(w.queue, s.now);
      EnqueueKeepsGate(Drive(w.queue, s.now).queue, s);
    } else if s.Poll? {
      DriveKeepsGate(w.queue, s.now);
      TakeKeepsGate(Drive(w.queue, s.now).queue, w.tickets, w.holds, s.ticket);
    } else if s.DropTicket? && s.ticket in w.tickets && w.tickets[s.ticket].root < |w.queue.roots| {
      AbandonKeepsGate(w.queue, s.now, w.tickets[s.ticket].root, s.ticket);
    }
  }

  lemma RejectedRule(w: World, s: Step)
    requires Inv(w) && s.Rejected? && w.queue.recovery.Some?
    ensures var r := Apply(w, s).queue.recovery;
      r.Some? && (w.queue.recovery.value.generationOnly ==> r.value.generationOnly)
  {}

  /** An armed gate is cleared only as `Clears` says, and generation-only never weakens. */
  lemma GateRule(w: World, s: Step)
    requires Inv(w) && w.queue.recovery.Some?
    ensures var r := Apply(w, s).queue.recovery;
      (r.None? && Clears(w, s)) || (r.Some? && (w.queue.recovery.value.generationOnly ==> r.value.generationOnly))
  {
    if s.Headers? {
      HeadersRule(w, s);
    } else if s.Rejected? {
      RejectedRule(w, s);
    } else if !s.DropHold? && !s.Cooldown? {
      TicketStepsKeepGate(w, s);
    }
  }

  // ---------------------------------------------------------------- the theorems

  /**
    In every run, a hold starts behind an armed gate only as its current probe - or as a
    metadata request behind a generation-only gate - and never during a cooldown.
   */
  lemma GatedStart(w: World, steps: seq<Step>, now: nat, id: nat)
    requires Initial(w) && id in Run(w, steps).holds && !Run(w, steps).holds[id].started
    ensures var f := Run(w, steps); var g := Apply(f, StartHold(now, id)); var r := f.queue.recovery;
      g.holds[id].started <==>
        && f.queue.cooldownUntil <= now
        && (r.None? || r.value.probe == Some(id) || (r.value.generationOnly && !IsGeneration(f.holds[id].cost)))
  {
    var f := Run(w, steps);
    assert Upheld(Owning, f);
    StartOwns(f.queue, now, id, f.tickets, f.holds);
  }

  /**
    In every run, an armed gate goes away only through a 200 for its current probe, which
    started as the probe under the current generation, after the cooldown and without a new
    exhaustion hint; until then a generation-only gate stays generation-only.
   */
  lemma GateClearsOnlyByProbe(w: World, steps: seq<Step>, s: Step)
    requires Initial(w) && Run(w, steps).queue.recovery.Some?
    ensures var f := Run(w, steps); var r := Apply(f, s).queue.recovery;
      (r.None? && Clears(f, s)) || (r.Some? && (f.queue.recovery.value.generationOnly ==> r.value.generationOnly))
  {
    GateRule(Run(w, steps), s);
  }

  /** In every run, the probe of a gate is an active reservation, of the generation kind where asked. */
  lemma ProbeIsActive(w: World, steps: seq<Step>)
    requires Initial(w)
    ensures var q := Run(w, steps).queue;
      q.recovery.Some? && q.recovery.value.probe.Some? ==>
        var id := q.recovery.value.probe.value;
        && id in ActiveIds(q.ledger)
        && (id in Run(w, steps).holds || id in CellIds(q.cells))
        && (q.recovery.value.generationOnly ==> IsActiveGeneration(q.ledger, id))
  {
    var q := Run(w, steps).queue;
    assert Upheld(Owning, Run(w, steps)) && Upheld(Gating, Run(w, steps));
    if q.recovery.Some? && q.recovery.value.probe.Some? {
      var id := q.recovery.value.probe.value;
      ActiveIsStaged(q.ledger, id);
      GenerationStage(q.ledger, id);
      OwnershipConserved(w, steps);
    }
  }

  lemma CooldownStep(w: World, s: Step)
    requires w.queue.stage < |STAGES|
    ensures w.queue.cooldownUntil <= Apply(w, s).queue.cooldownUntil
  {
    if !s.Headers? && !s.Rejected? && !s.DropHold? && !s.Cooldown? { TicketStepsKeepGate(w, s); }
  }

  /** In every run, the shared cooldown deadline never moves back. */
  lemma {:induction false} CooldownNeverShrinks(w: World, steps: seq<Step>, n: nat)
    requires Initial(w) && n <= |steps|
    ensures Run(w, steps[..n]).queue.cooldownUntil <= Run(w, steps).queue.cooldownUntil
  {
    if n < |steps| {
      var rest := steps[..|steps| - 1];
      assert rest[..n] == steps[..n];
      CooldownNeverShrinks(w, rest, n);
      CooldownStep(Run(w, rest), steps[|steps| - 1]);
    } else {
      assert steps[..n] == steps;
    }
  }

  /** In every run, each generation is charged at most one backoff, however many rejections it gets. */
  lemma OneBackoffPerGeneration(w: World, steps: seq<Step>, i: nat, j: nat)
    requires Initial(w) && i < j < |Run(w, steps).backoffs|
    ensures Run(w, steps).backoffs[i].generation != Run(w, steps).backoffs[j].generation
  {
    assert Upheld(Charges, Run(w, steps));
  }

  /**
    The stage moves only by such a charged backoff - to the next table entry, cooling down at
    least the delay of the present one - or back to zero when the gate clears.
   */
  lemma StageMovesOnlyByBackoff(w: World, s: Step)
    requires Inv(w) && Apply(w, s).queue.stage != w.queue.stage
    ensures var v := Apply(w, s);
      || (v.queue.stage == 0 && w.queue.recovery.Some? && Clears(w, s))
      || (&& s.Rejected? && !s.hasTiming && s.id in w.holds
          && v.backoffs == w.backoffs + [Backoff(w.queue.generation, w.queue.stage)]
          && v.queue.stage == Min(w.queue.stage + 1, |STAGES| - 1)
          && v.queue.cooldownUntil == Max(w.queue.cooldownUntil, s.now + STAGES[w.queue.stage] * SECOND + s.jitter))
  {
    if s.Headers? {
      HeadersStage(w, s);
    } else if !s.Rejected? && !s.DropHold? && !s.Cooldown? {
      TicketStepsKeepGate(w, s);
    }
  }

  lemma HeadersStage(w: World, s: Step)
    requires Inv(w) && s.Headers? && Apply(w, s).queue.stage != w.queue.stage
    ensures Apply(w, s).queue.stage == 0 && w.queue.recovery.Some? && Clears(w, s)
  {
    HealerIsProbe(w, s.now, s.id);
  }
}
