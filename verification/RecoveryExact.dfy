/**
  The recovery gate, exactly: whom a drive lets through and makes the probe, who can then start,
  what response headers and rejected bodies do to the gate, and when it clears.
 */
module RecoveryExact {
  import opened Prelude
  import opened Quota
  import opened Scheduler
  import opened LedgerStages
  import opened Admission
  import opened Ownership
  import opened RecoveryGate
  import SchedulerFairness

  // ---------------------------------------------------------------- who a drive lets through

  /** How a request of this cost, admitted as `id`, may have come through the gate. */
  predicate Through(before: Option<Recovery>, after: Option<Recovery>, id: nat, cost: Cost) {
    if before.None? then after.None?
    else
      && after.Some? && after.value.generationOnly == before.value.generationOnly
      && (|| (before.value.generationOnly && cost.Metadata?)
          || (before.value.probe.None? && after.value.probe == Some(id)))
  }

  lemma GrantThrough(c: Queue, now: nat, root: nat)
    requires Fits(c, now, root)
    ensures var g := Grant(c, now, root); var head := c.roots[root][0];
      g.cells == c.cells[head.sequence := Granted(c.ledger.next + 1)]
      && Through(c.recovery, g.recovery, c.ledger.next + 1, head.cost)
  {
    FitsAdmits(c, now, root);
  }

  /** A probe that is out stays out through a drive. */
  lemma {:induction false} RoundsKeepProbe(q: Queue, now: nat)
    requires q.recovery.Some? && q.recovery.value.probe.Some?
    ensures Rounds(q, now).0.recovery == q.recovery
    decreases Len(q.roots)
  {
    SchedulerFairness.RoundsOnce(q, now);
    var c := SchedulerFairness.Ready(q, now);
    if q.cooldownUntil <= now && Select(c, now).Some? {
      var root := Select(c, now).value;
      GrantShrinks(c, now, root);
      GrantThrough(c, now, root);
      GrantKeepsProbe(c, now, root);
      RoundsKeepProbe(Grant(c, now, root), now);
    }
  }

  lemma GrantKeepsProbe(c: Queue, now: nat, root: nat)
    requires Fits(c, now, root) && c.recovery.Some? && c.recovery.value.probe.Some?
    ensures Grant(c, now, root).recovery == c.recovery
  {}

  lemma ReadyLined(q: Queue, now: nat, tickets: map<nat, Pending>)
    requires Lined(q, tickets)
    ensures Lined(SchedulerFairness.Ready(q, now), tickets)
  {
    ProtectLined(q, now, tickets);
    SameLinesLined(Protect(q, now), SchedulerFairness.Ready(q, now), tickets);
  }

  /** Results already written are not written again. */
  lemma {:induction false} RoundsKeepCell(q: Queue, now: nat, tickets: map<nat, Pending>, t: nat)
    requires Lined(q, tickets) && t in q.cells
    ensures t in Rounds(q, now).0.cells && Rounds(q, now).0.cells[t] == q.cells[t]
    decreases Len(q.roots)
  {
    SchedulerFairness.RoundsOnce(q, now);
    var c := SchedulerFairness.Ready(q, now);
    if q.cooldownUntil <= now && Select(c, now).Some? {
      var root := Select(c, now).value;
      ReadyLined(q, now, tickets);
      LineBelongs(c, tickets, root, 0);
      GrantShrinks(c, now, root);
      GrantLined(c, now, root, tickets);
      GrantThrough(c, now, root);
      RoundsKeepCell(Grant(c, now, root), now, tickets, t);
    }
  }

  /** From the request's own round on, nothing in the drive takes its way through the gate back. */
  lemma StaysThrough(before: Option<Recovery>, g: Queue, now: nat, id: nat, cost: Cost)
    requires Through(before, g.recovery, id, cost)
    ensures Through(before, Rounds(g, now).0.recovery, id, cost)
  {
    RoundsKeepGate(g, now);
    if g.recovery.Some? && g.recovery.value.probe.Some? { RoundsKeepProbe(g, now); }
  }

  /** A round before the request's own cannot have needed the probe position. */
  lemma EarlierRoundThrough(c: Queue, now: nat, root: nat, after: Option<Recovery>, id: nat, cost: Cost)
    requires Fits(c, now, root) && Through(Grant(c, now, root).recovery, after, id, cost)
    ensures Through(c.recovery, after, id, cost)
  {}

  lemma {:induction false} RoundsThrough(q: Queue, now: nat, tickets: map<nat, Pending>, t: nat)
    requires Lined(q, tickets) && t in tickets && t !in q.cells
    requires var end := Rounds(q, now).0; t in end.cells && end.cells[t].Granted?
    ensures var end := Rounds(q, now).0;
      q.cooldownUntil <= now && Through(q.recovery, end.recovery, end.cells[t].id, tickets[t].cost)
    decreases Len(q.roots)
  {
    SchedulerFairness.RoundsOnce(q, now);
    var c := SchedulerFairness.Ready(q, now);
    if q.cooldownUntil <= now && Select(c, now).Some? {
      var root := Select(c, now).value;
      var g, head := Grant(c, now, root), c.roots[root][0];
      ReadyLined(q, now, tickets);
      LineBelongs(c, tickets, root, 0);
      GrantShrinks(c, now, root);
      GrantLined(c, now, root, tickets);
      GrantThrough(c, now, root);
      if t == head.sequence {
        RoundsKeepCell(g, now, tickets, t);
        StaysThrough(c.recovery, g, now, g.cells[t].id, tickets[t].cost);
      } else {
        RoundsThrough(g, now, tickets, t);
        EarlierRoundThrough(c, now, root, Rounds(g, now).0.recovery, Rounds(g, now).0.cells[t].id, tickets[t].cost);
      }
    }
  }

  lemma DriveThrough(q: Queue, now: nat, tickets: map<nat, Pending>, t: nat)
    requires Lined(q, tickets) && t in tickets && t !in q.cells
    requires var d := Drive(q, now).queue; t in d.cells && d.cells[t].Granted?
    ensures var d := Drive(q, now).queue;
      && d.cooldownUntil <= now && d.cooldownUntil == q.cooldownUntil
      && Through(q.recovery, d.recovery, d.cells[t].id, tickets[t].cost)
  {
    var e := Expire(q, now);
    ExpireLined(q, now, tickets);
    ExpireAllCellsSpec(q.roots, now, q.cells, t);
    DriveKeepsGate(q, now);
    if t in e.cells {
      RoundsKeepCell(e, now, tickets, t);
    } else {
      RoundsThrough(e, now, tickets, t);
    }
  }

  /**
    In every run, a drive behind an armed gate that admits a request which the gate asks for - any
    request, or a generation request when it is generation-only - found no probe out and leaves
    that request's reservation as the probe; only metadata passes a generation-only gate otherwise.
   */
  lemma DriveChoosesProbe(w: World, steps: seq<Step>, now: nat, t: nat)
    requires Initial(w) && t in Run(w, steps).tickets && t !in Run(w, steps).queue.cells
    requires Run(w, steps).queue.recovery.Some?
    requires var d := Drive(Run(w, steps).queue, now).queue; t in d.cells && d.cells[t].Granted?
    ensures var f := Run(w, steps); var d := Drive(f.queue, now).queue; var gate := f.queue.recovery.value;
      var cost := f.tickets[t].cost;
      if gate.generationOnly && cost.Metadata? then d.recovery.Some?
      else gate.probe.None? && d.recovery == Some(gate.(probe := Some(d.cells[t].id)))
  {
    var f := Run(w, steps);
    assert Upheld(InLines, f);
    DriveThrough(f.queue, now, f.tickets, t);
  }

  lemma PollTakes(f: World, now: nat, t: nat)
    requires f.queue.stage < |STAGES| && t in f.tickets
    requires var d := Drive(f.queue, now).queue; t in d.cells && d.cells[t].Granted?
    ensures var d := Drive(f.queue, now).queue; var g := Apply(f, Poll(now, t));
      && g.queue == d.(cells := d.cells - {t})
      && g.holds == f.holds[d.cells[t].id := Hold(f.tickets[t].cost, false, 0, false)]
  {}

  lemma StartsNow(g: World, now: nat, id: nat)
    requires Inv(g) && id in g.holds && !g.holds[id].started && CanStart(g.queue, now, id, g.holds[id].cost)
    ensures JustStarted(Apply(g, StartHold(now, id)), id, g.holds[id].cost)
  {
    assert Upheld(Owning, g);
    StartOwns(g.queue, now, id, g.tickets, g.holds);
  }

  /** A hold for this request was taken and has just started. */
  predicate JustStarted(v: World, id: nat, cost: Cost) {
    id in v.holds && v.holds[id].started && v.holds[id].cost == cost
  }

  /** In every run, gate or no gate, a hold taken from a drive can start at the time of the drive. */
  lemma AdmittedCanStart(w: World, steps: seq<Step>, now: nat, t: nat)
    requires Initial(w) && t in Run(w, steps).tickets && t !in Run(w, steps).queue.cells
    requires var d := Drive(Run(w, steps).queue, now).queue; t in d.cells && d.cells[t].Granted?
    ensures var f := Run(w, steps); var id := Drive(f.queue, now).queue.cells[t].id;
      var g := Run(w, steps + [Poll(now, t)] + [StartHold(now, id)]);
      JustStarted(g, id, f.tickets[t].cost)
  {
    var f := Run(w, steps);
    var id := Drive(f.queue, now).queue.cells[t].id;
    RunSnoc(w, steps, Poll(now, t));
    RunSnoc(w, steps + [Poll(now, t)], StartHold(now, id));
    PolledCanStart(f, now, t);
  }

  lemma PolledCanStart(f: World, now: nat, t: nat)
    requires Inv(f) && t in f.tickets && t !in f.queue.cells
    requires var d := Drive(f.queue, now).queue; t in d.cells && d.cells[t].Granted?
    ensures var g := Apply(f, Poll(now, t)); var id := Drive(f.queue, now).queue.cells[t].id;
      g.queue.stage < |STAGES| && JustStarted(Apply(g, StartHold(now, id)), id, f.tickets[t].cost)
  {
    var g := Apply(f, Poll(now, t));
    ApplyKeeps(f, Poll(now, t));
    PolledMayStart(f, now, t);
    StartsNow(g, now, Drive(f.queue, now).queue.cells[t].id);
  }

  lemma PolledMayStart(f: World, now: nat, t: nat)
    requires Inv(f) && t in f.tickets && t !in f.queue.cells
    requires var d := Drive(f.queue, now).queue; t in d.cells && d.cells[t].Granted?
    ensures var g := Apply(f, Poll(now, t)); var id := Drive(f.queue, now).queue.cells[t].id;
      var cost := f.tickets[t].cost;
      && id in g.holds && g.holds[id] == Hold(cost, false, 0, false)
      && CanStart(g.queue, now, id, cost)
  {
    assert Upheld(InLines, f);
    DriveThrough(f.queue, now, f.tickets, t);
    PollTakes(f, now, t);
  }

  lemma RunSnoc(w: World, steps: seq<Step>, s: Step)
    requires Initial(w)
    ensures Run(w, steps + [s]) == Apply(Run(w, steps), s)
  {
    assert (steps + [s])[..|steps|] == steps;
  }

  // ---------------------------------------------------------------- starting

  /** In every run, a hold that starts notes the generation it started under, once. */
  lemma StartNotesGeneration(w: World, steps: seq<Step>, now: nat, id: nat)
    requires Initial(w) && id in Run(w, steps).holds
    ensures var f := Run(w, steps); var g := Apply(f, StartHold(now, id));
      && id in g.holds && g.holds[id].cost == f.holds[id].cost && g.queue.recovery == f.queue.recovery
      && (if f.holds[id].started then g.holds[id] == f.holds[id]
          else g.holds[id].started ==> g.holds[id].generation == f.queue.generation)
  {
    StartNotes(Run(w, steps), now, id);
  }

  lemma StartNotes(f: World, now: nat, id: nat)
    requires f.queue.stage < |STAGES| && id in f.holds
    ensures var g := Apply(f, StartHold(now, id)); var h := f.holds[id];
      && id in g.holds && g.holds[id].cost == h.cost && g.queue.recovery == f.queue.recovery
      && (if h.started then g.holds[id] == h
          else g.holds[id].started ==> g.holds[id].generation == f.queue.generation)
  {}

  // ---------------------------------------------------------------- response headers

  /** In every run, an armed gate is clear after a step if and only if the step proves recovery. */
  lemma GateClearsExactly(w: World, steps: seq<Step>, s: Step)
    requires Initial(w) && Run(w, steps).queue.recovery.Some?
    ensures Apply(Run(w, steps), s).queue.recovery.None? <==> Clears(Run(w, steps), s)
  {
    GateRule(Run(w, steps), s);
    if Clears(Run(w, steps), s) { ClearsClears(Run(w, steps), s); }
  }

  lemma ClearsClears(w: World, s: Step)
    requires w.queue.stage < |STAGES| && Clears(w, s)
    ensures Apply(w, s).queue.recovery.None?
  {}

  /** The cooldown that a server delay on a 429 and an exhaustion hint ask for, whichever is later. */
  function CooldownAsked(s: Step): nat
    requires s.Headers?
  {
    Max(if s.status == TooManyRequests && s.delay.Some? then s.now + s.delay.value else 0,
        if s.hint.Some? then s.now + s.hint.value.delay else 0)
  }

  /** Only the gate can differ, with its cooldown, generation and backoff stage. */
  predicate OnlyGate(q: Queue, p: Queue) {
    p == q.(cooldownUntil := p.cooldownUntil, generation := p.generation, recovery := p.recovery, stage := p.stage)
  }

  /** The gate is as it was, except that `id` is no longer its probe. */
  predicate Freed(q: Queue, p: Queue, id: nat) {
    && p.recovery.Some? == q.recovery.Some?
    && (q.recovery.Some? ==>
          && p.recovery.value.generationOnly == q.recovery.value.generationOnly
          && p.recovery.value.probe == if q.recovery.value.probe == Some(id) then None else q.recovery.value.probe)
  }

  /** What headers without an exhaustion hint do to the gate, for a hold started under `generation`. */
  predicate Answered(q: Queue, p: Queue, s: Step, generation: nat)
    requires s.Headers?
  {
    var proves := && s.status == OK && q.recovery.Some? && q.recovery.value.probe == Some(s.id)
                  && generation == q.generation && q.cooldownUntil <= s.now;
    && p.generation == q.generation
    && p.stage == (if proves then 0 else q.stage)
    && (if proves then p.recovery.None?
        else if s.status == Other then Freed(q, p, s.id)
        else p.recovery == q.recovery)
  }

  /**
    In every run, response headers move the cooldown exactly as far as a 429's server delay and an
    exhaustion hint ask; a hint opens a new generation behind a gate without a probe, which is
    generation-only if it was, if the hint is, or if the request was a generation request; without
    a hint, the 200 that proves recovery clears gate and backoff, and any other answer but a 200 or
    429 frees the probe position.  Nothing else of the queue changes.
   */
  lemma HeadersAreExact(w: World, steps: seq<Step>, s: Step)
    requires Initial(w) && s.Headers? && s.id in Run(w, steps).holds
    ensures var f := Run(w, steps); var g := Apply(f, s); var q := f.queue; var p := g.queue;
      && p.cooldownUntil == Max(q.cooldownUntil, CooldownAsked(s))
      && g.holds[s.id] == f.holds[s.id].(exhausted := f.holds[s.id].exhausted || s.hint.Some?)
      && (s.hint.Some? ==>
            && p.generation == q.generation + 1 && p.stage == q.stage
            && p.recovery == Some(Recovery((q.recovery.Some? && q.recovery.value.generationOnly)
                                           || s.hint.value.generationOnly || !f.holds[s.id].cost.Metadata?, None)))
      && OnlyGate(q, p)
      && (s.hint.None? ==> Answered(q, p, s, f.holds[s.id].generation))
  {
    var f := Run(w, steps);
    HeadersStep(f.queue, s, f.holds[s.id]);
  }

  lemma HeadersStep(q: Queue, s: Step, h: Hold)
    requires s.Headers?
    ensures var (p, k) := HoldHeaders(q, s.now, s.id, h, s.status, s.delay, s.hint);
      && p.cooldownUntil == Max(q.cooldownUntil, CooldownAsked(s))
      && k == h.(exhausted := h.exhausted || s.hint.Some?)
      && (s.hint.Some? ==>
            && p.generation == q.generation + 1 && p.stage == q.stage
            && p.recovery == Some(Recovery((q.recovery.Some? && q.recovery.value.generationOnly)
                                           || s.hint.value.generationOnly || !h.cost.Metadata?, None)))
      && OnlyGate(q, p)
      && (s.hint.None? ==> Answered(q, p, s, h.generation))
  {}

  // ---------------------------------------------------------------- rejected bodies

  /** A recognized rejection of a hold that saw no exhaustion hint, with timing or a sign that it is missing. */
  predicate Charged(f: World, s: Step)
    requires s.Rejected? && s.id in f.holds
  {
    s.recognized && !f.holds[s.id].exhausted && (s.hasTiming || s.missingTiming)
  }

  /** What a charged rejection of the current generation leaves. */
  predicate NewlyArmed(q: Queue, p: Queue, s: Step, generation: bool)
    requires s.Rejected? && q.stage < |STAGES|
  {
    && p.generation == q.generation + 1
    && p.recovery == Some(Recovery((q.recovery.Some? && q.recovery.value.generationOnly) || generation, None))
    && p.stage == (if s.hasTiming then q.stage else Min(q.stage + 1, |STAGES| - 1))
    && p.cooldownUntil == Max(q.cooldownUntil, s.now + if s.hasTiming then 0 else STAGES[q.stage] * SECOND + s.jitter)
  }

  /** What a charged rejection of a generation request from an older generation leaves of an armed gate. */
  predicate Strengthened(q: Queue, p: Queue, s: Step)
    requires s.Rejected? && q.recovery.Some?
  {
    var probe := q.recovery.value.probe;
    && p.stage == q.stage && p.cooldownUntil == q.cooldownUntil
    && p.recovery.Some? && p.recovery.value.generationOnly
    && (if q.recovery.value.generationOnly || (probe.Some? && IsActiveGeneration(q.ledger, probe.value)) then
          p.generation == q.generation && p.recovery.value.probe == if probe == Some(s.id) then None else probe
        else p.generation == q.generation + 1 && p.recovery.value.probe.None?)
  }

  /** A gate that a rejection does not charge only loses that request as its probe. */
  predicate OnlyFreed(q: Queue, p: Queue, s: Step)
    requires s.Rejected?
  {
    && p.stage == q.stage && p.cooldownUntil == q.cooldownUntil && p.generation == q.generation
    && Freed(q, p, s.id)
  }

  /**
    In every run, a rejected body does exactly this: charged to the current generation it arms the
    gate anew - generation-only if the request was a generation request - and backs off once;
    charged to an older one it can only make an armed gate generation-only; otherwise it frees the
    probe position.  Nothing else of the queue changes.
   */
  lemma RejectionsAreExact(w: World, steps: seq<Step>, s: Step)
    requires Initial(w) && s.Rejected? && s.id in Run(w, steps).holds
    ensures var f := Run(w, steps); var q := f.queue; var p := Apply(f, s).queue; var h := f.holds[s.id];
      && OnlyGate(q, p)
      && if Charged(f, s) && h.generation == q.generation then NewlyArmed(q, p, s, !h.cost.Metadata?)
         else if Charged(f, s) && !h.cost.Metadata? && q.recovery.Some? then Strengthened(q, p, s)
         else OnlyFreed(q, p, s)
  {
    var f := Run(w, steps);
    RejectedIs(f, s);
    RejectedStep(f.queue, s, f.holds[s.id]);
  }

  lemma RejectedIs(f: World, s: Step)
    requires s.Rejected? && s.id in f.holds && f.queue.stage < |STAGES|
    ensures Apply(f, s).queue
         == HoldRejected(f.queue, s.now, s.id, f.holds[s.id], s.recognized, s.hasTiming, s.missingTiming, s.jitter)
  {}

  lemma RejectedStep(q: Queue, s: Step, h: Hold)
    requires s.Rejected? && q.stage < |STAGES|
    ensures var p := HoldRejected(q, s.now, s.id, h, s.recognized, s.hasTiming, s.missingTiming, s.jitter);
      var charged := s.recognized && !h.exhausted && (s.hasTiming || s.missingTiming);
      && OnlyGate(q, p)
      && if charged && h.generation == q.generation then NewlyArmed(q, p, s, !h.cost.Metadata?)
         else if charged && !h.cost.Metadata? && q.recovery.Some? then Strengthened(q, p, s)
         else OnlyFreed(q, p, s)
  {}

  // ---------------------------------------------------------------- what generation recovery takes

  /** A generation request reported exhaustion: a charged current rejection, or a hint on its headers. */
  predicate GenerationExhausted(f: World, s: Step) {
    || (s.Rejected? && s.id in f.holds && !f.holds[s.id].cost.Metadata? && Charged(f, s)
        && f.holds[s.id].generation == f.queue.generation)
    || (s.Headers? && s.id in f.holds && !f.holds[s.id].cost.Metadata? && s.hint.Some?)
  }

  /** The gate is armed after each of the first `n`, `n + 1`, ... steps, to the last. */
  ghost predicate ArmedFrom(w: World, steps: seq<Step>, n: nat)
    requires Initial(w)
  {
    Run(w, steps).queue.recovery.Some? && (n < |steps| ==> ArmedFrom(w, steps[..|steps| - 1], n))
  }

  /** An armed gate that only a generation request can clear. */
  predicate AsksForGeneration(f: World) { f.queue.recovery.Some? && f.queue.recovery.value.generationOnly }

  lemma {:induction false} GenerationOnlyStays(w: World, steps: seq<Step>, n: nat)
    requires Initial(w) && n <= |steps| && ArmedFrom(w, steps, n) && AsksForGeneration(Run(w, steps[..n]))
    ensures AsksForGeneration(Run(w, steps))
  {
    if n < |steps| {
      var rest := steps[..|steps| - 1];
      assert rest[..n] == steps[..n];
      GenerationOnlyStays(w, rest, n);
      GateRule(Run(w, rest), steps[|steps| - 1]);
    } else {
      assert steps[..n] == steps;
    }
  }

  lemma ExhaustionAsks(w: World, steps: seq<Step>, s: Step)
    requires Initial(w) && GenerationExhausted(Run(w, steps), s)
    ensures AsksForGeneration(Apply(Run(w, steps), s))
  {
    if s.Rejected? { RejectionsAreExact(w, steps, s); } else { HeadersAreExact(w, steps, s); }
  }

  /**
    In every run, after a generation request reported exhaustion at step `n`, the 200 that clears
    the gate - however many steps later, if it stays armed until then - is a generation request's.
   */
  lemma GenerationProvesGeneration(w: World, steps: seq<Step>, n: nat, c: Step)
    requires Initial(w) && n < |steps| && GenerationExhausted(Run(w, steps[..n]), steps[n])
    requires ArmedFrom(w, steps, n + 1) && Apply(Run(w, steps), c).queue.recovery.None?
    ensures c.Headers? && c.status == OK && c.id in Run(w, steps).holds && !Run(w, steps).holds[c.id].cost.Metadata?
  {
    AskedAfter(w, steps, n);
    GenerationOnlyStays(w, steps, n + 1);
    ClearedByGeneration(Run(w, steps), c);
  }

  lemma AskedAfter(w: World, steps: seq<Step>, n: nat)
    requires Initial(w) && n < |steps| && GenerationExhausted(Run(w, steps[..n]), steps[n])
    ensures AsksForGeneration(Run(w, steps[..n + 1]))
  {
    ExhaustionAsks(w, steps[..n], steps[n]);
    RunAt(w, steps, n);
  }

  lemma RunAt(w: World, steps: seq<Step>, n: nat)
    requires Initial(w) && n < |steps|
    ensures Run(w, steps[..n + 1]) == Apply(Run(w, steps[..n]), steps[n])
  {
    assert steps[..n + 1] == steps[..n] + [steps[n]];
    RunSnoc(w, steps[..n], steps[n]);
  }

  lemma ClearedByGeneration(f: World, c: Step)
    requires Inv(f) && AsksForGeneration(f) && Apply(f, c).queue.recovery.None?
    ensures c.Headers? && c.status == OK && c.id in f.holds && !f.holds[c.id].cost.Metadata?
  {
    GateRule(f, c);
  }
}
