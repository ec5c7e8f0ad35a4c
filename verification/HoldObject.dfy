/** A hold as an object: it owns one reservation and settles it through the shared queue. */
module HoldObject {
  import opened Prelude
  import opened Quota
  import opened Scheduler
  import opened QueueObject
  import opened Admission

  class HoldHandle {
    const id: nat
    const cost: Cost
    var started: bool
    var generation: nat
    var exhausted: bool

    function Model(): Hold
      reads this
    {
      Hold(cost, started, generation, exhausted)
    }

    constructor (id: nat, cost: Cost)
      ensures this.id == id && Model() == Hold(cost, false, 0, false)
    {
      this.id, this.cost := id, cost;
      started, generation, exhausted := false, 0, false;
    }

    /** The final quota and recovery check before any wire debit. */
    method Start(queue: AdmissionQueue, now: nat) returns (ok: bool)
      modifies this, queue.ledger
      ensures (queue.Model(), Model(), ok) == HoldStart(old(queue.Model()), now, id, old(Model()))
    {
      if !started {
        if !CanStart(queue.Model(), now, id, cost) { return false; }
        started := queue.ledger.Start(now, id);
        generation := queue.generation;
      }
      return started;
    }

    method Headers(queue: AdmissionQueue, now: nat, status: Status, delay: Option<nat>, hint: Option<Hint>)
      modifies this, queue
      ensures (queue.Model(), Model()) == HoldHeaders(old(queue.Model()), now, id, old(Model()), status, delay, hint)
    {
      if status == TooManyRequests && delay.Some? {
        queue.cooldownUntil := Max(queue.cooldownUntil, now + delay.value);
      }
      if hint.Some? {
        queue.ArmRecovery(now, hint.value.delay, hint.value.generationOnly || IsGeneration(cost));
        exhausted := true;
      }
      if status == OK {
        queue.Accepted(now, id, generation);
      } else if status != TooManyRequests {
        queue.ReleaseProbe(id);
      }
    }

    method Rejected(queue: AdmissionQueue, now: nat, recognized: bool, hasTiming: bool, missingTiming: bool,
        jitter: nat)
      requires queue.stage < |STAGES|
      modifies queue
      ensures queue.Model() == HoldRejected(old(queue.Model()), now, id, Model(), recognized, hasTiming,
          missingTiming, jitter)
    {
      if recognized && !exhausted {
        if hasTiming || missingTiming {
          queue.Throttle(now, generation, cost, hasTiming, jitter);
        }
      }
      queue.ReleaseProbe(id);
    }

    /** What dropping the hold does: settle the reservation, give up the probe. */
    method Release(queue: AdmissionQueue, now: nat, usage: Option<nat>)
      modifies queue, queue.ledger
      ensures queue.Model() == HoldDrop(old(queue.Model()), now, id, Model(), usage)
    {
      if started {
        var _ := queue.ledger.Finish(now, id, usage);
      } else {
        var _ := queue.ledger.Cancel(now, id);
      }
      queue.ReleaseProbe(id);
    }
  }
}
