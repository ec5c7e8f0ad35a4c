/**
  Tickets and holds: who owns each reservation between the lock-holding sections.

  Every section that runs under the queue lock is one step.  A ticket waits for its result;
  a hold owns a reservation from the moment its result is taken until it is dropped.
 */
module Admission {
  import opened Prelude
  import opened Quota
  import opened Scheduler
  import opened LedgerStages

  /** A request that has joined and not yet taken its result. */
  datatype Pending = Pending(root: nat, cost: Cost)

  datatype Hold = Hold(cost: Cost, started: bool, generation: nat, exhausted: bool)

  datatype Status = OK | TooManyRequests | Other

  datatype Hint = Hint(delay: nat, generationOnly: bool)

  // ---------------------------------------------------------------- what a hold does to the queue

  function HoldStart(q: Queue, now: nat, id: nat, h: Hold): (Queue, Hold, bool) {
    if h.started then (q, h, true)
    else if !CanStart(q, now, id, h.cost) then (q, h, false)
    else
      var (ledger, ok) := Start(q.ledger, now, id);
      (q.(ledger := ledger), h.(started := ok, generation := q.generation), ok)
  }

  /** Response headers: a server delay, an exhaustion hint and the status, in that order. */
  function HoldHeaders(q: Queue, now: nat, id: nat, h: Hold, status: Status, delay: Option<nat>, hint: Option<Hint>)
    : (Queue, Hold)
  {
    var cooled := if status == TooManyRequests && delay.Some?
                  then q.(cooldownUntil := Max(q.cooldownUntil, now + delay.value)) else q;
    var armed := if hint.Some?
                 then ArmRecovery(cooled, now, hint.value.delay, hint.value.generationOnly || IsGeneration(h.cost))
                 else cooled;
    (match status
     case OK => Accepted(armed, now, id, h.generation)
     case TooManyRequests => armed
     case Other => ReleaseProbe(armed, id),
     h.(exhausted := h.exhausted || hint.Some?))
  }

  /** Whether a rejected body is charged to the shared backoff at all. */
  predicate Counts(h: Hold, recognized: bool, hasTiming: bool, missingTiming: bool) {
    recognized && !h.exhausted && (hasTiming || missingTiming)
  }

  function HoldRejected(
      q: Queue, now: nat, id: nat, h: Hold, recognized: bool, hasTiming: bool, missingTiming: bool, jitter: nat): Queue
    requires q.stage < |STAGES|
  {
    ReleaseProbe(if Counts(h, recognized, hasTiming, missingTiming)
                 then Throttle(q, now, h.generation, h.cost, hasTiming, jitter) else q, id)
  }

  function HoldDrop(q: Queue, now: nat, id: nat, h: Hold, usage: Option<nat>): Queue {
    var ledger := if h.started then Finish(q.ledger, now, id, usage).0 else Cancel(q.ledger, now, id).0;
    ReleaseProbe(q.(ledger := ledger), id)
  }

  // ---------------------------------------------------------------- the protocol

  /** What was true of the gate when a hold started. */
  datatype Launch = Launch(armed: bool, generationOnly: bool, probe: Option<nat>)

  function LaunchUnder(r: Option<Recovery>): Launch {
    Launch(r.Some?, r.Some? && r.value.generationOnly, if r.Some? then r.value.probe else None)
  }

  /** One use of the no-hint backoff table: the generation it was charged to and its stage. */
  datatype Backoff = Backoff(generation: nat, stage: nat)

  datatype World = World(
    queue: Queue, tickets: map<nat, Pending>, holds: map<nat, Hold>,
    launches: map<nat, Launch>, backoffs: seq<Backoff>)

  datatype Step =
    | Join(now: nat, root: nat, cost: Cost, enqueued: nat, deadline: nat)
    | Poll(now: nat, ticket: nat)
    | DropTicket(now: nat, ticket: nat)
    | StartHold(now: nat, id: nat)
    | Headers(now: nat, id: nat, status: Status, delay: Option<nat>, hint: Option<Hint>)
    | Rejected(now: nat, id: nat, recognized: bool, hasTiming: bool, missingTiming: bool, jitter: nat)
    | DropHold(now: nat, id: nat, usage: Option<nat>)
    | Cooldown(now: nat, wait: nat)
    | Look(now: nat)

  function Take(q: Queue, tickets: map<nat, Pending>, holds: map<nat, Hold>, t: nat)
    : (Queue, map<nat, Pending>, map<nat, Hold>)
  {
    if t !in q.cells || t !in tickets then (q, tickets, holds)
    else
      (q.(cells := q.cells - {t}), tickets - {t},
       if q.cells[t].Granted? then holds[q.cells[t].id := Hold(tickets[t].cost, false, 0, false)] else holds)
  }

  function Apply(w: World, s: Step): World
    requires w.queue.stage < |STAGES|
  {
    match s
    case Join(now, root, cost, enqueued, deadline) =>
      var (q, joined) := Enqueue(Drive(w.queue, now).queue, root, cost, enqueued, deadline);
      w.(queue := q, tickets := if joined.Ticket? then w.tickets[joined.sequence := Pending(root, cost)] else w.tickets)
    case Poll(now, t) =>
      if t !in w.tickets then w
      else
        var (q, tickets, holds) := Take(Drive(w.queue, now).queue, w.tickets, w.holds, t);
        w.(queue := q, tickets := tickets, holds := holds)
    case DropTicket(now, t) =>
      if t !in w.tickets || |w.queue.roots| <= w.tickets[t].root then w
      else w.(queue := Abandon(w.queue, now, w.tickets[t].root, t), tickets := w.tickets - {t})
    case StartHold(now, id) =>
      if id !in w.holds then w
      else
        var (q, h, ok) := HoldStart(w.queue, now, id, w.holds[id]);
        var r := w.queue.recovery;
        w.(queue := q, holds := w.holds[id := h],
           launches := if ok && !w.holds[id].started
                       then w.launches[id := LaunchUnder(r)]
                       else w.launches)
    case Headers(now, id, status, delay, hint) =>
      if id !in w.holds then w
      else
        var (q, h) := HoldHeaders(w.queue, now, id, w.holds[id], status, delay, hint);
        w.(queue := q, holds := w.holds[id := h])
    case Rejected(now, id, recognized, hasTiming, missingTiming, jitter) =>
      if id !in w.holds then w
      else
        var h := w.holds[id];
        w.(queue := HoldRejected(w.queue, now, id, h, recognized, hasTiming, missingTiming, jitter),
           backoffs := if Counts(h, recognized, hasTiming, missingTiming) && !hasTiming
                          && h.generation == w.queue.generation
                       then w.backoffs + [Backoff(h.generation, w.queue.stage)] else w.backoffs)
    case DropHold(now, id, usage) =>
      if id !in w.holds then w
      else w.(queue := HoldDrop(w.queue, now, id, w.holds[id], usage), holds := w.holds - {id})
    case Cooldown(now, wait) => w.(queue := w.queue.(cooldownUntil := Max(w.queue.cooldownUntil, now + wait)))
    case Look(now) => w.(queue := w.queue.(ledger := Advance(w.queue.ledger, now)))
  }

  // ---------------------------------------------------------------- the invariant

  ghost predicate InCell(cells: map<nat, Outcome>, id: nat) { exists t :: t in cells && cells[t] == Granted(id) }

  /** Active reservations are exactly those in untaken cells and those of live holds. */
  ghost predicate Owns(l: State, cells: map<nat, Outcome>, tickets: map<nat, Pending>, holds: map<nat, Hold>) {
    && Wellformed(l)
    && (forall id :: id in holds ==> StageOf(l.entries, id) == Some(Stage(holds[id].started, holds[id].cost.Metadata?)))
    && (forall t :: t in cells ==> t in tickets)
    && (forall t :: t in cells && cells[t].Granted? ==>
          && StageOf(l.entries, cells[t].id) == Some(Stage(false, tickets[t].cost.Metadata?))
          && cells[t].id !in holds)
    && (forall t, u :: t in cells && u in cells && t != u && cells[t].Granted? ==> cells[t] != cells[u])
    && (forall id :: StageOf(l.entries, id).Some? ==> id in holds || InCell(cells, id))
  }

  predicate InLine(s: seq<Waiting>, t: nat) { exists i :: 0 <= i < |s| && s[i].sequence == t }

  predicate Belongs(w: Waiting, r: nat, cells: map<nat, Outcome>, tickets: map<nat, Pending>) {
    w.sequence in tickets && tickets[w.sequence] == Pending(r, w.cost) && w.sequence !in cells
  }

  /** Every waiting request has its ticket, and every ticket waits in line or has its result. */
  ghost predicate Lined(q: Queue, tickets: map<nat, Pending>) {
    && (forall r :: 0 <= r < |q.roots| ==> Sorted(q.roots[r]))
    && (forall r, i :: 0 <= r < |q.roots| && 0 <= i < |q.roots[r]| ==> Belongs(q.roots[r][i], r, q.cells, tickets))
    && (forall t :: t in tickets ==> Accounted(q, t, tickets[t]))
  }

  predicate Accounted(q: Queue, t: nat, p: Pending) {
    t <= q.sequence && p.root < |q.roots| && (t in q.cells || InLine(q.roots[p.root], t))
  }

  /** The probe, if any, is an active reservation - of the generation kind if the gate asks for it. */
  ghost predicate Gated(q: Queue) {
    && q.stage < |STAGES|
    && (q.recovery.Some? ==> 1 <= q.generation)
    && (q.recovery.Some? && q.recovery.value.probe.Some? ==>
          var stage := StageOf(q.ledger.entries, q.recovery.value.probe.value);
          stage.Some? && (q.recovery.value.generationOnly ==> !stage.value.metadata))
  }

  /** What is remembered about holds that started under the current generation. */
  predicate Remembered(q: Queue, id: nat, h: Hold, launches: map<nat, Launch>) {
    && (if h.started then h.generation <= q.generation else h.generation == 0)
    && (h.started && h.generation == q.generation && q.recovery.Some? ==>
          && id in launches
          && launches[id].armed
          && (launches[id].probe == Some(id) || (launches[id].generationOnly && h.cost.Metadata?))
          && (launches[id].generationOnly ==> q.recovery.value.generationOnly))
  }

  predicate AllRemembered(q: Queue, holds: map<nat, Hold>, launches: map<nat, Launch>) {
    forall id :: id in holds ==> Remembered(q, id, holds[id], launches)
  }

  /** Backoffs are charged to strictly increasing, already past generations. */
  predicate Spent(q: Queue, backoffs: seq<Backoff>) {
    && (forall i, j :: 0 <= i < j < |backoffs| ==> backoffs[i].generation < backoffs[j].generation)
    && (forall i :: 0 <= i < |backoffs| ==> backoffs[i].generation < q.generation)
  }

  /** The clauses of the invariant; a proof that needs them all unfolds it. */
  datatype Tenet = Owning | InLines | Gating | Memory | Charges

  ghost predicate Upheld(c: Tenet, w: World) {
    match c
    case Owning => Owns(w.queue.ledger, w.queue.cells, w.tickets, w.holds)
    case InLines => Lined(w.queue, w.tickets)
    case Gating => Gated(w.queue)
    case Memory => AllRemembered(w.queue, w.holds, w.launches)
    case Charges => Spent(w.queue, w.backoffs)
  }

  ghost predicate Inv(w: World) { w.queue.stage < |STAGES| && forall c :: Upheld(c, w) }

  ghost predicate Unfolded(w: World) {
    && Owns(w.queue.ledger, w.queue.cells, w.tickets, w.holds)
    && Lined(w.queue, w.tickets)
    && Gated(w.queue)
    && AllRemembered(w.queue, w.holds, w.launches)
    && Spent(w.queue, w.backoffs)
  }

  lemma Unfold(w: World)
    requires Inv(w)
    ensures Unfolded(w)
  {
    assert Upheld(Owning, w) && Upheld(InLines, w) && Upheld(Gating, w) && Upheld(Memory, w) && Upheld(Charges, w);
  }

  lemma Fold(w: World)
    requires Unfolded(w)
    ensures Inv(w)
  {
    forall c ensures Upheld(c, w) {}
  }
}
