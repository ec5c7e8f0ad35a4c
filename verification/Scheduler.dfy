/**
  The admission queue: first-in first-out inside a root, round robin between roots, with an
  age and bypass barrier, and the recovery gate that follows an upstream rejection.

  Everything here is a function on an immutable `Queue`; `QueueObject` runs the same
  operations in place.  A result cell is known by the sequence number of its ticket, and
  `cells` holds the results that were written and not yet taken.
 */
module Scheduler {
  import opened Prelude
  import opened Quota

  const MAX_WAITING: nat := 64
  const MAX_BYPASSES: nat := 8
  const MAX_AGE: nat := 5 * SECOND

  datatype Waiting = Waiting(cost: Cost, enqueued: nat, deadline: nat, sequence: nat, bypasses: nat)

  datatype Recovery = Recovery(generationOnly: bool, probe: Option<nat>)

  datatype Barrier = Barrier(root: nat, sequence: nat)

  datatype Outcome = Granted(id: nat) | Expired

  datatype Queue = Queue(
    ledger: State, cooldownUntil: nat, generation: nat, recovery: Option<Recovery>, stage: nat,
    roots: seq<seq<Waiting>>, cursor: nat, sequence: nat, barrier: Option<Barrier>,
    cells: map<nat, Outcome>)

  function NewQueue(ledger: State, roots: nat): Queue {
    Queue(ledger, 0, 0, None, 0, seq(roots, _ => []), 0, 0, None, map[])
  }

  function Len(roots: seq<seq<Waiting>>): nat {
    if roots == [] then 0 else Len(roots[..|roots| - 1]) + |roots[|roots| - 1]|
  }

  /** A line in the order of its sequence numbers. */
  predicate Sorted(s: seq<Waiting>) { forall i, j :: 0 <= i < j < |s| ==> s[i].sequence < s[j].sequence }

  // ---------------------------------------------------------------- recovery gate

  predicate IsGeneration(cost: Cost) { !cost.Metadata? }

  /** Whether the gate, if one is armed, lets a request of this cost be considered. */
  predicate Eligible(recovery: Option<Recovery>, cost: Cost) {
    recovery.None? || (recovery.value.generationOnly && !IsGeneration(cost)) || recovery.value.probe.None?
  }

  predicate CanStart(q: Queue, now: nat, id: nat, cost: Cost) {
    && q.cooldownUntil <= now
    && (|| q.recovery.None?
        || (q.recovery.value.generationOnly && !IsGeneration(cost))
        || q.recovery.value.probe == Some(id))
  }

  function ArmRecovery(q: Queue, now: nat, delay: nat, generationOnly: bool): Queue {
    q.(cooldownUntil := Max(q.cooldownUntil, now + delay),
       generation := q.generation + 1,
       recovery := Some(Recovery(generationOnly || (q.recovery.Some? && q.recovery.value.generationOnly), None)))
  }

  const STAGES: seq<nat> := [1, 3, 5, 10, 20, 30]
  /** A recognized rejection; `jitter` is the random part of a delay without server timing. */
  function Throttle(q: Queue, now: nat, generation: nat, cost: Cost, hasTiming: bool, jitter: nat): Queue
    requires q.stage < |STAGES|
  {
    if generation != q.generation then
      if IsGeneration(cost) && q.recovery.Some? && !q.recovery.value.generationOnly then
        var probe := q.recovery.value.probe;
        if probe.Some? && IsActiveGeneration(q.ledger, probe.value) then
          q.(recovery := Some(Recovery(true, probe)))
        else
          q.(recovery := Some(Recovery(true, None)), generation := q.generation + 1)
      else q
    else if hasTiming then ArmRecovery(q, now, 0, IsGeneration(cost))
    else
      ArmRecovery(q.(stage := Min(q.stage + 1, |STAGES| - 1)), now, STAGES[q.stage] * SECOND + jitter,
          IsGeneration(cost))
  }

  predicate Heals(q: Queue, now: nat, id: nat, generation: nat) {
    generation == q.generation && q.cooldownUntil <= now && q.recovery.Some? && q.recovery.value.probe == Some(id)
  }

  function Accepted(q: Queue, now: nat, id: nat, generation: nat): Queue {
    if Heals(q, now, id, generation) then q.(recovery := None, stage := 0) else q
  }

  function ReleaseProbe(q: Queue, id: nat): Queue {
    if q.recovery.Some? && q.recovery.value.probe == Some(id)
    then q.(recovery := Some(q.recovery.value.(probe := None))) else q
  }

  // ---------------------------------------------------------------- joining and leaving

  datatype Joined = Ticket(sequence: nat) | InvalidRoot | OverBudget | QueueFull

  function Enqueue(q: Queue, root: nat, cost: Cost, enqueued: nat, deadline: nat): (Queue, Joined) {
    if |q.roots| <= root then (q, InvalidRoot)
    else if !TotalFits(q.ledger.config, cost) then (q, OverBudget)
    else if MAX_WAITING <= Len(q.roots) then (q, QueueFull)
    else if q.sequence == U64_MAX then (q, QueueFull)
    else
      var w := Waiting(cost, enqueued, deadline, q.sequence + 1, 0);
      (q.(sequence := q.sequence + 1, roots := q.roots[root := q.roots[root] + [w]]), Ticket(q.sequence + 1))
  }

  function Without(s: seq<Waiting>, sequence: nat): seq<Waiting> {
    if s == [] then []
    else if s[0].sequence == sequence then s[1..]
    else [s[0]] + Without(s[1..], sequence)
  }

  /** A ticket that is dropped before its result was taken. */
  function Abandon(q: Queue, now: nat, root: nat, sequence: nat): Queue
    requires root < |q.roots|
  {
    var left := q.(roots := q.roots[root := Without(q.roots[root], sequence)], cells := q.cells - {sequence});
    Protect(if sequence in q.cells && q.cells[sequence].Granted? then
              var id := q.cells[sequence].id;
              ReleaseProbe(left.(ledger := Cancel(left.ledger, now, id).0), id)
            else left, now)
  }

  // ---------------------------------------------------------------- the barrier

  predicate Urgent(head: Waiting, now: nat) {
    MAX_BYPASSES <= head.bypasses || MAX_AGE <= Monus(now, head.enqueued)
  }

  predicate Triggered(roots: seq<seq<Waiting>>, now: nat) {
    exists r :: 0 <= r < |roots| && roots[r] != [] && Urgent(roots[r][0], now)
  }

  /** Strictly earlier in the order of arrival time, then sequence. */
  predicate Older(a: Waiting, b: Waiting) {
    a.enqueued < b.enqueued || (a.enqueued == b.enqueued && a.sequence < b.sequence)
  }

  /** The first root among `roots` whose head no other head is older than. */
  function Oldest(roots: seq<seq<Waiting>>): (r: Option<nat>)
    ensures r.Some? ==> r.value < |roots| && roots[r.value] != []
    ensures r.Some? ==> forall i :: 0 <= i < |roots| && roots[i] != [] ==> !Older(roots[i][0], roots[r.value][0])
    ensures r.None? ==> forall i :: 0 <= i < |roots| ==> roots[i] == []
  {
    if roots == [] then None
    else
      var n := |roots| - 1;
      var best := Oldest(roots[..n]);
      if roots[n] == [] then best
      else if best.None? || Older(roots[n][0], roots[best.value][0]) then Some(n)
      else best
  }

  predicate Standing(q: Queue) {
    && q.barrier.Some? && q.barrier.value.root < |q.roots|
    && q.roots[q.barrier.value.root] != []
    && q.roots[q.barrier.value.root][0].sequence == q.barrier.value.sequence
  }

  function Protect(q: Queue, now: nat): Queue {
    if Standing(q) then q
    else if Triggered(q.roots, now) then
      var oldest := Oldest(q.roots);
      q.(barrier := if oldest.None? then None else Some(Barrier(oldest.value, q.roots[oldest.value][0].sequence)))
    else q.(barrier := None)
  }

  // ---------------------------------------------------------------- one drive

  function Unexpired(s: seq<Waiting>, now: nat): (r: seq<Waiting>)
    ensures |r| <= |s|
    ensures forall w :: w in r <==> w in s && now < w.deadline
  {
    if s == [] then []
    else
      var w := s[|s| - 1];
      assert s == s[..|s| - 1] + [w];
      Unexpired(s[..|s| - 1], now) + (if now < w.deadline then [w] else [])
  }

  function ExpireCells(s: seq<Waiting>, now: nat, cells: map<nat, Outcome>): map<nat, Outcome> {
    if s == [] then cells
    else
      var c := ExpireCells(s[..|s| - 1], now, cells);
      if now < s[|s| - 1].deadline then c else c[s[|s| - 1].sequence := Expired]
  }

  function ExpireRoots(roots: seq<seq<Waiting>>, now: nat): (r: seq<seq<Waiting>>)
    ensures |r| == |roots| && forall i :: 0 <= i < |r| ==> r[i] == Unexpired(roots[i], now)
  {
    seq(|roots|, i requires 0 <= i < |roots| => Unexpired(roots[i], now))
  }

  function ExpireAllCells(roots: seq<seq<Waiting>>, now: nat, cells: map<nat, Outcome>): map<nat, Outcome> {
    if roots == [] then cells
    else ExpireCells(roots[|roots| - 1], now, ExpireAllCells(roots[..|roots| - 1], now, cells))
  }

  function Expire(q: Queue, now: nat): Queue {
    q.(roots := ExpireRoots(q.roots, now), cells := ExpireAllCells(q.roots, now, q.cells))
  }

  /** Considering heads moves the ledger's clock, when there is a head to consider. */
  function Inspect(q: Queue, now: nat): Queue {
    if exists r :: 0 <= r < |q.roots| && q.roots[r] != [] then q.(ledger := Advance(q.ledger, now)) else q
  }

  predicate Fits(q: Queue, now: nat, r: nat) {
    && r < |q.roots| && q.roots[r] != []
    && Check(q.ledger, now, q.roots[r][0].cost).1.None?
    && Eligible(q.recovery, q.roots[r][0].cost)
  }

  /** The first fitting root at or after `offset` places past the cursor, cyclically. */
  function FirstFit(q: Queue, now: nat, offset: nat): (r: Option<nat>)
    requires offset <= |q.roots|
    ensures r.Some? ==> Fits(q, now, r.value)
    decreases |q.roots| - offset
  {
    if offset == |q.roots| then None
    else
      var r := (q.cursor + offset) % |q.roots|;
      if Fits(q, now, r) then Some(r) else FirstFit(q, now, offset + 1)
  }

  function Select(q: Queue, now: nat): (r: Option<nat>)
    ensures r.Some? ==> Fits(q, now, r.value)
  {
    if q.barrier.Some? then
      if Fits(q, now, q.barrier.value.root) then Some(q.barrier.value.root) else None
    else FirstFit(q, now, 0)
  }

  function Bypassed(w: Waiting): Waiting { w.(bypasses := Min(w.bypasses + 1, U8_MAX)) }

  /** Every other head that did not fit this selection is charged one bypass. */
  function BypassRoots(q: Queue, now: nat, root: nat): (r: seq<seq<Waiting>>)
    ensures |r| == |q.roots|
    ensures forall i :: 0 <= i < |r| ==> r[i] == BypassRoot(q, now, root, i)
  {
    seq(|q.roots|, i requires 0 <= i < |q.roots| => BypassRoot(q, now, root, i))
  }

  function BypassRoot(q: Queue, now: nat, root: nat, i: nat): seq<Waiting>
    requires i < |q.roots|
  {
    if i != root && !Fits(q, now, i) && q.roots[i] != [] then q.roots[i][0 := Bypassed(q.roots[i][0])] else q.roots[i]
  }

  /** The queue after the head of `root` has been reserved. */
  function Grant(q: Queue, now: nat, root: nat): Queue
    requires Fits(q, now, root)
  {
    var head := q.roots[root][0];
    var roots := BypassRoots(q, now, root);
    var (ledger, decision) := Admit(q.ledger, now, head.cost);
    var id := decision.id;
    q.(ledger := ledger,
       roots := roots[root := roots[root][1..]],
       recovery := if q.recovery.Some? && (!q.recovery.value.generationOnly || IsGeneration(head.cost))
                   then Some(q.recovery.value.(probe := Some(id))) else q.recovery,
       cells := q.cells[head.sequence := Granted(id)],
       cursor := (root + 1) % |q.roots|)
  }

  /** One admission as it was decided: the queue it was decided on, when, and which root won. */
  datatype Selection = Selection(before: Queue, now: nat, root: nat)

  function Rounds(q: Queue, now: nat): (r: (Queue, seq<Selection>))
    decreases Len(q.roots)
  {
    var p := Protect(q, now);
    if now < p.cooldownUntil then (p, [])
    else
      var c := Inspect(p, now);
      var root := Select(c, now);
      if root.None? then (c, [])
      else
        GrantShrinks(c, now, root.value);
        var (end, log) := Rounds(Grant(c, now, root.value), now);
        (end, [Selection(c, now, root.value)] + log)
  }

  function DeadlineOf(s: seq<Waiting>): Option<nat> {
    if s == [] then None else Earliest(DeadlineOf(s[..|s| - 1]), Some(s[|s| - 1].deadline))
  }

  function NextDeadline(roots: seq<seq<Waiting>>): Option<nat> {
    if roots == [] then None else Earliest(NextDeadline(roots[..|roots| - 1]), DeadlineOf(roots[|roots| - 1]))
  }

  function AgeOf(s: seq<Waiting>, now: nat): Option<nat> {
    if s != [] && now < s[0].enqueued + MAX_AGE then Some(s[0].enqueued + MAX_AGE) else None
  }

  function NextAge(roots: seq<seq<Waiting>>, now: nat): Option<nat> {
    if roots == [] then None else Earliest(NextAge(roots[..|roots| - 1], now), AgeOf(roots[|roots| - 1], now))
  }

  function Wake(q: Queue, now: nat): Option<nat> {
    if Len(q.roots) == 0 then None
    else
      Earliest(Earliest(NextDeadline(q.roots), NextAge(q.roots, now)),
               if now < q.cooldownUntil then Some(q.cooldownUntil) else NextWake(q.ledger))
  }

  datatype Driven = Driven(queue: Queue, log: seq<Selection>, wake: Option<nat>)

  function Drive(q: Queue, now: nat): Driven {
    var (end, log) := Rounds(Expire(q, now), now);
    Driven(end, log, Wake(end, now))
  }

  // ---------------------------------------------------------------- facts about the pieces

  /** A head that fits is admitted: the branch the program calls unreachable is. */
  lemma FitsAdmits(q: Queue, now: nat, root: nat)
    requires Fits(q, now, root)
    ensures Admit(q.ledger, now, q.roots[root][0].cost).1 == Admitted(q.ledger.next + 1)
  {}

  lemma {:induction false} LenUpdate(roots: seq<seq<Waiting>>, i: nat, s: seq<Waiting>)
    requires i < |roots|
    ensures Len(roots[i := s]) == Len(roots) - |roots[i]| + |s|
  {
    var n := |roots| - 1;
    if i < n {
      assert roots[i := s][..n] == roots[..n][i := s];
      LenUpdate(roots[..n], i, s);
    } else {
      assert roots[i := s][..n] == roots[..n];
    }
  }

  lemma {:induction false} LenSame(a: seq<seq<Waiting>>, b: seq<seq<Waiting>>)
    requires |a| == |b| && forall i :: 0 <= i < |a| ==> |a[i]| == |b[i]|
    ensures Len(a) == Len(b)
  {
    if a != [] {
      LenSame(a[..|a| - 1], b[..|b| - 1]);
    }
  }

  lemma {:induction false} LenZero(roots: seq<seq<Waiting>>)
    ensures Len(roots) == 0 <==> forall r :: 0 <= r < |roots| ==> roots[r] == []
  {
    if roots != [] {
      var n := |roots| - 1;
      LenZero(roots[..n]);
      assert forall r :: 0 <= r < n ==> roots[..n][r] == roots[r];
    }
  }

  lemma GrantShrinks(q: Queue, now: nat, root: nat)
    requires Fits(q, now, root)
    ensures Len(Grant(q, now, root).roots) == Len(q.roots) - 1
  {
    var roots := BypassRoots(q, now, root);
    LenSame(roots, q.roots);
    LenUpdate(roots, root, roots[root][1..]);
  }
}
