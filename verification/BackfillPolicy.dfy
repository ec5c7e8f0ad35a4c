/**
  The backfill policy of the queue: while a barrier's request does not fit, another head may go
  ahead of it if the ledger's projection keeps the opportunity that the protected request waits for.
 */
module BackfillPolicy {
  import opened Prelude
  import opened Quota
  import opened Scheduler
  import opened SchedulerFairness
  import Backfill

  // ---------------------------------------------------------------- the policy

  /** Whether the head of `r` may go ahead of the head of the protected root. */
  predicate MayBackfill(q: Queue, now: nat, protected: nat, r: nat)
    requires protected < |q.roots| && q.roots[protected] != []
  {
    var head := q.roots[protected][0];
    && r != protected && Fits(q, now, r)
    && BackfillAllowed(Advance(q.ledger, now), head.cost, head.deadline, q.roots[r][0].cost)
  }

  function FirstBackfill(q: Queue, now: nat, protected: nat, offset: nat): (r: Option<nat>)
    requires protected < |q.roots| && q.roots[protected] != [] && offset <= |q.roots|
    ensures r.Some? ==> MayBackfill(q, now, protected, r.value)
    decreases |q.roots| - offset
  {
    if offset == |q.roots| then None
    else
      var r := (q.cursor + offset) % |q.roots|;
      if MayBackfill(q, now, protected, r) then Some(r) else FirstBackfill(q, now, protected, offset + 1)
  }

  function SelectWith(q: Queue, now: nat): (r: Option<nat>)
    ensures r.Some? ==> Fits(q, now, r.value)
  {
    if Select(q, now).Some? || !Standing(q) then Select(q, now)
    else FirstBackfill(q, now, q.barrier.value.root, 0)
  }

  function RoundsWith(q: Queue, now: nat): (r: (Queue, seq<Selection>))
    decreases Len(q.roots)
  {
    var c := Ready(q, now);
    if now < q.cooldownUntil then (Protect(q, now), [])
    else
      var root := SelectWith(c, now);
      if root.None? then (c, [])
      else
        GrantShrinks(c, now, root.value);
        var (end, log) := RoundsWith(Grant(c, now, root.value), now);
        (end, [Selection(c, now, root.value)] + log)
  }

  function DriveWith(q: Queue, now: nat): (Queue, seq<Selection>) { RoundsWith(Expire(q, now), now) }

  // ---------------------------------------------------------------- the protected request

  /** The request that `b` protects heads its line. */
  predicate InFront(q: Queue, b: Barrier) {
    b.root < |q.roots| && q.roots[b.root] != [] && q.roots[b.root][0].sequence == b.sequence
  }

  /** It has left its line for good. */
  predicate Gone(q: Queue, b: Barrier) {
    b.root < |q.roots| && forall i :: 0 <= i < |q.roots[b.root]| ==> q.roots[b.root][i].sequence != b.sequence
  }

  /** The same request, however often it was bypassed. */
  predicate Is(w: Waiting, h: Waiting) { w == h.(bypasses := w.bypasses) }

  /** What the protected request `h` is promised until its opportunity at `at`. */
  predicate Waits(q: Queue, b: Barrier, h: Waiting, at: nat) {
    && q.barrier == Some(b) && InFront(q, b) && Is(q.roots[b.root][0], h) && at < h.deadline
    && Tidy(q.roots[b.root], q.sequence)
    && q.recovery.None? && q.cooldownUntil <= at
    && Backfill.Protected(q.ledger, h.cost, at)
  }

  lemma FrontOrGone(q: Queue, b: Barrier)
    ensures !(InFront(q, b) && Gone(q, b))
  {}

  lemma GrantGone(c: Queue, now: nat, root: nat, b: Barrier)
    requires Fits(c, now, root) && Gone(c, b)
    ensures Gone(Grant(c, now, root), b)
  {
    GrantNumbers(c, now, root, b.root);
  }

  lemma HeadGranted(c: Queue, now: nat, b: Barrier)
    requires Fits(c, now, b.root) && InFront(c, b) && Tidy(c.roots[b.root], c.sequence)
    ensures Gone(Grant(c, now, b.root), b)
  {
    GrantNumbers(c, now, b.root, b.root);
  }

  lemma RoundsWithOnce(q: Queue, now: nat)
    ensures var c := Ready(q, now); var root := SelectWith(c, now);
      && (now < q.cooldownUntil ==> RoundsWith(q, now) == (Protect(q, now), []))
      && (q.cooldownUntil <= now && root.None? ==> RoundsWith(q, now) == (c, []))
      && (q.cooldownUntil <= now && root.Some? ==>
            var (end, rest) := RoundsWith(Grant(c, now, root.value), now);
            RoundsWith(q, now) == (end, [Selection(c, now, root.value)] + rest))
  {}

  lemma {:induction false} RoundsGone(q: Queue, now: nat, b: Barrier)
    requires Gone(q, b)
    ensures Gone(RoundsWith(q, now).0, b)
    decreases Len(q.roots)
  {
    RoundsWithOnce(q, now);
    var c := Ready(q, now);
    if q.cooldownUntil <= now && SelectWith(c, now).Some? {
      var root := SelectWith(c, now).value;
      GrantShrinks(c, now, root);
      GrantGone(c, now, root, b);
      RoundsGone(Grant(c, now, root), now, b);
    }
  }

  /** Considering the heads before `at` keeps the promise. */
  lemma ReadyWaits(q: Queue, now: nat, b: Barrier, h: Waiting, at: nat)
    requires Waits(q, b, h, at) && now <= at
    ensures Waits(Ready(q, now), b, h, at) && Ready(q, now).roots == q.roots
    ensures Ready(q, now).ledger == Advance(q.ledger, now)
  {
    assert Standing(q);
    assert q.roots[b.root] != [];
    Backfill.AdvanceProtects(q.ledger, q.roots[b.root][0].cost, at, now);
  }

  /** A backfilled request takes nothing the protected one was promised. */
  lemma BackfillWaits(c: Queue, now: nat, root: nat, b: Barrier, h: Waiting, at: nat)
    requires Waits(c, b, h, at) && now < at && c.ledger.now < at && Advance(c.ledger, now) == c.ledger
    requires MayBackfill(c, now, b.root, root) && !Fits(c, now, b.root)
    ensures Waits(Grant(c, now, root), b, h, at)
  {
    var head, g := c.roots[b.root][0], Grant(c, now, root);
    GrantRoot(c, now, root, b.root);
    GrantTidy(c, now, root, b.root);
    Backfill.BackfillGrants(c.ledger, head.cost, head.deadline, c.roots[root][0].cost, at);
    assert g.ledger == Backfill.Granted(c.ledger, c.roots[root][0].cost);
  }

  /** A drive before the opportunity serves the protected request early, or keeps its promise. */
  lemma {:induction false} RoundsWait(q: Queue, now: nat, b: Barrier, h: Waiting, at: nat)
    requires Waits(q, b, h, at) && now < at && q.ledger.now < at
    ensures Waits(RoundsWith(q, now).0, b, h, at) || Gone(RoundsWith(q, now).0, b)
    decreases Len(q.roots)
  {
    RoundsWithOnce(q, now);
    var c := Ready(q, now);
    ReadyWaits(q, now, b, h, at);
    assert Protect(q, now) == q;
    if q.cooldownUntil <= now && SelectWith(c, now).Some? {
      var root := SelectWith(c, now).value;
      var g := Grant(c, now, root);
      GrantShrinks(c, now, root);
      if Select(c, now).Some? {
        HeadGranted(c, now, b);
        RoundsGone(g, now, b);
      } else {
        AdvanceTwice(q.ledger, now);
        BackfillWaits(c, now, root, b, h, at);
        GrantClock(c, now, root);
        RoundsWait(g, now, b, h, at);
      }
    }
  }

  lemma GrantClock(c: Queue, now: nat, root: nat)
    requires Fits(c, now, root)
    ensures Grant(c, now, root).ledger.now == Max(c.ledger.now, now)
  {}

  lemma {:induction false} UnexpiredHead(s: seq<Waiting>, t: nat)
    requires s != [] && t < s[0].deadline
    ensures Unexpired(s, t) != [] && Unexpired(s, t)[0] == s[0]
  {
    if 1 < |s| { UnexpiredHead(s[..|s| - 1], t); }
  }

  lemma ExpireWaits(q: Queue, now: nat, b: Barrier, h: Waiting, at: nat)
    requires Waits(q, b, h, at) && now < q.roots[b.root][0].deadline
    ensures var e := Expire(q, now); Waits(e, b, h, at) && e.roots[b.root][0] == q.roots[b.root][0]
  {
    var line := q.roots[b.root];
    UnexpiredHead(line, now);
    UnexpiredThins(line, now);
    ThinnedTidy(Unexpired(line, now), line, q.sequence);
  }

  lemma DriveWaits(q: Queue, now: nat, b: Barrier, h: Waiting, at: nat)
    requires Waits(q, b, h, at) && now < at && q.ledger.now < at
    ensures Waits(DriveWith(q, now).0, b, h, at) || Gone(DriveWith(q, now).0, b)
  {
    ExpireWaits(q, now, b, h, at);
    RoundsWait(Expire(q, now), now, b, h, at);
  }

  /** The first admission of a drive is that of the protected request. */
  predicate ServesFirst(log: seq<Selection>, b: Barrier) {
    log != [] && log[0].root == b.root && InFront(log[0].before, b)
  }

  lemma ServedAt(q: Queue, b: Barrier, h: Waiting, at: nat, t: nat)
    requires Waits(q, b, h, at) && at <= t < h.deadline
    ensures ServesFirst(DriveWith(q, t).1, b)
  {
    var e := Expire(q, t);
    ExpireWaits(q, t, b, h, at);
    RoundsWithOnce(e, t);
    assert Standing(e) && Protect(e, t) == e;
    var c := Ready(e, t);
    assert e.roots[b.root] != [];
    assert c == e.(ledger := Advance(e.ledger, t));
    AdvanceTwice(e.ledger, t);
    Backfill.ProtectedHeadFitsLater(e.ledger, h.cost, at, t);
    assert Fits(c, t, b.root);
    assert SelectWith(c, t) == Some(b.root);
  }

  // ---------------------------------------------------------------- what may happen until then

  /** Starts, cancels and settlements, joins, departures and drives. */
  datatype Move =
    | Act(act: Backfill.Act)
    | Enter(root: nat, cost: Cost, enqueued: nat, deadline: nat)
    | Depart(now: nat, root: nat, ticket: nat)
    | Push(now: nat)

  function Perform(q: Queue, m: Move): Queue {
    match m
    case Act(act) => if act.Backfill? then q else q.(ledger := Backfill.Perform(q.ledger, Metadata, act))
    case Enter(root, cost, enqueued, deadline) => Enqueue(q, root, cost, enqueued, deadline).0
    case Depart(now, root, ticket) => if root < |q.roots| then Abandon(q, now, root, ticket) else q
    case Push(now) => DriveWith(q, now).0
  }

  function PerformAll(q: Queue, moves: seq<Move>): Queue {
    if moves == [] then q else Perform(PerformAll(q, moves[..|moves| - 1]), moves[|moves| - 1])
  }

  /** A move made by `at`; drives come before it, on a clock that is before it. */
  predicate InTime(q: Queue, m: Move, at: nat) {
    match m
    case Act(act) => act.now <= at
    case Enter(_, _, _, _) => true
    case Depart(now, _, _) => now <= at
    case Push(now) => now < at && q.ledger.now < at
  }

  lemma ActWaits(q: Queue, act: Backfill.Act, b: Barrier, h: Waiting, at: nat)
    requires Waits(q, b, h, at) && act.now <= at && !act.Backfill?
    ensures Waits(q.(ledger := Backfill.Perform(q.ledger, Metadata, act)), b, h, at)
  {
    var head := q.roots[b.root][0].cost;
    match act
    case Look(now) => Backfill.AdvanceProtects(q.ledger, head, at, now);
    case Launch(now, id) => Backfill.LaunchProtects(q.ledger, head, at, now, id);
    case Withdraw(now, id) => Backfill.WithdrawProtects(q.ledger, head, at, now, id);
    case Complete(now, id, usage) => Backfill.CompleteProtects(q.ledger, head, at, now, id, usage);
  }

  lemma EnterWaits(q: Queue, m: Move, b: Barrier, h: Waiting, at: nat)
    requires Waits(q, b, h, at) && m.Enter?
    ensures Waits(Perform(q, m), b, h, at)
  {
    var p := Perform(q, m);
    if p.roots != q.roots && m.root == b.root {
      JoinTidy(q.roots[b.root], q.sequence, Waiting(m.cost, m.enqueued, m.deadline, q.sequence + 1, 0));
    }
  }

  lemma DepartWaits(q: Queue, m: Move, b: Barrier, h: Waiting, at: nat)
    requires Waits(q, b, h, at) && m.Depart? && m.now <= at && InFront(Perform(q, m), b)
    ensures Waits(Perform(q, m), b, h, at)
  {
    if m.root < |q.roots| {
      var line, p := q.roots[b.root], Perform(q, m);
      WithoutThins(line, m.ticket);
      ThinnedTidy(Without(line, m.ticket), line, q.sequence);
      AbandonProtects(q, m.now, m.root, m.ticket);
      StaysInFront(q, m, b);
      if m.ticket in q.cells && q.cells[m.ticket].Granted? {
        Backfill.WithdrawProtects(q.ledger, line[0].cost, at, m.now, q.cells[m.ticket].id);
      }
    }
  }

  /** A line that still has its first number in front still has its first request. */
  lemma StaysInFront(q: Queue, m: Move, b: Barrier)
    requires InFront(q, b) && Tidy(q.roots[b.root], q.sequence) && m.Depart? && m.root < |q.roots|
    requires InFront(Perform(q, m), b)
    ensures Perform(q, m).roots[b.root][0] == q.roots[b.root][0]
  {
    var line := q.roots[b.root];
    WithoutThins(line, m.ticket);
    if m.root == b.root { SameHead(Without(line, m.ticket), line); }
  }

  lemma MoveWaits(q: Queue, m: Move, b: Barrier, h: Waiting, at: nat)
    requires Waits(q, b, h, at) && InTime(q, m, at) && InFront(Perform(q, m), b)
    ensures Waits(Perform(q, m), b, h, at)
  {
    match m
    case Act(act) => if !act.Backfill? { ActWaits(q, act, b, h, at); }
    case Enter(_, _, _, _) => EnterWaits(q, m, b, h, at);
    case Depart(_, _, _) => DepartWaits(q, m, b, h, at);
    case Push(now) =>
      DriveWaits(q, now, b, h, at);
      FrontOrGone(Perform(q, m), b);
  }

  /** Every move is made in time, and the protected request is in front after each of them. */
  predicate Patient(q: Queue, moves: seq<Move>, b: Barrier, at: nat) {
    moves == [] ||
      var n := |moves| - 1;
      && Patient(q, moves[..n], b, at)
      && InTime(PerformAll(q, moves[..n]), moves[n], at)
      && InFront(PerformAll(q, moves), b)
  }

  lemma {:induction false} MovesWait(q: Queue, moves: seq<Move>, b: Barrier, h: Waiting, at: nat)
    requires Waits(q, b, h, at) && Patient(q, moves, b, at)
    ensures Waits(PerformAll(q, moves), b, h, at)
  {
    if moves != [] {
      var n := |moves| - 1;
      MovesWait(q, moves[..n], b, h, at);
      MoveWaits(PerformAll(q, moves[..n]), moves[n], b, h, at);
    }
  }

  /** The state in which the policy lets the head of `r` go ahead of a barrier's request. */
  predicate Overtaking(c: Queue, now: nat, b: Barrier, r: nat) {
    && c.barrier == Some(b) && Standing(c) && Tidy(c.roots[b.root], c.sequence)
    && c.recovery.None? && c.cooldownUntil <= now
    && Advance(c.ledger, now) == c.ledger && Backfill.Shaped(c.ledger.entries)
    && Select(c, now).None? && SelectWith(c, now) == Some(r)
  }

  lemma OvertakingWaits(c: Queue, now: nat, b: Barrier, r: nat)
    requires Overtaking(c, now, b, r)
    ensures NextWake(c.ledger).Some? && Waits(Grant(c, now, r), b, c.roots[b.root][0], NextWake(c.ledger).value)
  {
    var head, at := c.roots[b.root][0], NextWake(c.ledger).value;
    assert !Fits(c, now, b.root) && MayBackfill(c, now, b.root, r);
    GrantRoot(c, now, r, b.root);
    GrantTidy(c, now, r, b.root);
    Backfill.AdmissionProtects(c.ledger, head.cost, head.deadline, c.roots[r][0].cost, at);
    assert Grant(c, now, r).ledger == Backfill.Granted(c.ledger, c.roots[r][0].cost);
    WakeIsAhead(c.ledger, now);
  }

  lemma WakeIsAhead(l: State, now: nat)
    requires Advance(l, now) == l && NextWake(l).Some?
    ensures now < NextWake(l).value
  {
    NextExpiryIsEarliest(l.entries, l.now);
  }

  /**
    Backfill keeps the barrier's word: after the policy lets a request go ahead, whatever starts,
    cancels, settlements, joins, departures and policy drives follow in time, the protected
    request - unless it was served early or left - is the first one that a drive at or after the
    projected time admits, and that time is before its deadline.
   */
  lemma BackfilledHeadIsServed(c: Queue, now: nat, b: Barrier, r: nat, moves: seq<Move>, t: nat)
    requires Overtaking(c, now, b, r)
    requires var at := NextWake(c.ledger); at.Some? && Patient(Grant(c, now, r), moves, b, at.value) && at.value <= t
    requires t < c.roots[b.root][0].deadline
    ensures NextWake(c.ledger).value < c.roots[b.root][0].deadline
    ensures ServesFirst(DriveWith(PerformAll(Grant(c, now, r), moves), t).1, b)
  {
    var h, at := c.roots[b.root][0], NextWake(c.ledger).value;
    OvertakingWaits(c, now, b, r);
    MovesWait(Grant(c, now, r), moves, b, h, at);
    ServedAt(PerformAll(Grant(c, now, r), moves), b, h, at, t);
  }
}
