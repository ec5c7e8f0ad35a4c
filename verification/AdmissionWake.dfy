/**
  Waiting for admission: each waiter registers for the notification, drives the queue under the
  lock, and sleeps until the notification or the alarm of its own drive.  No interleaving lets
  it sleep through its result.

  Drives read the clock under the lock, so their times never go back; other steps may be late.
 */
module AdmissionWake {
  import opened Prelude
  import opened Quota
  import opened Scheduler
  import opened SchedulerWake
  import opened Admission
  import Ownership
  import SchedulerFairness

  /** A sleeping waiter: the notification epoch it registered in and the alarm it set. */
  datatype Sleep = Sleep(registered: nat, wake: Option<nat>)

  datatype Net = Net(
    base: World, clock: nat, epoch: nat, owed: nat, registered: map<nat, nat>, asleep: map<nat, Sleep>)

  datatype Move =
    | Register(ticket: nat)
    | Act(step: Step)
    | Tick(now: nat)
    | Notify

  predicate Due(wake: Option<nat>, clock: nat) { wake.Some? && wake.value <= clock }

  /** Steps that the program can take where it stands. */
  predicate Enabled(n: Net, m: Move) {
    match m
    case Register(t) =>
      t in n.base.tickets &&
      (t in n.asleep ==> n.asleep[t].registered < n.epoch || Due(n.asleep[t].wake, n.clock))
    case Act(s) =>
      && n.base.queue.stage < |STAGES|
      && (s.Join? ==> n.clock <= s.now)
      && (s.Poll? ==>
            n.clock <= s.now && s.ticket in n.base.tickets && s.ticket in n.registered && s.ticket !in n.asleep)
    case Tick(now) => n.clock <= now
    case Notify => 0 < n.owed
  }

  /** Whether a step goes on to wake every waiter. */
  predicate Notifies(w: World, s: Step)
    requires w.queue.stage < |STAGES|
  {
    match s
    case Join(now, root, cost, enqueued, deadline) =>
      var d := Drive(w.queue, now).queue;
      Len(d.roots) != Len(w.queue.roots) || Enqueue(d, root, cost, enqueued, deadline).1.Ticket?
    case Poll(now, t) =>
      var d := Drive(w.queue, now).queue;
      Len(d.roots) != Len(w.queue.roots) || (t in d.cells && t in w.tickets)
    case DropTicket(_, t) => t in w.tickets
    case StartHold(now, id) => id in w.holds && !w.holds[id].started && CanStart(w.queue, now, id, w.holds[id].cost)
    case Headers(_, id, _, _, _) => id in w.holds
    case Rejected(_, id, _, _, _, _) => id in w.holds
    case DropHold(_, id, _) => id in w.holds
    case Cooldown(_, _) => true
    case Look(_) => false
  }

  function ApplyMove(n: Net, m: Move): Net
    requires Enabled(n, m)
  {
    match m
    case Register(t) => n.(registered := n.registered[t := n.epoch], asleep := n.asleep - {t})
    case Act(s) =>
      n.(base := Apply(n.base, s), clock := Max(n.clock, s.now),
         owed := if Notifies(n.base, s) then n.owed + 1 else n.owed,
         asleep := if s.Poll? && s.ticket !in Drive(n.base.queue, s.now).queue.cells
                   then n.asleep[s.ticket := Sleep(n.registered[s.ticket], Drive(n.base.queue, s.now).wake)]
                   else n.asleep)
    case Tick(now) => n.(clock := now)
    case Notify => n.(epoch := n.epoch + 1, owed := n.owed - 1)
  }

  function Run(n: Net, moves: seq<Move>): Net {
    if moves == [] then n
    else
      var f, m := Run(n, moves[..|moves| - 1]), moves[|moves| - 1];
      if Enabled(f, m) then ApplyMove(f, m) else f
  }

  // ---------------------------------------------------------------- quiet queues

  predicate Before(t: nat, wake: Option<nat>) { wake.Some? ==> t < wake.value }

  /** A drive at `t` admits nobody, expires nobody and changes nothing but the ledger's clock. */
  predicate Silent(q: Queue, t: nat) { Drive(q, t).log == [] && SameButClock(Drive(q, t).queue, q) }

  ghost predicate Quiet(q: Queue, clock: nat, wake: Option<nat>) {
    forall t: nat :: clock <= t && Before(t, wake) ==> Silent(q, t)
  }

  predicate Headed(q: Queue) { exists r :: 0 <= r < |q.roots| && q.roots[r] != [] }

  lemma ReadyLater(q: Queue, a: nat, t: nat)
    requires a <= t
    ensures var p := q.(ledger := Advance(q.ledger, a));
      && Protect(p, t) == Protect(q, t).(ledger := p.ledger)
      && Select(SchedulerFairness.Ready(p, t), t) == Select(SchedulerFairness.Ready(q, t), t)
      && SameButClock(SchedulerFairness.Ready(p, t), Protect(q, t))
  {
    var p := q.(ledger := Advance(q.ledger, a));
    AdvanceLater(q.ledger, a, t);
    if !Headed(q) {
      assert q.roots == Protect(q, t).roots && !Headed(Protect(q, t)) && !Headed(Protect(p, t));
      NoFit(Protect(q, t), t, 0);
      NoFit(Protect(p, t), t, 0);
    } else {
      assert Headed(Protect(q, t)) && Headed(Protect(p, t));
      assert SchedulerFairness.Ready(p, t) == SchedulerFairness.Ready(q, t);
    }
  }

  /** Moving the ledger's clock is invisible to later drives that have nothing to do. */
  lemma SilentLater(q: Queue, a: nat, t: nat)
    requires a <= t && Silent(q, t)
    ensures Silent(q.(ledger := Advance(q.ledger, a)), t)
  {
    var p := q.(ledger := Advance(q.ledger, a));
    var e := Expire(q, t);
    assert Expire(p, t) == e.(ledger := Advance(e.ledger, a));
    ReadyLater(e, a, t);
    SchedulerFairness.RoundsOnce(e, t);
    SchedulerFairness.RoundsOnce(Expire(p, t), t);
  }

  lemma SilentLedger(q: Queue, t: nat)
    requires Silent(q, t)
    ensures Drive(q, t).queue == q || Drive(q, t).queue == q.(ledger := Advance(q.ledger, t))
  {
    SchedulerFairness.RoundsOnce(Expire(q, t), t);
  }

  /** A queue that stays silent until an alarm is no less quiet after a drive before the alarm. */
  lemma QuietDriven(q: Queue, clock: nat, t: nat, wake: Option<nat>)
    requires Quiet(q, clock, wake) && clock <= t && Before(t, wake)
    ensures Quiet(Drive(q, t).queue, t, wake)
  {
    assert Silent(q, t);
    SilentLedger(q, t);
    if Drive(q, t).queue == q.(ledger := Advance(q.ledger, t)) {
      QuietLooked(q, clock, t, t, wake);
    }
  }

  lemma QuietLooked(q: Queue, clock: nat, a: nat, later: nat, wake: Option<nat>)
    requires Quiet(q, clock, wake) && clock <= later && a <= later
    ensures Quiet(q.(ledger := Advance(q.ledger, a)), later, wake)
  {
    forall t: nat | later <= t && Before(t, wake) ensures Silent(q.(ledger := Advance(q.ledger, a)), t) {
      assert Silent(q, t);
      SilentLater(q, a, t);
    }
  }

  lemma QuietAfterDrive(q: Queue, t: nat)
    ensures Quiet(Drive(q, t).queue, t, Drive(q, t).wake)
  {
    var d := Drive(q, t);
    forall u: nat | t <= u && Before(u, d.wake) ensures Silent(d.queue, u) {
      WakeIsSound(q, t, u);
    }
  }

  // ---------------------------------------------------------------- drives that remove nobody

  lemma {:induction false} FewerExpire(s: seq<Waiting>, t: nat, cells: map<nat, Outcome>)
    ensures |Unexpired(s, t)| <= |s|
    ensures |Unexpired(s, t)| == |s| ==> ExpireCells(s, t, cells) == cells
  {
    if s != [] { FewerExpire(s[..|s| - 1], t, cells); }
  }

  lemma {:induction false} ExpireShrinks(roots: seq<seq<Waiting>>, t: nat, cells: map<nat, Outcome>)
    ensures Len(ExpireRoots(roots, t)) <= Len(roots)
    ensures Len(ExpireRoots(roots, t)) == Len(roots) ==> ExpireAllCells(roots, t, cells) == cells
  {
    if roots != [] {
      var n := |roots| - 1;
      var e := ExpireRoots(roots, t);
      assert e[..n] == ExpireRoots(roots[..n], t);
      assert e[n] == Unexpired(roots[n], t);
      ExpireShrinks(roots[..n], t, cells);
      FewerExpire(roots[n], t, ExpireAllCells(roots[..n], t, cells));
    }
  }

  lemma {:induction false} RoundsShrink(q: Queue, t: nat)
    ensures Len(Rounds(q, t).0.roots) <= Len(q.roots)
    ensures Len(Rounds(q, t).0.roots) == Len(q.roots) ==> Rounds(q, t).0.cells == q.cells
    decreases Len(q.roots)
  {
    var c := SchedulerFairness.Ready(q, t);
    SchedulerFairness.RoundsOnce(q, t);
    if q.cooldownUntil <= t && Select(c, t).Some? {
      var root := Select(c, t).value;
      GrantShrinks(c, t, root);
      RoundsShrink(Grant(c, t, root), t);
    }
  }

  /** A drive that leaves as many waiting as before has written no result. */
  lemma SameLengthSameCells(q: Queue, t: nat)
    ensures Len(Drive(q, t).queue.roots) == Len(q.roots) ==> Drive(q, t).queue.cells == q.cells
  {
    ExpireShrinks(q.roots, t, q.cells);
    RoundsShrink(Expire(q, t), t);
  }

  // ---------------------------------------------------------------- the invariant

  /** Why a sleeper may go on sleeping: it will be woken, or there is nothing for it yet. */
  ghost predicate Attended(n: Net, t: nat, s: Sleep) {
    && s.registered <= n.epoch
    && (|| s.registered < n.epoch || 0 < n.owed
        || (t !in n.base.queue.cells && (Due(s.wake, n.clock) || Quiet(n.base.queue, n.clock, s.wake))))
  }

  ghost predicate Watched(n: Net) {
    && (forall t :: t in n.registered ==> n.registered[t] <= n.epoch)
    && (forall t :: t in n.asleep ==> Attended(n, t, n.asleep[t]))
  }

  /** A drive at `now` that removes nobody leaves every sleeper attended. */
  lemma DrivenAttended(n: Net, v: Net, now: nat, t: nat, s: Sleep)
    requires Attended(n, t, s) && n.clock <= now && v.clock == now && v.epoch == n.epoch && v.owed == n.owed
    requires v.base.queue == Drive(n.base.queue, now).queue && Len(v.base.queue.roots) == Len(n.base.queue.roots)
    ensures Attended(v, t, s)
  {
    SameLengthSameCells(n.base.queue, now);
    if Quiet(n.base.queue, n.clock, s.wake) && Before(now, s.wake) {
      QuietDriven(n.base.queue, n.clock, now, s.wake);
    }
  }

  lemma LookedAttended(n: Net, v: Net, now: nat, t: nat, s: Sleep)
    requires Attended(n, t, s) && v.clock == Max(n.clock, now) && v.epoch == n.epoch && v.owed == n.owed
    requires v.base.queue == n.base.queue.(ledger := Advance(n.base.queue.ledger, now))
    ensures Attended(v, t, s)
  {
    if Quiet(n.base.queue, n.clock, s.wake) {
      QuietLooked(n.base.queue, n.clock, now, v.clock, s.wake);
    }
  }

  lemma JoinWatched(n: Net, s: Step)
    requires Watched(n) && Enabled(n, Act(s)) && s.Join? && !Notifies(n.base, s)
    ensures Watched(ApplyMove(n, Act(s)))
  {
    var v := ApplyMove(n, Act(s));
    forall t | t in v.asleep ensures Attended(v, t, v.asleep[t]) {
      DrivenAttended(n, v, s.now, t, n.asleep[t]);
    }
  }

  lemma PollWatched(n: Net, s: Step)
    requires Watched(n) && Enabled(n, Act(s)) && s.Poll? && !Notifies(n.base, s)
    ensures Watched(ApplyMove(n, Act(s)))
  {
    var v := ApplyMove(n, Act(s));
    assert v.base.queue == Drive(n.base.queue, s.now).queue;
    forall t | t in v.asleep ensures Attended(v, t, v.asleep[t]) {
      if t == s.ticket {
        QuietAfterDrive(n.base.queue, s.now);
      } else {
        DrivenAttended(n, v, s.now, t, n.asleep[t]);
      }
    }
  }

  lemma LookWatched(n: Net, s: Step)
    requires Watched(n) && Enabled(n, Act(s)) && s.Look?
    ensures Watched(ApplyMove(n, Act(s)))
  {
    var v := ApplyMove(n, Act(s));
    forall t | t in v.asleep ensures Attended(v, t, v.asleep[t]) {
      LookedAttended(n, v, s.now, t, n.asleep[t]);
    }
  }

  lemma LaterAttended(n: Net, v: Net, t: nat, s: Sleep)
    requires Attended(n, t, s) && v.base.queue == n.base.queue && n.clock <= v.clock && v.epoch == n.epoch
    requires v.owed == n.owed
    ensures Attended(v, t, s)
  {}

  /** Steps that wake nobody and are not drives or looks change nothing in the queue. */
  lemma OtherWatched(n: Net, s: Step)
    requires Watched(n) && Enabled(n, Act(s)) && !s.Join? && !s.Poll? && !s.Look? && !Notifies(n.base, s)
    ensures Watched(ApplyMove(n, Act(s)))
  {
    var v := ApplyMove(n, Act(s));
    assert v.base.queue == n.base.queue;
    forall t | t in v.asleep ensures Attended(v, t, v.asleep[t]) {
      LaterAttended(n, v, t, n.asleep[t]);
    }
  }

  lemma ActWatched(n: Net, s: Step)
    requires Watched(n) && Enabled(n, Act(s))
    ensures Watched(ApplyMove(n, Act(s)))
  {
    if !Notifies(n.base, s) {
      if s.Join? { JoinWatched(n, s); }
      else if s.Poll? { PollWatched(n, s); }
      else if s.Look? { LookWatched(n, s); }
      else { OtherWatched(n, s); }
    }
  }

  lemma MoveWatched(n: Net, m: Move)
    requires Watched(n) && Enabled(n, m)
    ensures Watched(ApplyMove(n, m))
  {
    var v := ApplyMove(n, m);
    match m
    case Act(s) => ActWatched(n, s);
    case Register(_) =>
      forall t | t in v.asleep ensures Attended(v, t, v.asleep[t]) { LaterAttended(n, v, t, n.asleep[t]); }
    case Tick(_) =>
      forall t | t in v.asleep ensures Attended(v, t, v.asleep[t]) { LaterAttended(n, v, t, n.asleep[t]); }
    case Notify =>
  }

  predicate AtRest(n: Net) { Ownership.Initial(n.base) && n.owed == 0 && n.registered == map[] && n.asleep == map[] }

  lemma {:induction false} RunWatched(n: Net, moves: seq<Move>)
    requires AtRest(n)
    ensures Watched(Run(n, moves)) && Inv(Run(n, moves).base)
  {
    if moves != [] {
      RunWatched(n, moves[..|moves| - 1]);
      var f, m := Run(n, moves[..|moves| - 1]), moves[|moves| - 1];
      if Enabled(f, m) {
        MoveWatched(f, m);
        if m.Act? { Ownership.ApplyKeeps(f.base, m.step); }
      }
    }
  }

  /**
    No lost wake-up: in every run, a sleeping waiter's notification has fired or is owed, or
    its result is not ready and its alarm is due or no drive before the alarm does anything.
   */
  lemma NoLostAdmission(n: Net, moves: seq<Move>, t: nat)
    requires AtRest(n) && t in Run(n, moves).asleep
    ensures var f := Run(n, moves); var s := f.asleep[t];
      || s.registered < f.epoch || 0 < f.owed
      || (t !in f.base.queue.cells && (Due(s.wake, f.clock) || Quiet(f.base.queue, f.clock, s.wake)))
  {
    RunWatched(n, moves);
    assert Attended(Run(n, moves), t, Run(n, moves).asleep[t]);
  }
}
