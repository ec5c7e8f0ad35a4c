/**
  The order in which requests are admitted: first-in first-out inside a root, and how far
  round robin can pass over a root that fits.
 */
module SchedulerOrder {
  import opened Prelude
  import opened Quota
  import opened Scheduler
  import opened SchedulerFairness

  // ---------------------------------------------------------------- the admission log

  /** What every admission in a log owes to the queue it was decided on. */
  predicate Decided(s: Selection, roots: nat) {
    && |s.before.roots| == roots
    && s.before.cursor < roots
    && Select(s.before, s.now) == Some(s.root)
    && (s.before.barrier.Some? ==> Standing(s.before))
  }

  function Chosen(s: Selection): Waiting
    requires s.root < |s.before.roots| && s.before.roots[s.root] != []
  {
    s.before.roots[s.root][0]
  }

  /** The cursor stands one place past the last admitted root, going round. */
  predicate Arrived(cursor: nat, log: seq<Selection>, roots: nat) {
    log != [] && 0 < roots ==> cursor == (log[|log| - 1].root + 1) % roots
  }

  predicate Linked(log: seq<Selection>, roots: nat) {
    forall i :: 0 <= i < |log| ==> Arrived(log[i].before.cursor, log[..i], roots)
  }

  predicate AllDecided(log: seq<Selection>, roots: nat) { forall i :: 0 <= i < |log| ==> Decided(log[i], roots) }

  predicate Chained(q: Queue, log: seq<Selection>, roots: nat) {
    && |q.roots| == roots
    && (roots == 0 || q.cursor < roots)
    && AllDecided(log, roots)
    && Linked(log, roots)
    && Arrived(q.cursor, log, roots)
  }

  /** Later admissions of a root have later sequence numbers, and so has everything still waiting. */
  predicate InOrder(q: Queue, log: seq<Selection>, roots: nat)
    requires |q.roots| == roots && AllDecided(log, roots)
  {
    && (forall i, j :: 0 <= i < j < |log| && log[i].root == log[j].root
          ==> Chosen(log[i]).sequence < Chosen(log[j]).sequence)
    && (forall i, x :: 0 <= i < |log| && 0 <= x < |q.roots[log[i].root]|
          ==> Chosen(log[i]).sequence < q.roots[log[i].root][x].sequence)
    && (forall i :: 0 <= i < |log| ==> Chosen(log[i]).sequence <= q.sequence)
  }

  predicate Logged(q: Queue, log: seq<Selection>, roots: nat) { Chained(q, log, roots) && InOrder(q, log, roots) }

  lemma LinkedSnoc(log: seq<Selection>, s: Selection, roots: nat)
    requires Linked(log, roots) && Arrived(s.before.cursor, log, roots)
    ensures Linked(log + [s], roots)
  {
    var all := log + [s];
    forall i | 0 <= i < |all| ensures Arrived(all[i].before.cursor, all[..i], roots) {
      assert all[..i] == log[..i];
      assert log[..|log|] == log;
    }
  }

  lemma GrantCursor(q: Queue, now: nat, root: nat)
    requires Fits(q, now, root)
    ensures var g := Grant(q, now, root);
      g.cursor == (root + 1) % |q.roots| && g.cursor < |q.roots| && |g.roots| == |q.roots|
  {}

  lemma GrantChained(q: Queue, now: nat, root: nat, log: seq<Selection>, roots: nat)
    requires Chained(q, log, roots) && Select(q, now) == Some(root) && (q.barrier.Some? ==> Standing(q))
    ensures Chained(Grant(q, now, root), log + [Selection(q, now, root)], roots)
  {
    var s := Selection(q, now, root);
    GrantCursor(q, now, root);
    LinkedSnoc(log, s, roots);
    forall i | 0 <= i < |log + [s]| ensures Decided((log + [s])[i], roots) {
      if i < |log| { assert Decided(log[i], roots); }
    }
  }

  lemma GrantInOrder(q: Queue, now: nat, root: nat, log: seq<Selection>, roots: nat)
    requires |q.roots| == roots && AllDecided(log, roots) && InOrder(q, log, roots)
    requires Ordered(q.roots, q.sequence) && Select(q, now) == Some(root)
    requires |Grant(q, now, root).roots| == roots && AllDecided(log + [Selection(q, now, root)], roots)
    ensures InOrder(Grant(q, now, root), log + [Selection(q, now, root)], roots)
  {
    var g, s := Grant(q, now, root), Selection(q, now, root);
    var all := log + [s];
    assert Tidy(q.roots[root], q.sequence);
    forall i, x | 0 <= i < |all| && 0 <= x < |g.roots[all[i].root]|
      ensures Chosen(all[i]).sequence < g.roots[all[i].root][x].sequence
    {
      var r := all[i].root;
      GrantNumbers(q, now, root, r);
      if i < |log| { assert all[i] == log[i]; }
    }
    forall i, j | 0 <= i < j < |all| && all[i].root == all[j].root
      ensures Chosen(all[i]).sequence < Chosen(all[j]).sequence
    {
      LaterInOrder(q, log, roots, s, i, j);
    }
  }

  lemma LaterInOrder(q: Queue, log: seq<Selection>, roots: nat, s: Selection, i: nat, j: nat)
    requires |q.roots| == roots && AllDecided(log, roots) && InOrder(q, log, roots) && s.before == q
    requires s.root < roots && q.roots[s.root] != [] && i < j <= |log| && AllDecided(log + [s], roots)
    requires (log + [s])[i].root == (log + [s])[j].root
    ensures Chosen((log + [s])[i]).sequence < Chosen((log + [s])[j]).sequence
  {
    assert (log + [s])[i] == log[i];
    if j < |log| {
      assert (log + [s])[j] == log[j];
    } else {
      assert Chosen(log[i]).sequence < q.roots[s.root][0].sequence;
    }
  }

  lemma GrantLogged(q: Queue, now: nat, root: nat, log: seq<Selection>, roots: nat)
    requires Logged(q, log, roots) && Ordered(q.roots, q.sequence) && Select(q, now) == Some(root)
    requires q.barrier.Some? ==> Standing(q)
    ensures Logged(Grant(q, now, root), log + [Selection(q, now, root)], roots)
  {
    GrantChained(q, now, root, log, roots);
    GrantInOrder(q, now, root, log, roots);
  }

  lemma ThinnedLogged(q: Queue, log: seq<Selection>, roots: nat, thin: seq<seq<Waiting>>)
    requires Logged(q, log, roots) && ThinnedRoots(thin, q.roots)
    ensures Logged(q.(roots := thin), log, roots)
  {
    forall i, x | 0 <= i < |log| && 0 <= x < |thin[log[i].root]|
      ensures Chosen(log[i]).sequence < thin[log[i].root][x].sequence
    {
      assert thin[log[i].root][x] in q.roots[log[i].root];
      var y :| 0 <= y < |q.roots[log[i].root]| && q.roots[log[i].root][y] == thin[log[i].root][x];
    }
  }

  lemma ScheduleLogged(q: Queue, p: Queue, log: seq<Selection>, roots: nat)
    requires Logged(q, log, roots)
    requires p.roots == q.roots && p.cursor == q.cursor && p.sequence == q.sequence
    ensures Logged(p, log, roots)
  {}

  lemma ReadyLogged(q: Queue, now: nat, log: seq<Selection>, roots: nat)
    requires Logged(q, log, roots)
    ensures Logged(Protect(q, now), log, roots) && Logged(Ready(q, now), log, roots)
  {
    ScheduleLogged(q, Protect(q, now), log, roots);
    ScheduleLogged(q, Ready(q, now), log, roots);
  }

  lemma RoundLogged(q: Queue, now: nat, root: nat, log: seq<Selection>, roots: nat)
    requires Logged(q, log, roots) && Good(q, log) && Select(Ready(q, now), now) == Some(root)
    ensures var g := Grant(Ready(q, now), now, root); var all := log + [Selection(Ready(q, now), now, root)];
      Logged(g, all, roots) && Good(g, all)
  {
    ReadyGood(q, now, log);
    ReadyLogged(q, now, log, roots);
    assert Obeys(Order, Ready(q, now), log);
    GrantGood(Ready(q, now), now, root, log);
    GrantLogged(Ready(q, now), now, root, log, roots);
  }

  ghost predicate RoundsKeepLog(q: Queue, now: nat, log: seq<Selection>, roots: nat) {
    Logged(Rounds(q, now).0, log + Rounds(q, now).1, roots)
  }

  lemma LastRoundLogged(q: Queue, now: nat, log: seq<Selection>, roots: nat)
    requires Logged(q, log, roots) && (now < q.cooldownUntil || Select(Ready(q, now), now).None?)
    ensures RoundsKeepLog(q, now, log, roots)
  {
    assert log + [] == log;
    ReadyLogged(q, now, log, roots);
    RoundsOnce(q, now);
  }

  lemma FirstRoundLogged(q: Queue, now: nat, root: nat, log: seq<Selection>, roots: nat)
    requires q.cooldownUntil <= now && Select(Ready(q, now), now) == Some(root)
    ensures var c := Ready(q, now);
      RoundsKeepLog(q, now, log, roots)
        == RoundsKeepLog(Grant(c, now, root), now, log + [Selection(c, now, root)], roots)
  {
    var c := Ready(q, now);
    RoundsOnce(q, now);
    var rest := Rounds(Grant(c, now, root), now).1;
    assert log + ([Selection(c, now, root)] + rest) == (log + [Selection(c, now, root)]) + rest;
  }

  lemma {:induction false} RoundsLogged(q: Queue, now: nat, log: seq<Selection>, roots: nat)
    requires Logged(q, log, roots) && Good(q, log)
    ensures RoundsKeepLog(q, now, log, roots)
    decreases Len(q.roots)
  {
    var c := Ready(q, now);
    if q.cooldownUntil <= now && Select(c, now).Some? {
      var root := Select(c, now).value;
      GrantShrinks(c, now, root);
      RoundLogged(q, now, root, log, roots);
      RoundsLogged(Grant(c, now, root), now, log + [Selection(c, now, root)], roots);
      FirstRoundLogged(q, now, root, log, roots);
    } else {
      LastRoundLogged(q, now, log, roots);
    }
  }

  lemma JoinLogged(q: Queue, log: seq<Selection>, roots: nat, root: nat, cost: Cost, enqueued: nat, deadline: nat)
    requires Logged(q, log, roots)
    ensures Logged(Enqueue(q, root, cost, enqueued, deadline).0, log, roots)
  {
    JoinInOrder(q, log, roots, root, cost, enqueued, deadline);
  }

  lemma JoinInOrder(q: Queue, log: seq<Selection>, roots: nat, root: nat, cost: Cost, enqueued: nat, deadline: nat)
    requires |q.roots| == roots && AllDecided(log, roots) && InOrder(q, log, roots)
    ensures InOrder(Enqueue(q, root, cost, enqueued, deadline).0, log, roots)
  {
    var p := Enqueue(q, root, cost, enqueued, deadline).0;
    forall i, x | 0 <= i < |log| && 0 <= x < |p.roots[log[i].root]|
      ensures Chosen(log[i]).sequence < p.roots[log[i].root][x].sequence
    {
      var r := log[i].root;
      if x < |q.roots[r]| { assert p.roots[r][x] == q.roots[r][x]; }
    }
  }

  lemma ExpireLogged(w: World, roots: nat, now: nat)
    requires SchedulerFairness.Inv(w) && Logged(w.queue, w.log, roots)
    ensures Logged(Expire(w.queue, now), w.log, roots) && Good(Expire(w.queue, now), w.log)
  {
    var q := w.queue;
    assert Obeys(Order, q, w.log);
    ExpireThins(q, now);
    ExpireGood(q, now, w.log);
    ThinnedLogged(q, w.log, roots, ExpireRoots(q.roots, now));
    ScheduleLogged(q.(roots := ExpireRoots(q.roots, now)), Expire(q, now), w.log, roots);
  }

  lemma TurnLogged(w: World, roots: nat, now: nat)
    requires SchedulerFairness.Inv(w) && Logged(w.queue, w.log, roots)
    ensures Logged(Apply(w, Turn(now)).queue, Apply(w, Turn(now)).log, roots)
  {
    ExpireLogged(w, roots, now);
    RoundsLogged(Expire(w.queue, now), now, w.log, roots);
    TurnIs(w, now);
  }

  lemma LeaveLogged(w: World, now: nat, root: nat, sequence: nat, roots: nat)
    requires SchedulerFairness.Inv(w) && Logged(w.queue, w.log, roots) && root < |w.queue.roots|
    ensures Logged(Abandon(w.queue, now, root, sequence), w.log, roots)
  {
    var p := Abandon(w.queue, now, root, sequence);
    assert Obeys(Order, w.queue, w.log);
    AbandonThins(w.queue, now, root, sequence);
    ThinnedLogged(w.queue, w.log, roots, p.roots);
    ScheduleLogged(w.queue.(roots := p.roots), p, w.log, roots);
  }

  lemma ApplyLogged(w: World, s: Step, roots: nat)
    requires SchedulerFairness.Inv(w) && Logged(w.queue, w.log, roots)
    ensures Logged(Apply(w, s).queue, Apply(w, s).log, roots)
  {
    match s
    case Join(root, cost, enqueued, deadline) => JoinLogged(w.queue, w.log, roots, root, cost, enqueued, deadline);
    case Leave(now, root, sequence) =>
      if root < |w.queue.roots| { LeaveLogged(w, now, root, sequence, roots); }
    case Turn(now) => TurnLogged(w, roots, now);
    case Environment(to) =>
      if SameSchedule(to, w.queue) { ScheduleLogged(w.queue, to, w.log, roots); }
  }

  lemma {:induction false} RunLogged(w: World, steps: seq<Step>)
    requires Initial(w)
    ensures Logged(Run(w, steps).queue, Run(w, steps).log, |w.queue.roots|)
  {
    if steps != [] {
      RunLogged(w, steps[..|steps| - 1]);
      RunKeeps(w, steps[..|steps| - 1]);
      ApplyLogged(Run(w, steps[..|steps| - 1]), steps[|steps| - 1], |w.queue.roots|);
    }
  }

  /** Admissions within a root follow the order in which its requests joined. */
  lemma FifoWithinRoot(w: World, steps: seq<Step>, i: nat, j: nat)
    requires Initial(w) && i < j < |Run(w, steps).log|
    requires Run(w, steps).log[i].root == Run(w, steps).log[j].root
    ensures var log := Run(w, steps).log;
      && Fits(log[i].before, log[i].now, log[i].root) && Fits(log[j].before, log[j].now, log[j].root)
      && Chosen(log[i]).sequence < Chosen(log[j]).sequence
  {
    RunLogged(w, steps);
    var log := Run(w, steps).log;
    assert Decided(log[i], |w.queue.roots|) && Decided(log[j], |w.queue.roots|);
  }

  // ---------------------------------------------------------------- round robin

  /** How many places root `r` lies past the cursor, going round. */
  function Distance(cursor: nat, r: nat, roots: nat): nat
    requires cursor < roots && r < roots
  {
    if cursor <= r then r - cursor else r + roots - cursor
  }

  lemma Wrap(x: nat, roots: nat)
    requires 0 < roots && x < 2 * roots
    ensures x % roots == if x < roots then x else x - roots
  {
    if roots <= x {
      assert x == (x - roots) + 1 * roots;
      assert (x - roots) % roots == x - roots;
    }
  }

  /** A passed-over root that fits lies strictly farther from the cursor than the winner. */
  lemma {:induction false} FirstFitIsNearest(q: Queue, now: nat, offset: nat, r: nat)
    requires 0 < |q.roots| && q.cursor < |q.roots| && offset <= |q.roots|
    requires r < |q.roots| && Fits(q, now, r) && offset <= Distance(q.cursor, r, |q.roots|)
    ensures var win := FirstFit(q, now, offset);
      win.Some? && Distance(q.cursor, win.value, |q.roots|) <= Distance(q.cursor, r, |q.roots|)
    decreases |q.roots| - offset
  {
    Wrap(q.cursor + offset, |q.roots|);
    var here := (q.cursor + offset) % |q.roots|;
    if !Fits(q, now, here) {
      assert here != r;
      FirstFitIsNearest(q, now, offset + 1, r);
    }
  }

  /** Each selection that passes over a fitting root brings it strictly nearer the cursor. */
  lemma PassedOverComesNearer(s: Selection, roots: nat, r: nat)
    requires Decided(s, roots) && s.before.barrier.None?
    requires r < roots && r != s.root && Fits(s.before, s.now, r)
    ensures Distance((s.root + 1) % roots, r, roots) < Distance(s.before.cursor, r, roots)
  {
    FirstFitIsNearest(s.before, s.now, 0, r);
    Wrap(s.root + 1, roots);
  }

  /** From index `i` on, `n` admissions without a barrier pass over the fitting root `r`. */
  predicate PassesOver(log: seq<Selection>, i: nat, n: nat, r: nat) {
    i + n <= |log| &&
    forall x :: i <= x < i + n ==> log[x].before.barrier.None? && log[x].root != r && Fits(log[x].before, log[x].now, r)
  }

  lemma NextCursor(log: seq<Selection>, roots: nat, i: nat)
    requires Linked(log, roots) && i + 1 < |log| && 0 < roots
    ensures log[i + 1].before.cursor == (log[i].root + 1) % roots
  {
    assert Arrived(log[i + 1].before.cursor, log[..i + 1], roots);
  }

  lemma {:induction false} PassesBounded(log: seq<Selection>, roots: nat, i: nat, n: nat, r: nat)
    requires AllDecided(log, roots) && Linked(log, roots) && r < roots && 0 < n && PassesOver(log, i, n, r)
    ensures Decided(log[i], roots) && n <= Distance(log[i].before.cursor, r, roots)
    decreases n
  {
    assert Decided(log[i], roots);
    PassedOverComesNearer(log[i], roots, r);
    if 1 < n {
      PassesBounded(log, roots, i + 1, n - 1, r);
      NextCursor(log, roots, i);
    }
  }

  /**
    Round-robin progress: in every run, a root whose head fits at each selection is passed
    over fewer times in a row than there are roots, as long as no barrier stands.
   */
  lemma RoundRobinProgress(w: World, steps: seq<Step>, i: nat, n: nat, r: nat)
    requires Initial(w) && r < |w.queue.roots| && PassesOver(Run(w, steps).log, i, n, r)
    ensures n < |w.queue.roots|
  {
    RunLogged(w, steps);
    if 0 < n {
      PassesBounded(Run(w, steps).log, |w.queue.roots|, i, n, r);
    }
  }
}
