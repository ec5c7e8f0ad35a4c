/**
  What a barrier means over whole runs: whom it protects, how long it stands, and who may
  come before the request it protects.
 */
module SchedulerBarrier {
  import opened Prelude
  import opened Quota
  import opened Scheduler
  import opened SchedulerFairness
  import opened SchedulerOrder
  import SchedulerWake

  // ---------------------------------------------------------------- who still waits

  /** A request with this sequence number is in line. */
  predicate Queued(roots: seq<seq<Waiting>>, sequence: nat) {
    exists r, i :: 0 <= r < |roots| && 0 <= i < |roots[r]| && roots[r][i].sequence == sequence
  }

  lemma ThinnedQueued(a: seq<seq<Waiting>>, b: seq<seq<Waiting>>, sequence: nat)
    requires ThinnedRoots(a, b) && Queued(a, sequence)
    ensures Queued(b, sequence)
  {
    var r, i :| 0 <= r < |a| && 0 <= i < |a[r]| && a[r][i].sequence == sequence;
    assert a[r][i] in b[r];
    var j :| 0 <= j < |b[r]| && b[r][j] == a[r][i];
  }

  lemma GrantQueued(q: Queue, now: nat, root: nat, sequence: nat)
    requires Fits(q, now, root) && Queued(Grant(q, now, root).roots, sequence)
    ensures Queued(q.roots, sequence)
  {
    var g: seq<seq<Waiting>> := Grant(q, now, root).roots;
    var r: nat, i: nat :| r < |g| && i < |g[r]| && g[r][i].sequence == sequence;
    GrantRoot(q, now, root, r);
    assert q.roots[r][if r == root then i + 1 else i].sequence == sequence;
  }

  lemma {:induction false} RoundsQueued(q: Queue, now: nat, sequence: nat)
    requires Queued(Rounds(q, now).0.roots, sequence)
    ensures Queued(q.roots, sequence)
    decreases Len(q.roots)
  {
    var c := Ready(q, now);
    RoundsOnce(q, now);
    if q.cooldownUntil <= now && Select(c, now).Some? {
      var root := Select(c, now).value;
      GrantShrinks(c, now, root);
      RoundsQueued(Grant(c, now, root), now, sequence);
      GrantQueued(c, now, root, sequence);
    }
  }

  lemma JoinQueued(q: Queue, s: Step, sequence: nat)
    requires s.Join? && sequence <= q.sequence
    requires Queued(Enqueue(q, s.root, s.cost, s.enqueued, s.deadline).0.roots, sequence)
    ensures Queued(q.roots, sequence)
  {
    var p: seq<seq<Waiting>> := Enqueue(q, s.root, s.cost, s.enqueued, s.deadline).0.roots;
    var r, i :| 0 <= r < |p| && 0 <= i < |p[r]| && p[r][i].sequence == sequence;
    assert q.roots[r][i].sequence == sequence;
  }

  /** A number that was already given out and is still in line was in line before the step. */
  lemma StepQueued(w: World, s: Step, sequence: nat)
    requires SchedulerFairness.Inv(w) && sequence <= w.queue.sequence && Queued(Apply(w, s).queue.roots, sequence)
    ensures Queued(w.queue.roots, sequence)
  {
    var q := w.queue;
    assert Obeys(Order, q, w.log);
    match s
    case Join(_, _, _, _) => JoinQueued(q, s, sequence);
    case Leave(now, root, ticket) =>
      if root < |q.roots| {
        AbandonThins(q, now, root, ticket);
        ThinnedQueued(Abandon(q, now, root, ticket).roots, q.roots, sequence);
      }
    case Turn(now) =>
      RoundsQueued(Expire(q, now), now, sequence);
      ExpireThins(q, now);
      ThinnedQueued(ExpireRoots(q.roots, now), q.roots, sequence);
    case Environment(_) =>
  }

  // ---------------------------------------------------------------- the barrier stands

  /** The barrier `b` stands and the request it protects is in line. */
  predicate Guards(q: Queue, b: Barrier) { q.barrier == Some(b) && Standing(q) }

  /** Thinning the lines leaves the protected request at the head of its root, or takes it away. */
  lemma ThinnedGuards(q: Queue, thin: seq<seq<Waiting>>, b: Barrier)
    requires Ordered(q.roots, q.sequence) && Guards(q, b) && ThinnedRoots(thin, q.roots) && Queued(thin, b.sequence)
    ensures Guards(q.(roots := thin), b)
  {
    var r, i :| 0 <= r < |thin| && 0 <= i < |thin[r]| && thin[r][i].sequence == b.sequence;
    assert thin[r][i] in q.roots[r];
    var j :| 0 <= j < |q.roots[r]| && q.roots[r][j] == thin[r][i];
    assert r == b.root || Apart(q.roots[r], q.roots[b.root]);
    assert Tidy(q.roots[r], q.sequence);
    assert thin[r][0] in q.roots[r];
    var x :| 0 <= x < |q.roots[r]| && q.roots[r][x] == thin[r][0];
  }

  /** The protected request is gone once it is admitted. */
  lemma GrantedIsGone(q: Queue, now: nat, b: Barrier)
    requires Ordered(q.roots, q.sequence) && Guards(q, b) && Fits(q, now, b.root)
    ensures !Queued(Grant(q, now, b.root).roots, b.sequence)
  {
    var g: seq<seq<Waiting>> := Grant(q, now, b.root).roots;
    assert Tidy(q.roots[b.root], q.sequence);
    forall r: nat, i: nat | r < |g| && i < |g[r]| ensures g[r][i].sequence != b.sequence {
      GrantRoot(q, now, b.root, r);
      assert r == b.root || Apart(q.roots[r], q.roots[b.root]);
    }
  }

  /** Rounds under a barrier admit nobody as long as they leave the protected request in line. */
  lemma RoundsGuard(q: Queue, now: nat, b: Barrier)
    requires Ordered(q.roots, q.sequence) && Guards(q, b) && Queued(Rounds(q, now).0.roots, b.sequence)
    ensures Rounds(q, now).1 == [] && Guards(Rounds(q, now).0, b) && Rounds(q, now).0.roots == q.roots
  {
    RoundsOnce(q, now);
    var c := Ready(q, now);
    assert Guards(c, b) && c.roots == q.roots;
    if q.cooldownUntil <= now && Select(c, now).Some? {
      GrantedIsGone(c, now, b);
      RoundsQueued(Grant(c, now, b.root), now, b.sequence);
      assert false;
    }
  }

  lemma TurnGuards(w: World, now: nat, b: Barrier)
    requires SchedulerFairness.Inv(w) && Guards(w.queue, b) && Queued(Drive(w.queue, now).queue.roots, b.sequence)
    ensures Guards(Drive(w.queue, now).queue, b) && Drive(w.queue, now).log == []
    ensures ThinnedRoots(Drive(w.queue, now).queue.roots, w.queue.roots)
  {
    var q, e := w.queue, Expire(w.queue, now);
    assert Obeys(Order, q, w.log);
    RoundsQueued(e, now, b.sequence);
    ExpireThins(q, now);
    ThinnedGuards(q, e.roots, b);
    ThinnedOrdered(e.roots, q.roots, q.sequence);
    RoundsGuard(e, now, b);
  }

  lemma LeaveGuards(w: World, s: Step, b: Barrier)
    requires SchedulerFairness.Inv(w) && s.Leave? && s.root < |w.queue.roots| && Guards(w.queue, b)
    requires Queued(Abandon(w.queue, s.now, s.root, s.sequence).roots, b.sequence)
    ensures Guards(Abandon(w.queue, s.now, s.root, s.sequence), b)
  {
    var q := w.queue;
    var thin := Abandon(q, s.now, s.root, s.sequence).roots;
    assert Obeys(Order, q, w.log);
    AbandonThins(q, s.now, s.root, s.sequence);
    ThinnedGuards(q, thin, b);
    assert Protect(q.(roots := thin), s.now) == q.(roots := thin);
  }

  /** One step: a barrier whose request is still in line still stands, and nobody was admitted. */
  lemma StepGuards(w: World, s: Step, b: Barrier)
    requires SchedulerFairness.Inv(w) && w.queue.barrier == Some(b) && Queued(Apply(w, s).queue.roots, b.sequence)
    ensures Apply(w, s).queue.barrier == Some(b) && Apply(w, s).log == w.log
  {
    match s
    case Join(_, _, _, _) =>
    case Leave(_, root, _) => if root < |w.queue.roots| { LeaveGuards(w, s, b); }
    case Turn(now) => TurnGuards(w, now, b);
    case Environment(_) =>
  }

  lemma RunSplits(w: World, steps: seq<Step>, more: seq<Step>)
    requires more != []
    ensures Run(w, steps + more) == Apply(Run(w, steps + more[..|more| - 1]), more[|more| - 1])
  {
    assert (steps + more)[..|steps + more| - 1] == steps + more[..|more| - 1];
  }

  lemma SequenceGrows(w: World, s: Step)
    ensures w.queue.sequence <= Apply(w, s).queue.sequence
  {
    if s.Turn? {
      RoundsSequence(Expire(w.queue, s.now), s.now);
      TurnIs(w, s.now);
    } else if s.Leave? && s.root < |w.queue.roots| {
      AbandonProtects(w.queue, s.now, s.root, s.sequence);
    }
  }

  lemma {:induction false} RoundsSequence(q: Queue, now: nat)
    ensures Rounds(q, now).0.sequence == q.sequence
    decreases Len(q.roots)
  {
    var c := Ready(q, now);
    RoundsOnce(q, now);
    if q.cooldownUntil <= now && Select(c, now).Some? {
      GrantShrinks(c, now, Select(c, now).value);
      RoundsSequence(Grant(c, now, Select(c, now).value), now);
    }
  }

  /**
    In every run, as long as the request that a barrier protects is in line - through any joins,
    departures, expiries, settlements and drives - the barrier stands and nobody is admitted.
   */
  lemma {:induction false} BarrierStandsUntilItsRequestLeaves(w: World, steps: seq<Step>, more: seq<Step>, b: Barrier)
    requires Initial(w) && Run(w, steps).queue.barrier == Some(b)
    requires Queued(Run(w, steps + more).queue.roots, b.sequence)
    ensures Run(w, steps + more).queue.barrier == Some(b)
    ensures Run(w, steps + more).log == Run(w, steps).log
    ensures b.sequence <= Run(w, steps + more).queue.sequence
    decreases |more|
  {
    if more == [] {
      assert steps + more == steps;
      RunKeeps(w, steps);
      var q := Run(w, steps).queue;
      assert Obeys(Order, q, Run(w, steps).log);
      assert Tidy(q.roots[b.root], q.sequence);
    } else {
      var init, s := more[..|more| - 1], more[|more| - 1];
      var v := Run(w, steps + init);
      RunSplits(w, steps, more);
      RunKeeps(w, steps + init);
      GivenOut(w, steps, init, b);
      StepQueued(v, s, b.sequence);
      BarrierStandsUntilItsRequestLeaves(w, steps, init, b);
      StepGuards(v, s, b);
      SequenceGrows(v, s);
    }
  }

  /** The number of a protected request was given out before the barrier stood. */
  lemma {:induction false} GivenOut(w: World, steps: seq<Step>, more: seq<Step>, b: Barrier)
    requires Initial(w) && Run(w, steps).queue.barrier == Some(b)
    ensures b.sequence <= Run(w, steps + more).queue.sequence
    decreases |more|
  {
    if more == [] {
      assert steps + more == steps;
      RunKeeps(w, steps);
      var q := Run(w, steps).queue;
      assert Obeys(Order, q, Run(w, steps).log);
      assert Tidy(q.roots[b.root], q.sequence);
    } else {
      RunSplits(w, steps, more);
      GivenOut(w, steps, more[..|more| - 1], b);
      SequenceGrows(Run(w, steps + more[..|more| - 1]), more[|more| - 1]);
    }
  }

  /** In every run, an admission made under a barrier is that of the request it protects. */
  lemma BarrierAdmitsItsRequest(w: World, steps: seq<Step>, i: nat)
    requires Initial(w) && i < |Run(w, steps).log| && Run(w, steps).log[i].before.barrier.Some?
    ensures var s := Run(w, steps).log[i]; var b := s.before.barrier.value;
      s.root == b.root < |s.before.roots| && s.before.roots[s.root] != [] && Chosen(s).sequence == b.sequence
  {
    RunLogged(w, steps);
    assert Decided(Run(w, steps).log[i], |w.queue.roots|);
  }

  // ---------------------------------------------------------------- the oldest request

  function KeysOf(roots: seq<seq<Waiting>>): set<Key> {
    set r, i | 0 <= r < |roots| && 0 <= i < |roots[r]| :: KeyOf(roots[r][i])
  }

  /** Arrival times agree with sequence numbers, and none is later than `latest`. */
  predicate Chronological(keys: set<Key>, latest: nat) {
    && (forall a, b :: a in keys && b in keys && a.sequence < b.sequence ==> a.enqueued <= b.enqueued)
    && (forall a :: a in keys ==> a.enqueued <= latest)
  }

  predicate ProtectsOldest(q: Queue) {
    Standing(q) ==> forall k :: k in KeysOf(q.roots) ==> q.barrier.value.sequence <= k.sequence
  }

  function Latest(steps: seq<Step>): nat {
    if steps == [] then 0
    else
      var s := steps[|steps| - 1];
      Max(Latest(steps[..|steps| - 1]), if s.Join? then s.enqueued else 0)
  }

  /** The joins of a run carry non-decreasing timestamps. */
  predicate Timestamped(steps: seq<Step>) {
    forall i :: 0 <= i < |steps| && steps[i].Join? ==> Latest(steps[..i]) <= steps[i].enqueued
  }

  lemma ProtectPicksOldest(q: Queue, now: nat, latest: nat)
    requires Ordered(q.roots, q.sequence) && Chronological(KeysOf(q.roots), latest) && ProtectsOldest(q)
    ensures ProtectsOldest(Protect(q, now))
  {
    var p := Protect(q, now);
    if !Standing(q) && Standing(p) {
      var b := p.barrier.value.root;
      var head := q.roots[b][0];
      assert KeyOf(head) in KeysOf(q.roots);
      forall k | k in KeysOf(q.roots) ensures head.sequence <= k.sequence {
        var r, i :| 0 <= r < |q.roots| && 0 <= i < |q.roots[r]| && KeyOf(q.roots[r][i]) == k;
        assert Tidy(q.roots[r], q.sequence);
        assert KeyOf(q.roots[r][0]) in KeysOf(q.roots);
        assert !Older(q.roots[r][0], head);
      }
    }
  }

  lemma FewerKeys(a: seq<seq<Waiting>>, b: seq<seq<Waiting>>)
    requires ThinnedRoots(a, b)
    ensures KeysOf(a) <= KeysOf(b)
  {
    forall k | k in KeysOf(a) ensures k in KeysOf(b) {
      var r, i :| 0 <= r < |a| && 0 <= i < |a[r]| && KeyOf(a[r][i]) == k;
      assert a[r][i] in b[r];
      var j :| 0 <= j < |b[r]| && b[r][j] == a[r][i];
    }
  }

  lemma GrantFewerKeys(q: Queue, now: nat, root: nat)
    requires Fits(q, now, root)
    ensures KeysOf(Grant(q, now, root).roots) <= KeysOf(q.roots)
  {
    var g: seq<seq<Waiting>> := Grant(q, now, root).roots;
    forall k | k in KeysOf(g) ensures k in KeysOf(q.roots) {
      var r: nat, i: nat :| r < |g| && i < |g[r]| && KeyOf(g[r][i]) == k;
      GrantRoot(q, now, root, r);
      var j := if r == root then i + 1 else i;
      assert KeyOf(q.roots[r][j]) == k;
    }
  }

  ghost predicate Dated(q: Queue, latest: nat) { Chronological(KeysOf(q.roots), latest) && ProtectsOldest(q) }

  lemma {:induction false} RoundsDated(q: Queue, now: nat, log: seq<Selection>, latest: nat)
    requires Good(q, log) && Dated(q, latest)
    ensures Dated(Rounds(q, now).0, latest)
    decreases Len(q.roots)
  {
    ReadyDated(q, now, log, latest);
    RoundsOnce(q, now);
    var c := Ready(q, now);
    if q.cooldownUntil <= now && Select(c, now).Some? {
      var root := Select(c, now).value;
      ReadyGood(q, now, log);
      GrantShrinks(c, now, root);
      GrantGood(c, now, root, log);
      GrantDated(c, now, root, log, latest);
      RoundsDated(Grant(c, now, root), now, log + [Selection(c, now, root)], latest);
    }
  }

  lemma ReadyDated(q: Queue, now: nat, log: seq<Selection>, latest: nat)
    requires Good(q, log) && Dated(q, latest)
    ensures Dated(Protect(q, now), latest) && Dated(Ready(q, now), latest)
  {
    assert Obeys(Order, q, log);
    ProtectPicksOldest(q, now, latest);
  }

  lemma GrantDated(c: Queue, now: nat, root: nat, log: seq<Selection>, latest: nat)
    requires SchedulerFairness.Inv(World(c, log)) && Dated(c, latest) && Select(c, now) == Some(root)
    ensures Dated(Grant(c, now, root), latest)
  {
    assert Obeys(Order, c, log);
    GrantFewerKeys(c, now, root);
    GrantUndisturbed(c, now, root);
  }

  lemma ThinnedDated(q: Queue, latest: nat, thin: seq<seq<Waiting>>)
    requires Dated(q, latest) && ThinnedRoots(thin, q.roots) && (q.barrier.Some? ==> Standing(q))
    ensures Dated(q.(roots := thin), latest)
  {
    FewerKeys(thin, q.roots);
  }

  lemma TurnDated(w: World, latest: nat, now: nat)
    requires SchedulerFairness.Inv(w) && Dated(w.queue, latest)
    ensures Dated(Apply(w, Turn(now)).queue, latest)
  {
    ExpiredDated(w, latest, now);
    RoundsDated(Expire(w.queue, now), now, w.log, latest);
    TurnIs(w, now);
  }

  lemma ExpiredDated(w: World, latest: nat, now: nat)
    requires SchedulerFairness.Inv(w) && Dated(w.queue, latest)
    ensures Good(Expire(w.queue, now), w.log) && Dated(Expire(w.queue, now), latest)
  {
    var q := w.queue;
    assert Obeys(Order, q, w.log);
    ExpireThins(q, now);
    ExpireGood(q, now, w.log);
    ThinnedDated(q, latest, ExpireRoots(q.roots, now));
    SameKeysDated(q.(roots := ExpireRoots(q.roots, now)), Expire(q, now), latest);
  }

  /** Result cells do not matter to the order of arrival. */
  lemma SameKeysDated(p: Queue, q: Queue, latest: nat)
    requires Dated(p, latest) && q.roots == p.roots && q.barrier == p.barrier
    ensures Dated(q, latest)
  {}

  lemma LeaveDated(w: World, latest: nat, now: nat, root: nat, sequence: nat)
    requires SchedulerFairness.Inv(w) && Dated(w.queue, latest) && root < |w.queue.roots|
    ensures Dated(Abandon(w.queue, now, root, sequence), latest)
  {
    var q := w.queue;
    var a := Abandon(q, now, root, sequence);
    assert Obeys(Order, q, w.log);
    AbandonThins(q, now, root, sequence);
    ThinnedDated(q, latest, a.roots);
    ThinnedOrdered(a.roots, q.roots, q.sequence);
    ProtectPicksOldest(q.(roots := a.roots), now, latest);
    AbandonProtects(q, now, root, sequence);
    SameKeysDated(Protect(q.(roots := a.roots), now), a, latest);
  }

  lemma JoinDated(w: World, latest: nat, s: Step)
    requires SchedulerFairness.Inv(w) && Dated(w.queue, latest) && s.Join? && latest <= s.enqueued
    ensures Dated(Apply(w, s).queue, s.enqueued)
  {
    var q, p := w.queue, Apply(w, s).queue;
    assert Obeys(Order, q, w.log);
    if p != q {
      JoinKeys(q, s);
      if Standing(p) {
        assert Standing(q);
        assert KeyOf(q.roots[q.barrier.value.root][0]) in KeysOf(q.roots);
      }
    }
  }

  lemma JoinKeys(q: Queue, s: Step)
    requires s.Join? && Ordered(q.roots, q.sequence)
    ensures var p := Enqueue(q, s.root, s.cost, s.enqueued, s.deadline).0;
      forall k :: k in KeysOf(p.roots) ==> k in KeysOf(q.roots) || k == Key(s.enqueued, p.sequence)
    ensures forall k :: k in KeysOf(q.roots) ==> k.sequence <= q.sequence
  {
    var p := Enqueue(q, s.root, s.cost, s.enqueued, s.deadline).0;
    forall k | k in KeysOf(p.roots) ensures k in KeysOf(q.roots) || k == Key(s.enqueued, p.sequence) {
      var r, i :| 0 <= r < |p.roots| && 0 <= i < |p.roots[r]| && KeyOf(p.roots[r][i]) == k;
      if i < |q.roots[r]| { assert KeyOf(q.roots[r][i]) == k; }
    }
    forall k | k in KeysOf(q.roots) ensures k.sequence <= q.sequence {
      var r, i :| 0 <= r < |q.roots| && 0 <= i < |q.roots[r]| && KeyOf(q.roots[r][i]) == k;
      assert Tidy(q.roots[r], q.sequence);
    }
  }

  lemma {:induction false} RunDated(w: World, steps: seq<Step>)
    requires Initial(w) && Timestamped(steps)
    ensures Dated(Run(w, steps).queue, Latest(steps))
  {
    if steps != [] {
      var n := |steps| - 1;
      var rest, s := steps[..n], steps[n];
      assert forall i :: 0 <= i < n ==> rest[i] == steps[i] && rest[..i] == steps[..i];
      RunDated(w, rest);
      RunKeeps(w, rest);
      ApplyDated(Run(w, rest), Latest(rest), s);
    }
  }

  lemma ApplyDated(w: World, latest: nat, s: Step)
    requires SchedulerFairness.Inv(w) && Dated(w.queue, latest)
    requires s.Join? ==> latest <= s.enqueued
    ensures Dated(Apply(w, s).queue, if s.Join? then s.enqueued else latest)
  {
    match s
    case Join(_, _, _, _) => JoinDated(w, latest, s);
    case Leave(now, root, sequence) =>
      if root < |w.queue.roots| { LeaveDated(w, latest, now, root, sequence); }
    case Turn(now) => TurnDated(w, latest, now);
    case Environment(to) =>
  }

  /**
    In every run whose joins carry non-decreasing timestamps, a barrier protects a request
    that is still waiting at the head of its root and is the oldest of all waiting requests,
    by sequence number and by arrival.
   */
  lemma BarrierIsOldest(w: World, steps: seq<Step>, r: nat, i: nat)
    requires Initial(w) && Timestamped(steps)
    requires Run(w, steps).queue.barrier.Some?
    requires r < |Run(w, steps).queue.roots| && i < |Run(w, steps).queue.roots[r]|
    ensures var q := Run(w, steps).queue;
      && Standing(q)
      && q.barrier.value.sequence <= q.roots[r][i].sequence
      && !Older(q.roots[r][i], Protected(q))
  {
    RunDated(w, steps);
    RunKeeps(w, steps);
    var q := Run(w, steps).queue;
    assert Obeys(Order, q, Run(w, steps).log);
    var b := q.barrier.value.root;
    assert KeyOf(q.roots[r][i]) in KeysOf(q.roots) && KeyOf(q.roots[b][0]) in KeysOf(q.roots);
    assert r == b || Apart(q.roots[r], q.roots[b]);
    assert Tidy(q.roots[r], q.sequence);
  }

  // ---------------------------------------------------------------- arrivals out of order

  /** The request that a standing barrier protects. */
  function Protected(q: Queue): Waiting
    requires Standing(q)
  {
    q.roots[q.barrier.value.root][0]
  }

  /** No head comes before the protected request in the order of arrival. */
  predicate LeastHead(q: Queue)
    requires Standing(q)
  {
    forall r :: 0 <= r < |q.roots| && q.roots[r] != [] ==> !Older(q.roots[r][0], Protected(q))
  }

  /** Some head was bypassed eight times or has waited for five seconds. */
  predicate UrgentHead(roots: seq<seq<Waiting>>, now: nat) {
    exists r :: 0 <= r < |roots| && roots[r] != [] && Pressing(roots[r][0], now)
  }

  predicate Pressing(head: Waiting, now: nat) { 8 <= head.bypasses || 5 * SECOND <= Monus(now, head.enqueued) }

  lemma UrgentIsTriggered(roots: seq<seq<Waiting>>, now: nat)
    ensures UrgentHead(roots, now) <==> Triggered(roots, now)
  {
    forall r | 0 <= r < |roots| && roots[r] != [] ensures Pressing(roots[r][0], now) <==> Urgent(roots[r][0], now) {}
  }

  lemma ProtectSetsLeast(q: Queue, now: nat)
    requires Protect(q, now).barrier.Some? && Protect(q, now).barrier != q.barrier
    ensures Standing(Protect(q, now)) && LeastHead(Protect(q, now)) && UrgentHead(Protect(q, now).roots, now)
  {
    UrgentIsTriggered(q.roots, now);
  }

  /** What a drive's rounds leave behind: the barrier they found, or one on the least head because a head is urgent. */
  predicate Placed(q: Queue, was: Option<Barrier>, now: nat) {
    q.barrier.None? || q.barrier == was || (Standing(q) && LeastHead(q) && UrgentHead(q.roots, now))
  }

  lemma {:induction false} RoundsPlace(q: Queue, now: nat, was: Option<Barrier>)
    requires Placed(Protect(q, now), was, now) && Ordered(q.roots, q.sequence)
    ensures Placed(Rounds(q, now).0, was, now)
    decreases Len(q.roots)
  {
    RoundsOnce(q, now);
    var c := Ready(q, now);
    if q.cooldownUntil <= now && Select(c, now).Some? {
      var root := Select(c, now).value;
      GrantShrinks(c, now, root);
      GrantOrdered(c, now, root);
      ReadyStands(q, now);
      ReplacedAfterGrant(c, now, root, was);
      RoundsPlace(Grant(c, now, root), now, was);
    }
  }

  lemma ReadyStands(q: Queue, now: nat)
    ensures Ready(q, now).barrier.Some? ==> Standing(Ready(q, now))
  {}

  lemma ReplacedAfterGrant(c: Queue, now: nat, root: nat, was: Option<Barrier>)
    requires Ordered(c.roots, c.sequence) && Select(c, now) == Some(root) && (c.barrier.Some? ==> Standing(c))
    ensures Placed(Protect(Grant(c, now, root), now), was, now)
  {
    var g := Grant(c, now, root);
    GrantUndisturbed(c, now, root);
    if Protect(g, now).barrier.Some? && Protect(g, now).barrier != g.barrier { ProtectSetsLeast(g, now); }
  }

  lemma TurnPlaces(w: World, now: nat)
    requires SchedulerFairness.Inv(w)
    ensures Placed(Drive(w.queue, now).queue, w.queue.barrier, now)
  {
    var q, e := w.queue, Expire(w.queue, now);
    assert Obeys(Order, q, w.log);
    ExpireThins(q, now);
    ThinnedOrdered(e.roots, q.roots, q.sequence);
    if Protect(e, now).barrier.Some? && Protect(e, now).barrier != e.barrier { ProtectSetsLeast(e, now); }
    RoundsPlace(e, now, q.barrier);
  }

  lemma LeavePlaces(q: Queue, s: Step)
    requires s.Leave? && s.root < |q.roots|
    ensures Placed(Abandon(q, s.now, s.root, s.sequence), q.barrier, s.now)
  {
    var a := Abandon(q, s.now, s.root, s.sequence);
    var thin := q.(roots := a.roots);
    assert a.barrier == Protect(thin, s.now).barrier;
    if a.barrier.Some? && a.barrier != q.barrier {
      ProtectSetsLeast(thin, s.now);
      assert Standing(a) && LeastHead(a) && UrgentHead(a.roots, s.now);
    }
  }

  /**
    In every run, whatever the timestamps, a new barrier is set by a drive or a departure, on the
    least head by arrival, and only because some head was bypassed eight times or waited five seconds.
   */
  lemma BarrierIsSetOnLeastHead(w: World, steps: seq<Step>, s: Step)
    requires Initial(w)
    requires var f, g := Run(w, steps).queue, Run(w, steps + [s]).queue; g.barrier.Some? && g.barrier != f.barrier
    ensures var g := Run(w, steps + [s]).queue;
      Standing(g) && LeastHead(g) && (s.Turn? || s.Leave?) && UrgentHead(g.roots, s.now)
  {
    var f := Run(w, steps);
    assert (steps + [s])[..|steps|] == steps;
    RunKeeps(w, steps);
    match s
    case Join(_, _, _, _) =>
    case Leave(_, root, _) => if root < |f.queue.roots| { LeavePlaces(f.queue, s); }
    case Turn(now) => TurnPlaces(f, now);
    case Environment(_) =>
  }

  /** In every run, a drive that leaves a head bypassed eight times or waiting for five seconds leaves a barrier. */
  lemma UrgencyRaisesBarrier(w: World, steps: seq<Step>, now: nat)
    requires Initial(w) && UrgentHead(Run(w, steps + [Turn(now)]).queue.roots, now)
    ensures Run(w, steps + [Turn(now)]).queue.barrier.Some?
  {
    var f := Run(w, steps);
    assert (steps + [Turn(now)])[..|steps|] == steps;
    SchedulerWake.DriveEnds(f.queue, now);
    UrgentIsTriggered(Drive(f.queue, now).queue.roots, now);
  }

  /**
    In every run, whatever the timestamps, a head that comes before the protected request in
    the order of arrival has never been bypassed or overtaken.
   */
  lemma OlderHeadsAreUntouched(w: World, steps: seq<Step>, r: nat)
    requires Initial(w) && Run(w, steps).queue.barrier.Some?
    requires r < |Run(w, steps).queue.roots| && Run(w, steps).queue.roots[r] != []
    ensures var f := Run(w, steps); var q := f.queue; var head := q.roots[r][0];
      Standing(q) && (Older(head, Protected(q)) ==> head.bypasses == 0 && Overtaken(f.log, KeyOf(head)) == 0)
  {
    RunKeeps(w, steps);
    var f := Run(w, steps);
    var head := f.queue.roots[r][0];
    assert Obeys(Price, f.queue, f.log) && Obeys(Barring, f.queue, f.log);
    assert Paid(f.log, head);
    OvertakenNonNegative(f.log, KeyOf(head));
  }

  lemma OvertakenNonNegative(log: seq<Selection>, k: Key)
    ensures 0 <= Overtaken(log, k)
  {
    SumNonNegative(log, OvertakeOf(k));
  }

  /** The protected request comes first of all waiting requests in the order of arrival. */
  predicate OldestOfAll(q: Queue) {
    Standing(q) && forall r, i :: 0 <= r < |q.roots| && 0 <= i < |q.roots[r]| ==> !Older(q.roots[r][i], Protected(q))
  }

  /** The least head is the oldest of all when each line is in the order of its timestamps. */
  lemma LeastHeadIsOldest(q: Queue)
    requires Ordered(q.roots, q.sequence) && Standing(q) && LeastHead(q)
    requires forall r, i :: 0 <= r < |q.roots| && 0 < i < |q.roots[r]| ==>
        q.roots[r][0].enqueued <= q.roots[r][i].enqueued
    ensures OldestOfAll(q)
  {
    forall r, i | 0 <= r < |q.roots| && 0 <= i < |q.roots[r]| ensures !Older(q.roots[r][i], Protected(q)) {
      assert Tidy(q.roots[r], q.sequence);
      assert !Older(q.roots[r][0], Protected(q));
    }
  }

  /**
    In every run, a join under a barrier that protects the oldest request of all leaves it the
    oldest if and only if the join is refused or carries no earlier timestamp.
   */
  lemma JoinKeepsOldestIff(w: World, steps: seq<Step>, s: Step)
    requires Initial(w) && s.Join? && OldestOfAll(Run(w, steps).queue)
    ensures var q := Run(w, steps).queue; var joined := Enqueue(q, s.root, s.cost, s.enqueued, s.deadline).1;
      OldestOfAll(Run(w, steps + [s]).queue) <==> !joined.Ticket? || Protected(q).enqueued <= s.enqueued
  {
    assert (steps + [s])[..|steps|] == steps;
    RunKeeps(w, steps);
    assert Obeys(Order, Run(w, steps).queue, Run(w, steps).log);
    JoinOldest(Run(w, steps).queue, s);
  }

  lemma JoinOldest(q: Queue, s: Step)
    requires s.Join? && Ordered(q.roots, q.sequence) && OldestOfAll(q)
    ensures var (p, joined) := Enqueue(q, s.root, s.cost, s.enqueued, s.deadline);
      OldestOfAll(p) <==> !joined.Ticket? || Protected(q).enqueued <= s.enqueued
  {
    var (p, joined) := Enqueue(q, s.root, s.cost, s.enqueued, s.deadline);
    if joined.Ticket? {
      var b := q.barrier.value.root;
      assert Tidy(q.roots[b], q.sequence);
      assert Standing(p) && Protected(p) == Protected(q);
      var n := |q.roots[s.root]|;
      assert p.roots[s.root][n].enqueued == s.enqueued && p.roots[s.root][n].sequence == q.sequence + 1;
      if Protected(q).enqueued <= s.enqueued {
        forall r, i | 0 <= r < |p.roots| && 0 <= i < |p.roots[r]| ensures !Older(p.roots[r][i], Protected(p)) {
          if i < |q.roots[r]| { assert p.roots[r][i] == q.roots[r][i]; }
        }
      }
    }
  }

  lemma ThinnedOldest(q: Queue, p: Queue, b: Barrier)
    requires Ordered(q.roots, q.sequence) && Guards(q, b) && Guards(p, b) && ThinnedRoots(p.roots, q.roots)
    requires OldestOfAll(q)
    ensures OldestOfAll(p) && Protected(p) == Protected(q)
  {
    assert Tidy(q.roots[b.root], q.sequence);
    SameHead(p.roots[b.root], q.roots[b.root]);
    forall r, i | 0 <= r < |p.roots| && 0 <= i < |p.roots[r]| ensures !Older(p.roots[r][i], Protected(p)) {
      assert p.roots[r][i] in q.roots[r];
      var j :| 0 <= j < |q.roots[r]| && q.roots[r][j] == p.roots[r][i];
    }
  }

  /** Only an accepted join with an earlier timestamp can take the protected request its place. */
  lemma StepOldest(w: World, s: Step, b: Barrier)
    requires SchedulerFairness.Inv(w) && Guards(w.queue, b) && OldestOfAll(w.queue)
    requires Queued(Apply(w, s).queue.roots, b.sequence)
    requires s.Join? ==> Protected(w.queue).enqueued <= s.enqueued
    ensures var v := Apply(w, s).queue; Guards(v, b) && OldestOfAll(v) && Protected(v) == Protected(w.queue)
  {
    var q := w.queue;
    assert Obeys(Order, q, w.log);
    match s
    case Join(_, _, _, _) => JoinOldest(q, s);
    case Leave(now, root, ticket) =>
      if root < |q.roots| {
        LeaveGuards(w, s, b);
        AbandonThins(q, now, root, ticket);
        ThinnedOldest(q, Abandon(q, now, root, ticket), b);
      }
    case Turn(now) =>
      TurnGuards(w, now, b);
      ThinnedOldest(q, Drive(q, now).queue, b);
    case Environment(_) =>
  }

  /** Joins of `more` carry no timestamp before `enqueued`. */
  predicate NoneEarlier(more: seq<Step>, enqueued: nat) {
    forall i :: 0 <= i < |more| && more[i].Join? ==> enqueued <= more[i].enqueued
  }

  /**
    In every run, a protected request that is the oldest of all remains so for as long as it is
    in line and no join carries an earlier timestamp than its own.
   */
  lemma {:induction false} OldestUntilEarlierJoin(w: World, steps: seq<Step>, more: seq<Step>, b: Barrier)
    requires Initial(w) && Run(w, steps).queue.barrier == Some(b) && OldestOfAll(Run(w, steps).queue)
    requires NoneEarlier(more, Protected(Run(w, steps).queue).enqueued)
    requires Queued(Run(w, steps + more).queue.roots, b.sequence)
    ensures var v := Run(w, steps + more).queue;
      Guards(v, b) && OldestOfAll(v) && Protected(v) == Protected(Run(w, steps).queue)
    decreases |more|
  {
    if more == [] {
      assert steps + more == steps;
    } else {
      var init, s := more[..|more| - 1], more[|more| - 1];
      var v := Run(w, steps + init);
      RunSplits(w, steps, more);
      RunKeeps(w, steps + init);
      GivenOut(w, steps, init, b);
      StepQueued(v, s, b.sequence);
      OldestUntilEarlierJoin(w, steps, init, b);
      StepOldest(v, s, b);
    }
  }

  // ---------------------------------------------------------------- a retry behind a barrier

  /** Two roots and a cooldown that outlasts the run, so that nobody is admitted. */
  const COOLING: Queue :=
    Queue(Fresh(Unlimited, Unlimited, Reserved, 4, 0, 0), 100 * SECOND, 0, None, 0, [[], []], 0, 0, None, map[])

  const FIRST: Waiting := Waiting(Metadata, 10 * SECOND, 90 * SECOND, 1, 0)

  /** A request that was first taken in at three seconds and comes back with a new number. */
  const RETRIED: Waiting := Waiting(Metadata, 3 * SECOND, 90 * SECOND, 2, 0)

  function JoinOf(root: nat, w: Waiting): Step { Join(root, w.cost, w.enqueued, w.deadline) }

  /** Two lines in the cooling queue. */
  function Lines(left: seq<Waiting>, right: seq<Waiting>, barrier: Option<Barrier>): Queue {
    COOLING.(sequence := |left| + |right|, roots := [left, right], barrier := barrier)
  }

  lemma LenTwo(left: seq<Waiting>, right: seq<Waiting>)
    ensures Len([left, right]) == |left| + |right|
  {
    assert [left, right][..1] == [left] && [left][..0] == [];
    assert Len([left]) == Len([]) + |left|;
  }

  lemma JoinLeft(w: Waiting)
    requires w == Waiting(Metadata, w.enqueued, w.deadline, 1, 0)
    ensures Apply(World(Lines([], [], None), []), JoinOf(0, w)) == World(Lines([w], [], None), [])
  {
    LenTwo([], []);
    assert [] + [w] == [w];
    assert Lines([], [], None).roots[0 := [w]] == [[w], []];
  }

  lemma JoinRight(v: Waiting, barrier: Option<Barrier>, w: Waiting)
    requires w == Waiting(Metadata, w.enqueued, w.deadline, 2, 0)
    ensures Apply(World(Lines([v], [], barrier), []), JoinOf(1, w)) == World(Lines([v], [w], barrier), [])
  {
    LenTwo([v], []);
    assert [] + [w] == [w];
    assert Lines([v], [], barrier).roots[1 := [w]] == [[v], [w]];
  }

  lemma CoolingTurn(q: Queue, now: nat)
    requires now < q.cooldownUntil && SchedulerWake.Alive(q.roots, now)
    ensures Apply(World(q, []), Turn(now)) == World(Protect(q, now), [])
  {
    SchedulerWake.AliveExpiresNothing(q.roots, now, q.cells);
    assert Expire(q, now) == q;
    RoundsOnce(q, now);
  }

  lemma TwoHeads(left: seq<Waiting>, right: seq<Waiting>, now: nat)
    requires left != [] && Urgent(left[0], now)
    ensures Protect(Lines(left, right, None), now).barrier ==
      if right != [] && Older(right[0], left[0]) then Some(Barrier(1, right[0].sequence))
          else Some(Barrier(0, left[0].sequence))
  {
    assert [left, right][..1] == [left] && [left][..0] == [];
    assert Oldest([left]) == Some(0);
    assert Urgent([left, right][0][0], now);
  }

  lemma RunSnoc(w: World, steps: seq<Step>, s: Step)
    ensures Run(w, steps + [s]) == Apply(Run(w, steps), s)
  {
    assert (steps + [s])[..|steps|] == steps;
  }

  lemma LinesTurn(left: seq<Waiting>, right: seq<Waiting>, now: nat, b: Barrier)
    requires SchedulerWake.Alive([left, right], now) && now < 100 * SECOND && left != [] && Urgent(left[0], now)
    requires b == if right != [] && Older(right[0], left[0]) then Barrier(1, right[0].sequence)
        else Barrier(0, left[0].sequence)
    ensures Apply(World(Lines(left, right, None), []), Turn(now)) == World(Lines(left, right, Some(b)), [])
  {
    CoolingTurn(Lines(left, right, None), now);
    TwoHeads(left, right, now);
  }

  lemma RunThree(w: World, a: Step, b: Step, c: Step, x: World, y: World, z: World)
    requires Apply(w, a) == x && Apply(x, b) == y && Apply(y, c) == z
    ensures Run(w, [] + [a] + [b] + [c]) == z
  {
    RunSnoc(w, [], a);
    RunSnoc(w, [] + [a], b);
    RunSnoc(w, [] + [a] + [b], c);
  }

  const NOBODY: World := World(Lines([], [], None), [])

  lemma RetryRun()
    ensures Run(NOBODY, [] + [JoinOf(0, FIRST)] + [Turn(15 * SECOND)] + [JoinOf(1, RETRIED)])
         == World(Lines([FIRST], [RETRIED], Some(Barrier(0, 1))), [])
  {
    var b := Barrier(0, 1);
    var x, y, z := World(Lines([FIRST], [], None), []), World(Lines([FIRST], [], Some(b)), []),
        World(Lines([FIRST], [RETRIED], Some(b)), []);
    JoinLeft(FIRST);
    LinesTurn([FIRST], [], 15 * SECOND, b);
    JoinRight(FIRST, Some(b), RETRIED);
    RunThree(NOBODY, JoinOf(0, FIRST), Turn(15 * SECOND), JoinOf(1, RETRIED), x, y, z);
  }

  /** Without ordered timestamps, a request may join that is older than the protected one. */
  lemma RetryOutranksTheProtected()
    ensures Initial(NOBODY)
    ensures var q := Run(NOBODY, [] + [JoinOf(0, FIRST)] + [Turn(15 * SECOND)] + [JoinOf(1, RETRIED)]).queue;
      Standing(q) && Protected(q) == FIRST && q.roots == [[FIRST], [RETRIED]] && Older(RETRIED, FIRST)
  {
    RetryRun();
  }

  lemma PassedRun()
    ensures Run(NOBODY, [] + [JoinOf(0, FIRST)] + [JoinOf(1, RETRIED)] + [Turn(15 * SECOND)])
         == World(Lines([FIRST], [RETRIED], Some(Barrier(1, 2))), [])
  {
    var b := Barrier(1, 2);
    var x, y, z := World(Lines([FIRST], [], None), []), World(Lines([FIRST], [RETRIED], None), []),
        World(Lines([FIRST], [RETRIED], Some(b)), []);
    JoinLeft(FIRST);
    JoinRight(FIRST, None, RETRIED);
    LinesTurn([FIRST], [RETRIED], 15 * SECOND, b);
    RunThree(NOBODY, JoinOf(0, FIRST), JoinOf(1, RETRIED), Turn(15 * SECOND), x, y, z);
  }

  /** Without ordered timestamps, a barrier may be set past a request with a smaller number. */
  lemma BarrierPassesSmallerNumber()
    ensures Initial(NOBODY)
    ensures var q := Run(NOBODY, [] + [JoinOf(0, FIRST)] + [JoinOf(1, RETRIED)] + [Turn(15 * SECOND)]).queue;
      Standing(q) && Protected(q) == RETRIED && q.roots == [[FIRST], [RETRIED]] && FIRST.sequence < RETRIED.sequence
  {
    PassedRun();
  }
}
