/**
  Who can overtake whom, over whole runs of the queue.

  A run interleaves joins, abandoned tickets and drives with arbitrary environment steps
  (starts, settlements, recovery feedback) that may rewrite everything except the waiting
  lists, the cursor, the sequence counter and the barrier.  The log collects every
  admission together with the queue it was decided on.
 */
module SchedulerFairness {
  import opened Prelude
  import opened Quota
  import opened Scheduler
  import SchedulerWake

  datatype World = World(queue: Queue, log: seq<Selection>)

  datatype Step =
    | Join(root: nat, cost: Cost, enqueued: nat, deadline: nat)
    | Leave(now: nat, root: nat, sequence: nat)
    | Turn(now: nat)
    | Environment(to: Queue)

  predicate SameSchedule(a: Queue, b: Queue) {
    a.roots == b.roots && a.cursor == b.cursor && a.sequence == b.sequence && a.barrier == b.barrier
  }

  function Apply(w: World, s: Step): World {
    match s
    case Join(root, cost, enqueued, deadline) => w.(queue := Enqueue(w.queue, root, cost, enqueued, deadline).0)
    case Leave(now, root, sequence) =>
      if root < |w.queue.roots| then w.(queue := Abandon(w.queue, now, root, sequence)) else w
    case Turn(now) => World(Drive(w.queue, now).queue, w.log + Drive(w.queue, now).log)
    case Environment(to) => if SameSchedule(to, w.queue) then w.(queue := to) else w
  }

  function Run(w: World, steps: seq<Step>): World {
    if steps == [] then w else Apply(Run(w, steps[..|steps| - 1]), steps[|steps| - 1])
  }

  predicate Initial(w: World) {
    && (forall r :: 0 <= r < |w.queue.roots| ==> w.queue.roots[r] == [])
    && w.queue.cursor == 0 && w.queue.barrier.None? && w.log == []
  }

  // ---------------------------------------------------------------- overtaking

  /** A request's place in the order of arrival. */
  datatype Key = Key(enqueued: nat, sequence: nat)

  function KeyOf(w: Waiting): Key { Key(w.enqueued, w.sequence) }

  predicate Earlier(a: Key, b: Key) {
    a.enqueued < b.enqueued || (a.enqueued == b.enqueued && a.sequence < b.sequence)
  }

  /** In this selection, `k` headed root `r`, did not fit, and a newer request was admitted. */
  predicate OvertakesAt(s: Selection, k: Key, r: nat) {
    var q := s.before;
    && s.root < |q.roots| && q.roots[s.root] != []
    && r < |q.roots| && r != s.root && q.roots[r] != []
    && KeyOf(q.roots[r][0]) == k && !Fits(q, s.now, r)
    && Earlier(k, KeyOf(q.roots[s.root][0]))
  }

  ghost predicate Overtakes(s: Selection, k: Key) { exists r :: OvertakesAt(s, k, r) }

  ghost function OvertakeOf(k: Key): Selection -> int { (s: Selection) => if Overtakes(s, k) then 1 else 0 }

  /** How often `k`, while heading its root without fitting, was overtaken by a newer request. */
  ghost function Overtaken(log: seq<Selection>, k: Key): int { SumBy(log, OvertakeOf(k)) }

  // ---------------------------------------------------------------- the invariant

  predicate Tidy(s: seq<Waiting>, limit: nat) {
    && Sorted(s)
    && (forall i :: 0 <= i < |s| ==> s[i].sequence <= limit)
    && (forall i :: 0 < i < |s| ==> s[i].bypasses == 0)
  }

  predicate Apart(a: seq<Waiting>, b: seq<Waiting>) {
    forall i, j :: 0 <= i < |a| && 0 <= j < |b| ==> a[i].sequence != b[j].sequence
  }

  predicate Ordered(roots: seq<seq<Waiting>>, limit: nat) {
    && (forall r :: 0 <= r < |roots| ==> Tidy(roots[r], limit))
    && (forall r, t :: 0 <= r < |roots| && 0 <= t < |roots| && r != t ==> Apart(roots[r], roots[t]))
  }

  /** Overtaking is paid for by bypasses, and stops at the bypass limit. */
  ghost predicate Paid(log: seq<Selection>, w: Waiting) {
    Overtaken(log, KeyOf(w)) <= Min(w.bypasses, MAX_BYPASSES)
  }

  ghost predicate Counted(q: Queue, log: seq<Selection>) {
    && (forall r, i :: 0 <= r < |q.roots| && 0 <= i < |q.roots[r]| ==> Paid(log, q.roots[r][i]))
    && (forall k: Key :: Overtaken(log, k) <= MAX_BYPASSES)
    && (forall k: Key :: q.sequence < k.sequence ==> Overtaken(log, k) == 0)
  }

  /** A head that is older than a standing barrier became head after it, so it is untouched. */
  predicate Undisturbed(q: Queue) {
    Standing(q) ==>
      var b := q.barrier.value.root;
      forall r | 0 <= r < |q.roots| && r != b && q.roots[r] != [] ::
        Older(q.roots[r][0], q.roots[b][0]) ==> q.roots[r][0].bypasses == 0
  }

  /** The laws every queue of a run obeys; a proof that needs one asks for it by name. */
  datatype Law = Order | Price | Barring

  ghost predicate Obeys(law: Law, q: Queue, log: seq<Selection>) {
    match law
    case Order => Ordered(q.roots, q.sequence)
    case Price => Counted(q, log)
    case Barring => Undisturbed(q)
  }

  ghost predicate Good(q: Queue, log: seq<Selection>) { forall law :: Obeys(law, q, log) }

  /** Queues with the same lines and barrier obey the same laws. */
  lemma ScheduleGood(q: Queue, p: Queue, log: seq<Selection>)
    requires Good(q, log) && p.roots == q.roots && p.sequence == q.sequence && p.barrier == q.barrier
    ensures Good(p, log)
  {
    forall law ensures Obeys(law, p, log) { assert Obeys(law, q, log); }
  }

  ghost predicate Inv(w: World) { Good(w.queue, w.log) && (w.queue.barrier.Some? ==> Standing(w.queue)) }

  // ---------------------------------------------------------------- thinning a waiting list

  predicate Thinned(a: seq<Waiting>, b: seq<Waiting>) { Sorted(a) && forall w :: w in a ==> w in b }

  lemma ThinnedTidy(a: seq<Waiting>, b: seq<Waiting>, limit: nat)
    requires Thinned(a, b) && Tidy(b, limit)
    ensures Tidy(a, limit)
    ensures a != [] ==> b != [] && (a[0] == b[0] || a[0].bypasses == 0)
  {
    forall i | 0 <= i < |a| ensures a[i].sequence <= limit && (0 < i ==> a[i].bypasses == 0) {
      assert a[i] in b;
      var j :| 0 <= j < |b| && b[j] == a[i];
      if 0 < i {
        assert a[0] in b;
        var j0 :| 0 <= j0 < |b| && b[j0] == a[0];
        assert j0 < j;
      }
    }
    if a != [] {
      assert a[0] in b;
    }
  }

  lemma ThinnedApart(a: seq<Waiting>, b: seq<Waiting>, c: seq<Waiting>, d: seq<Waiting>)
    requires Thinned(a, b) && Thinned(c, d) && Apart(b, d)
    ensures Apart(a, c)
  {
    forall i, j | 0 <= i < |a| && 0 <= j < |c| ensures a[i].sequence != c[j].sequence {
      assert a[i] in b && c[j] in d;
      var x :| 0 <= x < |b| && b[x] == a[i];
      var y :| 0 <= y < |d| && d[y] == c[j];
    }
  }

  predicate ThinnedRoots(a: seq<seq<Waiting>>, b: seq<seq<Waiting>>) {
    |a| == |b| && forall r :: 0 <= r < |a| ==> Thinned(a[r], b[r])
  }

  lemma ThinnedOrdered(a: seq<seq<Waiting>>, b: seq<seq<Waiting>>, limit: nat)
    requires ThinnedRoots(a, b) && Ordered(b, limit)
    ensures Ordered(a, limit)
  {
    forall r | 0 <= r < |a| ensures Tidy(a[r], limit) {
      ThinnedTidy(a[r], b[r], limit);
    }
    forall r, t | 0 <= r < |a| && 0 <= t < |a| && r != t ensures Apart(a[r], a[t]) {
      ThinnedApart(a[r], b[r], a[t], b[t]);
    }
  }

  lemma ThinnedCounted(q: Queue, log: seq<Selection>, roots: seq<seq<Waiting>>)
    requires Counted(q, log) && ThinnedRoots(roots, q.roots)
    ensures Counted(q.(roots := roots), log)
  {
    forall r, i | 0 <= r < |roots| && 0 <= i < |roots[r]| ensures Paid(log, roots[r][i]) {
      assert roots[r][i] in q.roots[r];
      var j :| 0 <= j < |q.roots[r]| && q.roots[r][j] == roots[r][i];
    }
  }

  lemma SameHead(a: seq<Waiting>, b: seq<Waiting>)
    requires Thinned(a, b) && Sorted(b) && a != [] && b != [] && a[0].sequence == b[0].sequence
    ensures a[0] == b[0]
  {
    assert a[0] in b;
    var j :| 0 <= j < |b| && b[j] == a[0];
  }

  lemma ThinnedUndisturbed(q: Queue, roots: seq<seq<Waiting>>)
    requires Ordered(q.roots, q.sequence) && ThinnedRoots(roots, q.roots)
    requires Undisturbed(q) && (q.barrier.Some? ==> Standing(q))
    ensures Undisturbed(q.(roots := roots))
  {
    var p := q.(roots := roots);
    if Standing(p) {
      var b := q.barrier.value.root;
      assert Tidy(q.roots[b], q.sequence);
      SameHead(roots[b], q.roots[b]);
      forall r | 0 <= r < |roots| && r != b && roots[r] != [] && Older(roots[r][0], roots[b][0])
        ensures roots[r][0].bypasses == 0
      {
        ThinnedTidy(roots[r], q.roots[r], q.sequence);
        assert roots[r][0] in q.roots[r];
      }
    }
  }

  lemma ThinnedGood(q: Queue, log: seq<Selection>, roots: seq<seq<Waiting>>)
    requires Good(q, log) && (q.barrier.Some? ==> Standing(q)) && ThinnedRoots(roots, q.roots)
    ensures Good(q.(roots := roots), log)
  {
    assert Obeys(Order, q, log);
    forall law ensures Obeys(law, q.(roots := roots), log) {
      assert Obeys(law, q, log);
      match law
      case Order => ThinnedOrdered(roots, q.roots, q.sequence);
      case Price => ThinnedCounted(q, log, roots);
      case Barring => ThinnedUndisturbed(q, roots);
    }
  }

  lemma {:induction false} UnexpiredThins(s: seq<Waiting>, now: nat)
    requires Sorted(s)
    ensures Thinned(Unexpired(s, now), s)
  {
    if s != [] {
      var init, w := s[..|s| - 1], s[|s| - 1];
      UnexpiredThins(init, now);
      var kept := Unexpired(init, now);
      forall i | 0 <= i < |kept| ensures kept[i].sequence < w.sequence {
        assert kept[i] in init;
        var j :| 0 <= j < |init| && init[j] == kept[i];
        assert s[j] == init[j];
      }
    }
  }

  lemma {:induction false} WithoutThins(s: seq<Waiting>, sequence: nat)
    requires Sorted(s)
    ensures Thinned(Without(s, sequence), s)
  {
    if s != [] && s[0].sequence != sequence {
      WithoutThins(s[1..], sequence);
      var rest := Without(s[1..], sequence);
      forall i | 0 <= i < |rest| ensures s[0].sequence < rest[i].sequence {
        assert rest[i] in s[1..];
        var j :| 0 <= j < |s[1..]| && s[1..][j] == rest[i];
        assert s[j + 1] == rest[i];
      }
      forall w | w in [s[0]] + rest ensures w in s {
        if w in rest { assert w in s[1..]; }
      }
    }
  }

  lemma ThinnedSelf(s: seq<Waiting>)
    requires Sorted(s)
    ensures Thinned(s, s)
  {}

  // ---------------------------------------------------------------- the steps

  lemma ProtectGood(q: Queue, now: nat, log: seq<Selection>)
    requires Good(q, log)
    ensures Good(Protect(q, now), log)
    ensures Protect(q, now).barrier.Some? ==> Standing(Protect(q, now))
  {
    forall law ensures Obeys(law, Protect(q, now), log) { assert Obeys(law, q, log); }
  }

  /** A key heads at most one root. */
  lemma HeadsDiffer(q: Queue, r: nat, i: nat, t: nat)
    requires Ordered(q.roots, q.sequence) && r < |q.roots| && t < |q.roots|
    requires i < |q.roots[r]| && q.roots[t] != []
    requires KeyOf(q.roots[r][i]) == KeyOf(q.roots[t][0])
    ensures r == t && i == 0
  {
    assert r == t || Apart(q.roots[r], q.roots[t]);
    assert Tidy(q.roots[r], q.sequence);
  }

  /** The price of one selection, for the head of a root that lost it. */
  lemma LoserPays(q: Queue, now: nat, root: nat, log: seq<Selection>, r: nat)
    requires Good(q, log) && Protect(q, now) == q && Select(q, now) == Some(root)
    requires r < |q.roots| && r != root && q.roots[r] != [] && !Fits(q, now, r)
    ensures Paid(log + [Selection(q, now, root)], Bypassed(q.roots[r][0]))
  {
    assert Obeys(Order, q, log) && Obeys(Price, q, log) && Obeys(Barring, q, log);
    var s, h := Selection(q, now, root), q.roots[r][0];
    var k := KeyOf(h);
    SumSnoc(log, s, OvertakeOf(k));
    assert Paid(log, h);
    if Overtakes(s, k) {
      var t: nat :| OvertakesAt(s, k, t);
      HeadsDiffer(q, r, 0, t);
      if q.barrier.Some? {
        assert Older(h, q.roots[root][0]);
        assert h.bypasses == 0;
      } else {
        assert !Urgent(h, now);
      }
    }
  }

  /** Everyone else's count is unchanged. */
  lemma OthersDoNot(q: Queue, now: nat, root: nat, log: seq<Selection>, r: nat, i: nat)
    requires Ordered(q.roots, q.sequence) && Fits(q, now, root)
    requires r < |q.roots| && i < |q.roots[r]| && (0 < i || r == root || Fits(q, now, r))
    ensures Overtaken(log + [Selection(q, now, root)], KeyOf(q.roots[r][i])) == Overtaken(log, KeyOf(q.roots[r][i]))
  {
    var s, k := Selection(q, now, root), KeyOf(q.roots[r][i]);
    SumSnoc(log, s, OvertakeOf(k));
    if Overtakes(s, k) {
      var t: nat :| OvertakesAt(s, k, t);
      HeadsDiffer(q, r, i, t);
      assert false;
    }
  }

  lemma GrantRoot(q: Queue, now: nat, root: nat, r: nat)
    requires Fits(q, now, root) && r < |q.roots|
    ensures var g := Grant(q, now, root).roots;
      && |g| == |q.roots|
      && g[r] == if r == root then q.roots[r][1..]
                 else if !Fits(q, now, r) && q.roots[r] != [] then q.roots[r][0 := Bypassed(q.roots[r][0])]
                 else q.roots[r]
  {}

  lemma GrantOrdered(q: Queue, now: nat, root: nat)
    requires Ordered(q.roots, q.sequence) && Fits(q, now, root)
    ensures Ordered(Grant(q, now, root).roots, q.sequence)
  {
    var g: seq<seq<Waiting>> := Grant(q, now, root).roots;
    forall r | 0 <= r < |g| ensures Tidy(g[r], q.sequence) {
      assert Tidy(q.roots[r], q.sequence);
      GrantTidy(q, now, root, r);
    }
    forall r, t | 0 <= r < |g| && 0 <= t < |g| && r != t ensures Apart(g[r], g[t]) {
      assert Apart(q.roots[r], q.roots[t]);
      GrantApart(q, now, root, r, t);
    }
  }

  lemma GrantTidy(q: Queue, now: nat, root: nat, r: nat)
    requires Fits(q, now, root) && r < |q.roots| && Tidy(q.roots[r], q.sequence)
    ensures |Grant(q, now, root).roots| == |q.roots| && Tidy(Grant(q, now, root).roots[r], q.sequence)
  {
    GrantRoot(q, now, root, r);
  }

  /** A granted line has the sequence numbers of the line, without its head if that was admitted. */
  lemma GrantNumbers(q: Queue, now: nat, root: nat, r: nat)
    requires Fits(q, now, root) && r < |q.roots|
    ensures var g := Grant(q, now, root).roots; var skip := if r == root then 1 else 0;
      && |g| == |q.roots| && |g[r]| + skip == |q.roots[r]|
      && forall i :: 0 <= i < |g[r]| ==> g[r][i].sequence == q.roots[r][i + skip].sequence
  {
    GrantRoot(q, now, root, r);
    assert |Grant(q, now, root).roots| == |q.roots|;
  }

  lemma GrantApart(q: Queue, now: nat, root: nat, r: nat, t: nat)
    requires Fits(q, now, root) && r < |q.roots| && t < |q.roots| && Apart(q.roots[r], q.roots[t])
    ensures var g := Grant(q, now, root).roots; |g| == |q.roots| && Apart(g[r], g[t])
  {
    GrantNumbers(q, now, root, r);
    GrantNumbers(q, now, root, t);
  }

  lemma GrantPaid(q: Queue, now: nat, root: nat, log: seq<Selection>, r: nat, i: nat)
    requires Good(q, log) && Protect(q, now) == q && Select(q, now) == Some(root)
    requires r < |q.roots|
    ensures var g := Grant(q, now, root).roots;
      |g| == |q.roots| && (i < |g[r]| ==> Paid(log + [Selection(q, now, root)], g[r][i]))
  {
    assert Obeys(Order, q, log) && Obeys(Price, q, log);
    GrantRoot(q, now, root, r);
    var g: seq<seq<Waiting>> := Grant(q, now, root).roots;
    if i < |g[r]| {
      if r == root {
        assert Tidy(q.roots[r], q.sequence) && Paid(log, q.roots[r][i + 1]);
        OthersDoNot(q, now, root, log, r, i + 1);
      } else if i == 0 && !Fits(q, now, r) {
        LoserPays(q, now, root, log, r);
      } else {
        assert Paid(log, q.roots[r][i]);
        OthersDoNot(q, now, root, log, r, i);
      }
    }
  }

  lemma GrantCounted(q: Queue, now: nat, root: nat, log: seq<Selection>)
    requires Good(q, log) && Protect(q, now) == q && Select(q, now) == Some(root)
    ensures Counted(Grant(q, now, root), log + [Selection(q, now, root)])
  {
    assert Obeys(Order, q, log) && Obeys(Price, q, log);
    var s := Selection(q, now, root);
    var g: seq<seq<Waiting>> := Grant(q, now, root).roots;
    forall r: nat, i: nat | r < |g| && i < |g[r]| ensures Paid(log + [s], g[r][i]) {
      GrantPaid(q, now, root, log, r, i);
    }
    forall k: Key ensures Overtaken(log + [s], k) <= MAX_BYPASSES
             ensures q.sequence < k.sequence ==> Overtaken(log + [s], k) == 0
    {
      SumSnoc(log, s, OvertakeOf(k));
      if Overtakes(s, k) {
        var t: nat :| OvertakesAt(s, k, t);
        LoserPays(q, now, root, log, t);
        assert Tidy(q.roots[t], q.sequence);
      }
      assert Overtaken(log, k) <= MAX_BYPASSES;
    }
  }

  /** After the barrier's own head is admitted, the barrier no longer stands. */
  lemma GrantUndisturbed(q: Queue, now: nat, root: nat)
    requires Ordered(q.roots, q.sequence) && Select(q, now) == Some(root)
    requires q.barrier.Some? ==> Standing(q)
    ensures !Standing(Grant(q, now, root))
  {
    GrantRoot(q, now, root, root);
    assert Tidy(q.roots[root], q.sequence);
  }

  lemma GrantGood(q: Queue, now: nat, root: nat, log: seq<Selection>)
    requires Inv(World(q, log)) && Protect(q, now) == q && Select(q, now) == Some(root)
    ensures Good(Grant(q, now, root), log + [Selection(q, now, root)])
  {
    assert Obeys(Order, q, log);
    GrantUndisturbed(q, now, root);
    forall law ensures Obeys(law, Grant(q, now, root), log + [Selection(q, now, root)]) {
      match law
      case Order => GrantOrdered(q, now, root);
      case Price => GrantCounted(q, now, root, log);
      case Barring =>
    }
  }

  /** The queue on which a round selects. */
  function Ready(q: Queue, now: nat): Queue { Inspect(Protect(q, now), now) }

  /** A drive's rounds, one at a time. */
  lemma RoundsOnce(q: Queue, now: nat)
    ensures var c := Ready(q, now); var root := Select(c, now);
      && (now < q.cooldownUntil ==> Rounds(q, now) == (Protect(q, now), []))
      && (q.cooldownUntil <= now && root.None? ==> Rounds(q, now) == (c, []))
      && (q.cooldownUntil <= now && root.Some? ==>
            var (end, rest) := Rounds(Grant(c, now, root.value), now);
            Rounds(q, now) == (end, [Selection(c, now, root.value)] + rest))
  {}

  lemma ReadyGood(q: Queue, now: nat, log: seq<Selection>)
    requires Good(q, log)
    ensures Inv(World(Protect(q, now), log)) && Inv(World(Ready(q, now), log))
    ensures Protect(Ready(q, now), now) == Ready(q, now)
  {
    ProtectGood(q, now, log);
    ScheduleGood(Protect(q, now), Ready(q, now), log);
    SchedulerWake.ProtectTwice(q, now);
    SchedulerWake.InspectTwice(Protect(q, now), now);
  }

  lemma {:induction false} RoundsGood(q: Queue, now: nat, log: seq<Selection>)
    requires Good(q, log)
    ensures Inv(World(Rounds(q, now).0, log + Rounds(q, now).1))
    decreases Len(q.roots)
  {
    ReadyGood(q, now, log);
    assert log + [] == log;
    var c := Ready(q, now);
    if q.cooldownUntil <= now && Select(c, now).Some? {
      var root := Select(c, now).value;
      var g, s := Grant(c, now, root), Selection(c, now, root);
      GrantShrinks(c, now, root);
      GrantGood(c, now, root, log);
      RoundsGood(g, now, log + [s]);
      RoundsOnce(q, now);
      assert log + ([s] + Rounds(g, now).1) == (log + [s]) + Rounds(g, now).1;
    } else {
      RoundsOnce(q, now);
    }
  }

  lemma ExpireThins(q: Queue, now: nat)
    requires Ordered(q.roots, q.sequence)
    ensures ThinnedRoots(ExpireRoots(q.roots, now), q.roots)
  {
    forall r | 0 <= r < |q.roots| ensures Thinned(ExpireRoots(q.roots, now)[r], q.roots[r]) {
      assert Tidy(q.roots[r], q.sequence);
      UnexpiredThins(q.roots[r], now);
    }
  }

  lemma ExpireGood(q: Queue, now: nat, log: seq<Selection>)
    requires Good(q, log) && (q.barrier.Some? ==> Standing(q))
    ensures Good(Expire(q, now), log)
  {
    assert Obeys(Order, q, log);
    ExpireThins(q, now);
    ThinnedGood(q, log, ExpireRoots(q.roots, now));
    ScheduleGood(q.(roots := ExpireRoots(q.roots, now)), Expire(q, now), log);
  }

  lemma TurnIs(w: World, now: nat)
    ensures var rounds := Rounds(Expire(w.queue, now), now);
      Apply(w, Turn(now)) == World(rounds.0, w.log + rounds.1)
  {}

  lemma TurnKeeps(w: World, now: nat)
    requires Inv(w)
    ensures Inv(Apply(w, Turn(now)))
  {
    ExpireGood(w.queue, now, w.log);
    RoundsGood(Expire(w.queue, now), now, w.log);
    TurnIs(w, now);
  }

  lemma AbandonThins(q: Queue, now: nat, root: nat, sequence: nat)
    requires Ordered(q.roots, q.sequence) && root < |q.roots|
    ensures ThinnedRoots(Abandon(q, now, root, sequence).roots, q.roots)
  {
    forall r | 0 <= r < |q.roots| ensures Thinned(Abandon(q, now, root, sequence).roots[r], q.roots[r]) {
      assert Tidy(q.roots[r], q.sequence);
      WithoutThins(q.roots[r], sequence);
      ThinnedSelf(q.roots[r]);
    }
  }

  /** Apart from its ledger, cells and probe, an abandoned queue is the thinned one, protected again. */
  lemma AbandonProtects(q: Queue, now: nat, root: nat, sequence: nat)
    requires root < |q.roots|
    ensures var a := Abandon(q, now, root, sequence); var p := Protect(q.(roots := a.roots), now);
      a.roots == p.roots && a.sequence == p.sequence && a.barrier == p.barrier
  {}

  lemma LeaveKeeps(w: World, now: nat, root: nat, sequence: nat)
    requires Inv(w) && root < |w.queue.roots|
    ensures Inv(w.(queue := Abandon(w.queue, now, root, sequence)))
  {
    var q := w.queue;
    var a := Abandon(q, now, root, sequence);
    assert Obeys(Order, q, w.log);
    AbandonThins(q, now, root, sequence);
    ThinnedGood(q, w.log, a.roots);
    ProtectGood(q.(roots := a.roots), now, w.log);
    AbandonProtects(q, now, root, sequence);
    ScheduleGood(Protect(q.(roots := a.roots), now), a, w.log);
  }

  lemma JoinKeeps(w: World, root: nat, cost: Cost, enqueued: nat, deadline: nat)
    requires Inv(w)
    ensures Inv(w.(queue := Enqueue(w.queue, root, cost, enqueued, deadline).0))
  {
    var q := w.queue;
    var p := Enqueue(q, root, cost, enqueued, deadline).0;
    forall law ensures Obeys(law, p, w.log) {
      assert Obeys(law, q, w.log);
      match law
      case Order => JoinOrdered(q, root, cost, enqueued, deadline);
      case Price => JoinCounted(q, w.log, root, cost, enqueued, deadline);
      case Barring => JoinUndisturbed(q, root, cost, enqueued, deadline);
    }
  }

  lemma JoinUndisturbed(q: Queue, root: nat, cost: Cost, enqueued: nat, deadline: nat)
    requires Undisturbed(q) && (q.barrier.Some? ==> Standing(q))
    ensures Undisturbed(Enqueue(q, root, cost, enqueued, deadline).0)
  {}

  lemma JoinCounted(q: Queue, log: seq<Selection>, root: nat, cost: Cost, enqueued: nat, deadline: nat)
    requires Counted(q, log)
    ensures Counted(Enqueue(q, root, cost, enqueued, deadline).0, log)
  {
    var p := Enqueue(q, root, cost, enqueued, deadline).0;
    forall r, i | 0 <= r < |p.roots| && 0 <= i < |p.roots[r]| ensures Paid(log, p.roots[r][i]) {
      if i < |q.roots[r]| {
        assert p.roots[r][i] == q.roots[r][i] && Paid(log, q.roots[r][i]);
      } else {
        assert Overtaken(log, KeyOf(p.roots[r][i])) == 0;
      }
    }
  }

  lemma JoinTidy(s: seq<Waiting>, limit: nat, w: Waiting)
    requires Tidy(s, limit) && w.sequence == limit + 1 && w.bypasses == 0
    ensures Tidy(s + [w], limit + 1)
  {}

  lemma JoinOrdered(q: Queue, root: nat, cost: Cost, enqueued: nat, deadline: nat)
    requires Ordered(q.roots, q.sequence)
    ensures var p := Enqueue(q, root, cost, enqueued, deadline).0; Ordered(p.roots, p.sequence)
  {
    var p := Enqueue(q, root, cost, enqueued, deadline).0;
    forall r | 0 <= r < |p.roots| ensures Tidy(p.roots[r], p.sequence) {
      assert Tidy(q.roots[r], q.sequence);
      if p.roots[r] != q.roots[r] {
        JoinTidy(q.roots[r], q.sequence, Waiting(cost, enqueued, deadline, q.sequence + 1, 0));
      }
    }
    forall r, t | 0 <= r < |p.roots| && 0 <= t < |p.roots| && r != t ensures Apart(p.roots[r], p.roots[t]) {
      assert Apart(q.roots[r], q.roots[t]);
      assert Tidy(q.roots[r], q.sequence) && Tidy(q.roots[t], q.sequence);
      if p.roots != q.roots {
        JoinApart(q.roots[r], q.roots[t], q.sequence, Waiting(cost, enqueued, deadline, q.sequence + 1, 0));
        JoinApart(q.roots[t], q.roots[r], q.sequence, Waiting(cost, enqueued, deadline, q.sequence + 1, 0));
      }
    }
  }

  lemma JoinApart(a: seq<Waiting>, b: seq<Waiting>, limit: nat, w: Waiting)
    requires Apart(a, b) && Tidy(b, limit) && w.sequence == limit + 1
    ensures Apart(a + [w], b) && Apart(b, a + [w])
  {}

  lemma ApplyKeeps(w: World, s: Step)
    requires Inv(w)
    ensures Inv(Apply(w, s))
  {
    match s
    case Join(root, cost, enqueued, deadline) => JoinKeeps(w, root, cost, enqueued, deadline);
    case Leave(now, root, sequence) => if root < |w.queue.roots| { LeaveKeeps(w, now, root, sequence); }
    case Turn(now) => TurnKeeps(w, now);
    case Environment(to) => if SameSchedule(to, w.queue) { ScheduleGood(w.queue, to, w.log); }
  }

  lemma {:induction false} RunKeeps(w: World, steps: seq<Step>)
    requires Initial(w)
    ensures Inv(Run(w, steps))
  {
    if steps == [] {
      forall law ensures Obeys(law, w.queue, w.log) {
        assert forall k: Key :: Overtaken([], k) == 0;
      }
    } else {
      RunKeeps(w, steps[..|steps| - 1]);
      ApplyKeeps(Run(w, steps[..|steps| - 1]), steps[|steps| - 1]);
    }
  }

  // ---------------------------------------------------------------- the starvation bound

  /**
    In every run, whatever the arrival timestamps, no request is overtaken more than eight
    times by newer requests while it heads its root without fitting.
   */
  lemma StarvationBound(w: World, steps: seq<Step>, k: Key)
    requires Initial(w)
    ensures Overtaken(Run(w, steps).log, k) <= MAX_BYPASSES
  {
    RunKeeps(w, steps);
    assert Obeys(Price, Run(w, steps).queue, Run(w, steps).log);
  }
}
