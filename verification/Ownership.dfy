/**
  Ownership is conserved: every step of the admission protocol keeps each active
  reservation with exactly one owner, and the probe with an owner that can release it.
 */
module Ownership {
  import opened Prelude
  import opened Quota
  import opened Scheduler
  import opened LedgerStages
  import opened Admission
  import SchedulerFairness

  /** The invariant without the backoff record, which only rejections touch. */
  ghost predicate Sound(q: Queue, tickets: map<nat, Pending>, holds: map<nat, Hold>, launches: map<nat, Launch>) {
    && Owns(q.ledger, q.cells, tickets, holds)
    && Lined(q, tickets)
    && Gated(q)
    && AllRemembered(q, holds, launches)
  }

  /** Nothing the holds remember has changed. */
  predicate SameGate(a: Queue, b: Queue) {
    && a.generation == b.generation && a.stage == b.stage && a.recovery.Some? == b.recovery.Some?
    && (a.recovery.Some? ==> a.recovery.value.generationOnly == b.recovery.value.generationOnly)
  }

  lemma SameGateRemembered(a: Queue, b: Queue, holds: map<nat, Hold>, launches: map<nat, Launch>)
    requires SameGate(a, b) && AllRemembered(a, holds, launches)
    ensures AllRemembered(b, holds, launches)
  {
    forall id | id in holds ensures Remembered(b, id, holds[id], launches) {
      assert Remembered(a, id, holds[id], launches);
    }
  }

  // ---------------------------------------------------------------- a drive

  lemma ClockSound(q: Queue, now: nat, tickets: map<nat, Pending>, holds: map<nat, Hold>, launches: map<nat, Launch>)
    requires Sound(q, tickets, holds, launches)
    ensures Sound(q.(ledger := Advance(q.ledger, now)), tickets, holds, launches)
  {
    AdvanceStages(q.ledger, now);
    SameGateRemembered(q, q.(ledger := Advance(q.ledger, now)), holds, launches);
  }

  lemma ReadySound(q: Queue, now: nat, tickets: map<nat, Pending>, holds: map<nat, Hold>, launches: map<nat, Launch>)
    requires Sound(q, tickets, holds, launches)
    ensures Sound(Protect(q, now), tickets, holds, launches)
    ensures Sound(SchedulerFairness.Ready(q, now), tickets, holds, launches)
  {
    var p := Protect(q, now);
    SameGateRemembered(q, p, holds, launches);
    ProtectLined(q, now, tickets);
    ClockSound(p, now, tickets, holds, launches);
  }

  lemma ProtectLined(q: Queue, now: nat, tickets: map<nat, Pending>)
    requires Lined(q, tickets)
    ensures Lined(Protect(q, now), tickets)
  {
    forall t | t in tickets ensures Accounted(Protect(q, now), t, tickets[t]) {
      assert Accounted(q, t, tickets[t]);
    }
  }

  lemma GrantOwns(q: Queue, now: nat, root: nat, tickets: map<nat, Pending>, holds: map<nat, Hold>)
    requires Owns(q.ledger, q.cells, tickets, holds) && Fits(q, now, root)
    requires Belongs(q.roots[root][0], root, q.cells, tickets)
    ensures var g := Grant(q, now, root); Owns(g.ledger, g.cells, tickets, holds)
  {
    var head := q.roots[root][0];
    AdmitStages(q.ledger, now, head.cost);
    CellOwns(q.ledger, Grant(q, now, root).ledger, q.cells, head.sequence, tickets, holds);
  }

  /** One more active reservation, held in the cell of a ticket that had none. */
  lemma CellOwns(l: State, m: State, cells: map<nat, Outcome>, t: nat,
                 tickets: map<nat, Pending>, holds: map<nat, Hold>)
    requires Owns(l, cells, tickets, holds) && t in tickets && t !in cells && Wellformed(m)
    requires StageOf(l.entries, l.next + 1).None?
    requires var stage := Stage(false, tickets[t].cost.Metadata?);
      forall id :: StageOf(m.entries, id) == if id == l.next + 1 then Some(stage) else StageOf(l.entries, id)
    ensures Owns(m, cells[t := Granted(l.next + 1)], tickets, holds)
  {
    var after := cells[t := Granted(l.next + 1)];
    forall id | StageOf(m.entries, id).Some? ensures id in holds || InCell(after, id) {
      if id == l.next + 1 {
        assert after[t] == Granted(id);
      } else if id !in holds {
        assert StageOf(l.entries, id).Some?;
        StillInCell(cells, t, Granted(l.next + 1), id);
      }
    }
    forall u | u in cells ensures cells[u] != Granted(l.next + 1) {
      assert cells[u].Granted? ==> StageOf(l.entries, cells[u].id).Some?;
    }
  }

  lemma StillInCell(cells: map<nat, Outcome>, t: nat, outcome: Outcome, id: nat)
    requires InCell(cells, id) && t !in cells
    ensures InCell(cells[t := outcome], id)
  {
    var u :| u in cells && cells[u] == Granted(id);
    assert cells[t := outcome][u] == Granted(id);
  }

  lemma GrantLined(q: Queue, now: nat, root: nat, tickets: map<nat, Pending>)
    requires Lined(q, tickets) && Fits(q, now, root)
    ensures Lined(Grant(q, now, root), tickets)
  {
    var g, head := Grant(q, now, root), q.roots[root][0];
    assert Belongs(head, root, q.cells, tickets);
    forall r | 0 <= r < |g.roots| ensures Sorted(g.roots[r]) {
      SchedulerFairness.GrantRoot(q, now, root, r);
      assert Sorted(q.roots[r]);
    }
    forall r, i | 0 <= r < |g.roots| && 0 <= i < |g.roots[r]| ensures Belongs(g.roots[r][i], r, g.cells, tickets) {
      SchedulerFairness.GrantRoot(q, now, root, r);
      assert Sorted(q.roots[r]);
      var j := if r == root then i + 1 else i;
      assert Belongs(q.roots[r][j], r, q.cells, tickets);
    }
    forall t | t in tickets ensures Accounted(g, t, tickets[t]) {
      assert Accounted(q, t, tickets[t]);
      GrantAccounts(q, now, root, t, tickets[t]);
    }
  }

  lemma GrantAccounts(q: Queue, now: nat, root: nat, t: nat, p: Pending)
    requires Accounted(q, t, p) && Fits(q, now, root)
    ensures Accounted(Grant(q, now, root), t, p)
  {
    var g := Grant(q, now, root);
    SchedulerFairness.GrantNumbers(q, now, root, p.root);
    if t !in g.cells {
      var i :| 0 <= i < |q.roots[p.root]| && q.roots[p.root][i].sequence == t;
      assert g.roots[p.root][if p.root == root then i - 1 else i].sequence == t;
    }
  }

  lemma GrantGated(q: Queue, now: nat, root: nat)
    requires Gated(q) && Wellformed(q.ledger) && Fits(q, now, root)
    ensures Gated(Grant(q, now, root)) && SameGate(q, Grant(q, now, root))
  {
    AdmitStages(q.ledger, now, q.roots[root][0].cost);
  }

  lemma GrantSound(q: Queue, now: nat, root: nat, tickets: map<nat, Pending>, holds: map<nat, Hold>,
      launches: map<nat, Launch>)
    requires Sound(q, tickets, holds, launches) && Fits(q, now, root)
    ensures Sound(Grant(q, now, root), tickets, holds, launches)
  {
    assert Belongs(q.roots[root][0], root, q.cells, tickets);
    GrantOwns(q, now, root, tickets, holds);
    GrantLined(q, now, root, tickets);
    GrantGated(q, now, root);
    SameGateRemembered(q, Grant(q, now, root), holds, launches);
  }

  ghost predicate RoundsSound(q: Queue, now: nat, tickets: map<nat, Pending>, holds: map<nat, Hold>,
      launches: map<nat, Launch>) {
    var end := Rounds(q, now).0;
    Sound(end, tickets, holds, launches) && end.generation == q.generation && end.stage == q.stage
  }

  lemma FirstRoundSound(q: Queue, now: nat, root: nat, tickets: map<nat, Pending>, holds: map<nat, Hold>,
      launches: map<nat, Launch>)
    requires q.cooldownUntil <= now && Select(SchedulerFairness.Ready(q, now), now) == Some(root)
    ensures RoundsSound(q, now, tickets, holds, launches)
         == RoundsSound(Grant(SchedulerFairness.Ready(q, now), now, root), now, tickets, holds, launches)
  {
    SchedulerFairness.RoundsOnce(q, now);
  }

  lemma LastRoundSound(q: Queue, now: nat, tickets: map<nat, Pending>, holds: map<nat, Hold>,
      launches: map<nat, Launch>)
    requires Sound(q, tickets, holds, launches)
    requires now < q.cooldownUntil || Select(SchedulerFairness.Ready(q, now), now).None?
    ensures RoundsSound(q, now, tickets, holds, launches)
  {
    SchedulerFairness.RoundsOnce(q, now);
    ReadySound(q, now, tickets, holds, launches);
  }

  lemma {:induction false} RoundsKeepSound(q: Queue, now: nat, tickets: map<nat, Pending>, holds: map<nat, Hold>,
      launches: map<nat, Launch>)
    requires Sound(q, tickets, holds, launches)
    ensures RoundsSound(q, now, tickets, holds, launches)
    decreases Len(q.roots)
  {
    var c := SchedulerFairness.Ready(q, now);
    if q.cooldownUntil <= now && Select(c, now).Some? {
      var root := Select(c, now).value;
      ReadySound(q, now, tickets, holds, launches);
      GrantShrinks(c, now, root);
      GrantSound(c, now, root, tickets, holds, launches);
      RoundsKeepSound(Grant(c, now, root), now, tickets, holds, launches);
      FirstRoundSound(q, now, root, tickets, holds, launches);
    } else {
      LastRoundSound(q, now, tickets, holds, launches);
    }
  }

  // Expiry writes `Expired` into the cells of exactly the waiters it removes.

  predicate ExpiredIn(s: seq<Waiting>, now: nat, t: nat) {
    exists i :: 0 <= i < |s| && s[i].sequence == t && s[i].deadline <= now
  }

  lemma {:induction false} ExpireCellsSpec(s: seq<Waiting>, now: nat, cells: map<nat, Outcome>, t: nat)
    ensures var c := ExpireCells(s, now, cells);
      && (ExpiredIn(s, now, t) ==> t in c && c[t] == Expired)
      && (!ExpiredIn(s, now, t) ==> (t in c <==> t in cells) && (t in cells ==> c[t] == cells[t]))
  {
    if s != [] {
      var n := |s| - 1;
      ExpireCellsSpec(s[..n], now, cells, t);
      if ExpiredIn(s[..n], now, t) {
        var i :| 0 <= i < n && s[..n][i].sequence == t && s[..n][i].deadline <= now;
        assert s[i].sequence == t;
      }
      if ExpiredIn(s, now, t) && !(s[n].sequence == t && s[n].deadline <= now) {
        var i :| 0 <= i < |s| && s[i].sequence == t && s[i].deadline <= now;
        assert s[..n][i] == s[i];
      }
    }
  }

  predicate ExpiredAnywhere(roots: seq<seq<Waiting>>, now: nat, t: nat) {
    exists r :: 0 <= r < |roots| && ExpiredIn(roots[r], now, t)
  }

  lemma {:induction false} ExpireAllCellsSpec(roots: seq<seq<Waiting>>, now: nat, cells: map<nat, Outcome>, t: nat)
    ensures var c := ExpireAllCells(roots, now, cells);
      && (ExpiredAnywhere(roots, now, t) ==> t in c && c[t] == Expired)
      && (!ExpiredAnywhere(roots, now, t) ==> (t in c <==> t in cells) && (t in cells ==> c[t] == cells[t]))
  {
    if roots != [] {
      var n := |roots| - 1;
      var c := ExpireAllCells(roots[..n], now, cells);
      ExpireAllCellsSpec(roots[..n], now, cells, t);
      ExpireCellsSpec(roots[n], now, c, t);
      assert forall r :: 0 <= r < n ==> roots[..n][r] == roots[r];
      assert ExpiredAnywhere(roots, now, t) <==> ExpiredAnywhere(roots[..n], now, t) || ExpiredIn(roots[n], now, t);
    }
  }

  /** An expired waiter's ticket points at its root, so no other root can hold it. */
  lemma ExpiredHasTicket(q: Queue, now: nat, tickets: map<nat, Pending>, t: nat)
    requires Lined(q, tickets) && ExpiredAnywhere(q.roots, now, t)
    ensures t in tickets && t !in q.cells && tickets[t].root < |q.roots|
    ensures ExpiredIn(q.roots[tickets[t].root], now, t)
  {
    var r :| 0 <= r < |q.roots| && ExpiredIn(q.roots[r], now, t);
    var i :| 0 <= i < |q.roots[r]| && q.roots[r][i].sequence == t && q.roots[r][i].deadline <= now;
    assert Belongs(q.roots[r][i], r, q.cells, tickets);
  }

  lemma ExpireOwns(q: Queue, now: nat, tickets: map<nat, Pending>, holds: map<nat, Hold>)
    requires Owns(q.ledger, q.cells, tickets, holds) && Lined(q, tickets)
    ensures Owns(q.ledger, Expire(q, now).cells, tickets, holds)
  {
    var cells := Expire(q, now).cells;
    forall t | t in cells
      ensures t in tickets && (cells[t].Granted? ==> t in q.cells && q.cells[t] == cells[t])
    {
      ExpireAllCellsSpec(q.roots, now, q.cells, t);
      if ExpiredAnywhere(q.roots, now, t) { ExpiredHasTicket(q, now, tickets, t); }
    }
    forall id | InCell(q.cells, id) ensures InCell(cells, id) {
      var t :| t in q.cells && q.cells[t] == Granted(id);
      ExpireAllCellsSpec(q.roots, now, q.cells, t);
      if ExpiredAnywhere(q.roots, now, t) { ExpiredHasTicket(q, now, tickets, t); }
      assert cells[t] == Granted(id);
    }
  }

  lemma UnexpiredLine(s: seq<Waiting>, now: nat)
    requires Sorted(s)
    ensures Sorted(Unexpired(s, now))
  {
    SchedulerFairness.UnexpiredThins(s, now);
  }

  lemma ExpireLined(q: Queue, now: nat, tickets: map<nat, Pending>)
    requires Lined(q, tickets)
    ensures Lined(Expire(q, now), tickets)
  {
    var e := Expire(q, now);
    forall r | 0 <= r < |e.roots| ensures Sorted(e.roots[r]) {
      assert Sorted(q.roots[r]);
      UnexpiredLine(q.roots[r], now);
    }
    forall r, i | 0 <= r < |e.roots| && 0 <= i < |e.roots[r]| ensures Belongs(e.roots[r][i], r, e.cells, tickets) {
      SurvivorBelongs(q, now, tickets, r, e.roots[r][i]);
    }
    forall t | t in tickets ensures Accounted(e, t, tickets[t]) {
      assert Accounted(q, t, tickets[t]);
      ExpireAccounts(q, now, t, tickets[t]);
    }
  }

  lemma ExpireAccounts(q: Queue, now: nat, t: nat, p: Pending)
    requires Accounted(q, t, p)
    ensures Accounted(Expire(q, now), t, p)
  {
    var e := Expire(q, now);
    ExpireAllCellsSpec(q.roots, now, q.cells, t);
    if t !in e.cells {
      var r := p.root;
      var i :| 0 <= i < |q.roots[r]| && q.roots[r][i].sequence == t;
      assert !ExpiredIn(q.roots[r], now, t);
      assert q.roots[r][i] in Unexpired(q.roots[r], now);
      var j :| 0 <= j < |e.roots[r]| && e.roots[r][j] == q.roots[r][i];
    }
  }

  lemma SurvivorIsNotExpired(s: seq<Waiting>, now: nat, i: nat)
    requires Sorted(s) && i < |s| && now < s[i].deadline
    ensures !ExpiredIn(s, now, s[i].sequence)
  {}

  /** A request that is not expired in its own root is not expired in any. */
  lemma ExpiredNowhere(q: Queue, now: nat, tickets: map<nat, Pending>, t: nat)
    requires Lined(q, tickets) && t in tickets && tickets[t].root < |q.roots|
    requires !ExpiredIn(q.roots[tickets[t].root], now, t)
    ensures !ExpiredAnywhere(q.roots, now, t)
  {
    if ExpiredAnywhere(q.roots, now, t) { ExpiredHasTicket(q, now, tickets, t); }
  }

  lemma LineBelongs(q: Queue, tickets: map<nat, Pending>, r: nat, i: nat)
    requires Lined(q, tickets) && r < |q.roots| && i < |q.roots[r]|
    ensures Belongs(q.roots[r][i], r, q.cells, tickets) && Sorted(q.roots[r])
  {}

  lemma SurvivorBelongs(q: Queue, now: nat, tickets: map<nat, Pending>, r: nat, w: Waiting)
    requires Lined(q, tickets) && r < |q.roots| && w in Unexpired(q.roots[r], now)
    ensures Belongs(w, r, Expire(q, now).cells, tickets)
  {
    var line := q.roots[r];
    assert w in line && now < w.deadline;
    var i :| 0 <= i < |line| && line[i] == w;
    LineBelongs(q, tickets, r, i);
    SurvivorIsNotExpired(line, now, i);
    ExpiredNowhere(q, now, tickets, w.sequence);
    ExpireAllCellsSpec(q.roots, now, q.cells, w.sequence);
  }

  lemma DriveSound(q: Queue, now: nat, tickets: map<nat, Pending>, holds: map<nat, Hold>, launches: map<nat, Launch>)
    requires Sound(q, tickets, holds, launches)
    ensures var d := Drive(q, now).queue;
      Sound(d, tickets, holds, launches) && d.generation == q.generation && d.stage == q.stage
  {
    ExpireOwns(q, now, tickets, holds);
    ExpireLined(q, now, tickets);
    SameGateRemembered(q, Expire(q, now), holds, launches);
    RoundsKeepSound(Expire(q, now), now, tickets, holds, launches);
  }

  // ---------------------------------------------------------------- joining, taking and leaving

  lemma EnqueueSound(q: Queue, root: nat, cost: Cost, enqueued: nat, deadline: nat,
                     tickets: map<nat, Pending>, holds: map<nat, Hold>, launches: map<nat, Launch>)
    requires Sound(q, tickets, holds, launches)
    ensures var (p, joined) := Enqueue(q, root, cost, enqueued, deadline);
      Sound(p, if joined.Ticket? then tickets[joined.sequence := Pending(root, cost)] else tickets, holds, launches)
  {
    var (p, joined) := Enqueue(q, root, cost, enqueued, deadline);
    if joined.Ticket? {
      var t := joined.sequence;
      forall u | u in tickets ensures u <= q.sequence { assert Accounted(q, u, tickets[u]); }
      EnqueueLined(q, root, cost, enqueued, deadline, tickets);
      SameGateRemembered(q, p, holds, launches);
    }
  }

  lemma EnqueueAccounts(q: Queue, root: nat, cost: Cost, enqueued: nat, deadline: nat, t: nat, p: Pending)
    requires Accounted(q, t, p)
    ensures Accounted(Enqueue(q, root, cost, enqueued, deadline).0, t, p)
  {
    if t !in q.cells {
      var i :| 0 <= i < |q.roots[p.root]| && q.roots[p.root][i].sequence == t;
      assert Enqueue(q, root, cost, enqueued, deadline).0.roots[p.root][i].sequence == t;
    }
  }

  lemma EnqueueLined(q: Queue, root: nat, cost: Cost, enqueued: nat, deadline: nat, tickets: map<nat, Pending>)
    requires Lined(q, tickets) && Enqueue(q, root, cost, enqueued, deadline).1.Ticket? && q.sequence + 1 !in tickets
    requires forall t :: t in q.cells ==> t in tickets
    ensures Lined(Enqueue(q, root, cost, enqueued, deadline).0, tickets[q.sequence + 1 := Pending(root, cost)])
  {
    var p := Enqueue(q, root, cost, enqueued, deadline).0;
    var all := tickets[q.sequence + 1 := Pending(root, cost)];
    forall r, i | 0 <= r < |p.roots| && 0 <= i < |p.roots[r]| ensures Belongs(p.roots[r][i], r, p.cells, all) {
      if i < |q.roots[r]| { assert Belongs(q.roots[r][i], r, q.cells, tickets); }
    }
    forall r | 0 <= r < |p.roots| ensures Sorted(p.roots[r]) {
      assert Sorted(q.roots[r]);
      forall i | 0 <= i < |q.roots[r]| ensures q.roots[r][i].sequence <= q.sequence {
        assert Belongs(q.roots[r][i], r, q.cells, tickets);
        assert Accounted(q, q.roots[r][i].sequence, tickets[q.roots[r][i].sequence]);
      }
    }
    forall t | t in all ensures Accounted(p, t, all[t]) {
      if t == q.sequence + 1 {
        assert p.roots[root][|q.roots[root]|].sequence == t;
      } else {
        assert Accounted(q, t, tickets[t]);
        EnqueueAccounts(q, root, cost, enqueued, deadline, t, tickets[t]);
      }
    }
  }

  lemma TakeSound(q: Queue, t: nat, tickets: map<nat, Pending>, holds: map<nat, Hold>, launches: map<nat, Launch>)
    requires Sound(q, tickets, holds, launches)
    ensures var (p, rest, kept) := Take(q, tickets, holds, t); Sound(p, rest, kept, launches)
  {
    if t in q.cells && t in tickets {
      var (p, rest, kept) := Take(q, tickets, holds, t);
      TakeOwns(q, t, tickets, holds);
      TakeLined(q, t, tickets);
      forall id | id in kept ensures Remembered(p, id, kept[id], launches) {
        if id in holds { assert Remembered(q, id, holds[id], launches); }
      }
    }
  }

  lemma TakeOwns(q: Queue, t: nat, tickets: map<nat, Pending>, holds: map<nat, Hold>)
    requires Owns(q.ledger, q.cells, tickets, holds) && t in q.cells && t in tickets
    ensures var (p, rest, kept) := Take(q, tickets, holds, t); Owns(p.ledger, p.cells, rest, kept)
  {
    var (p, rest, kept) := Take(q, tickets, holds, t);
    forall id | StageOf(p.ledger.entries, id).Some? ensures id in kept || InCell(p.cells, id) {
      if id !in kept {
        assert InCell(q.cells, id);
        var u :| u in q.cells && q.cells[u] == Granted(id);
        assert p.cells[u] == Granted(id);
      }
    }
  }

  lemma TakeLined(q: Queue, t: nat, tickets: map<nat, Pending>)
    requires Lined(q, tickets) && t in q.cells && t in tickets
    ensures Lined(q.(cells := q.cells - {t}), tickets - {t})
  {
    var p := q.(cells := q.cells - {t});
    forall r, i | 0 <= r < |p.roots| && 0 <= i < |p.roots[r]|
        ensures Belongs(p.roots[r][i], r, p.cells, tickets - {t}) {
      assert Belongs(q.roots[r][i], r, q.cells, tickets);
    }
    forall u | u in tickets - {t} ensures Accounted(p, u, (tickets - {t})[u]) {
      assert Accounted(q, u, tickets[u]);
    }
  }

  lemma {:induction false} WithoutSpec(s: seq<Waiting>, t: nat)
    requires Sorted(s)
    ensures Sorted(Without(s, t))
    ensures forall w :: w in Without(s, t) <==> w in s && w.sequence != t
  {
    SchedulerFairness.WithoutThins(s, t);
    if s != [] {
      WithoutSpec(s[1..], t);
      assert s == [s[0]] + s[1..];
      if s[0].sequence == t { OnlyHead(s); }
    }
  }

  lemma OnlyHead(s: seq<Waiting>)
    requires Sorted(s) && s != []
    ensures forall w :: w in s[1..] ==> w.sequence != s[0].sequence
  {
    forall w | w in s[1..] ensures w.sequence != s[0].sequence {
      var i :| 0 <= i < |s[1..]| && s[1..][i] == w;
      assert s[i + 1] == w;
    }
  }

  lemma LeaveLined(q: Queue, t: nat, tickets: map<nat, Pending>)
    requires Lined(q, tickets) && t in tickets && tickets[t].root < |q.roots|
    ensures var r := tickets[t].root;
      Lined(q.(roots := q.roots[r := Without(q.roots[r], t)], cells := q.cells - {t}), tickets - {t})
  {
    var root := tickets[t].root;
    var p := q.(roots := q.roots[root := Without(q.roots[root], t)], cells := q.cells - {t});
    assert Sorted(q.roots[root]);
    WithoutSpec(q.roots[root], t);
    forall r, i | 0 <= r < |p.roots| && 0 <= i < |p.roots[r]|
        ensures Belongs(p.roots[r][i], r, p.cells, tickets - {t}) {
      assert p.roots[r][i] in q.roots[r];
      var j :| 0 <= j < |q.roots[r]| && q.roots[r][j] == p.roots[r][i];
      assert Belongs(q.roots[r][j], r, q.cells, tickets);
      assert p.roots[r][i] in p.roots[r];
    }
    forall u | u in tickets - {t} ensures Accounted(p, u, (tickets - {t})[u]) {
      assert Accounted(q, u, tickets[u]);
      LeaveAccounts(q, root, t, u, tickets[u]);
    }
  }

  lemma LeaveAccounts(q: Queue, root: nat, t: nat, u: nat, p: Pending)
    requires Accounted(q, u, p) && u != t && root < |q.roots| && Sorted(q.roots[root])
    ensures Accounted(q.(roots := q.roots[root := Without(q.roots[root], t)], cells := q.cells - {t}), u, p)
  {
    var roots := q.roots[root := Without(q.roots[root], t)];
    WithoutSpec(q.roots[root], t);
    if u !in q.cells {
      var i :| 0 <= i < |q.roots[p.root]| && q.roots[p.root][i].sequence == u;
      assert q.roots[p.root][i] in roots[p.root];
      var j :| 0 <= j < |roots[p.root]| && roots[p.root][j] == q.roots[p.root][i];
    }
  }

  /** Removing an active reservation together with its only owner. */
  lemma CancelCellOwns(q: Queue, now: nat, t: nat, tickets: map<nat, Pending>, holds: map<nat, Hold>)
    requires Owns(q.ledger, q.cells, tickets, holds) && t in q.cells && q.cells[t].Granted?
    ensures var (l, ok) := Cancel(q.ledger, now, q.cells[t].id); ok && Owns(l, q.cells - {t}, tickets - {t}, holds)
  {
    var id := q.cells[t].id;
    CancelStages(q.ledger, now, id);
    var l := Cancel(q.ledger, now, id).0;
    forall x | StageOf(l.entries, x).Some? ensures x in holds || InCell(q.cells - {t}, x) {
      if x !in holds {
        assert InCell(q.cells, x);
        var u :| u in q.cells && q.cells[u] == Granted(x);
        assert (q.cells - {t})[u] == Granted(x);
      }
    }
  }

  lemma ForgetCellOwns(q: Queue, t: nat, tickets: map<nat, Pending>, holds: map<nat, Hold>)
    requires Owns(q.ledger, q.cells, tickets, holds) && (t in q.cells ==> !q.cells[t].Granted?)
    ensures Owns(q.ledger, q.cells - {t}, tickets - {t}, holds)
  {
    forall x | InCell(q.cells, x) ensures InCell(q.cells - {t}, x) {
      var u :| u in q.cells && q.cells[u] == Granted(x);
      assert (q.cells - {t})[u] == Granted(x);
    }
  }

  /** A gate that loses the departing reservation as its probe keeps no dangling probe. */
  lemma ReleaseGated(q: Queue, l: State, id: nat)
    requires Gated(q)
    requires forall x :: x != id ==> StageOf(l.entries, x) == StageOf(q.ledger.entries, x)
    ensures Gated(ReleaseProbe(q.(ledger := l), id)) && SameGate(q, ReleaseProbe(q.(ledger := l), id))
  {}

  lemma AbandonSound(q: Queue, now: nat, t: nat, tickets: map<nat, Pending>, holds: map<nat, Hold>,
      launches: map<nat, Launch>)
    requires Sound(q, tickets, holds, launches) && t in tickets && tickets[t].root < |q.roots|
    ensures var p := Abandon(q, now, tickets[t].root, t);
      Sound(p, tickets - {t}, holds, launches) && p.generation == q.generation
  {
    var left := Left(q, tickets[t].root, t);
    if t in q.cells && q.cells[t].Granted? {
      GrantedLeaves(q, now, t, tickets, holds, launches);
      var id := q.cells[t].id;
      ReadySound(ReleaseProbe(left.(ledger := Cancel(left.ledger, now, id).0), id), now, tickets - {t}, holds,
          launches);
    } else {
      UngrantedLeaves(q, t, tickets, holds, launches);
      ReadySound(left, now, tickets - {t}, holds, launches);
    }
  }

  /** The queue without the ticket's place in line and its cell. */
  function Left(q: Queue, root: nat, t: nat): Queue
    requires root < |q.roots|
  {
    q.(roots := q.roots[root := Without(q.roots[root], t)], cells := q.cells - {t})
  }

  lemma GrantedLeaves(q: Queue, now: nat, t: nat, tickets: map<nat, Pending>, holds: map<nat, Hold>,
      launches: map<nat, Launch>)
    requires Sound(q, tickets, holds, launches) && t in tickets && tickets[t].root < |q.roots|
    requires t in q.cells && q.cells[t].Granted?
    ensures var id := q.cells[t].id; var left := Left(q, tickets[t].root, t);
      Sound(ReleaseProbe(left.(ledger := Cancel(left.ledger, now, id).0), id), tickets - {t}, holds, launches)
  {
    var id, left := q.cells[t].id, Left(q, tickets[t].root, t);
    LeaveLined(q, t, tickets);
    CancelStages(q.ledger, now, id);
    CancelCellOwns(q, now, t, tickets, holds);
    ReleaseGated(left, Cancel(q.ledger, now, id).0, id);
    SameGateRemembered(q, ReleaseProbe(left.(ledger := Cancel(left.ledger, now, id).0), id), holds, launches);
  }

  lemma UngrantedLeaves(q: Queue, t: nat, tickets: map<nat, Pending>, holds: map<nat, Hold>, launches: map<nat, Launch>)
    requires Sound(q, tickets, holds, launches) && t in tickets && tickets[t].root < |q.roots|
    requires t in q.cells ==> !q.cells[t].Granted?
    ensures Sound(Left(q, tickets[t].root, t), tickets - {t}, holds, launches)
  {
    LeaveLined(q, t, tickets);
    ForgetCellOwns(q, t, tickets, holds);
    SameGateRemembered(q, Left(q, tickets[t].root, t), holds, launches);
  }

  // ---------------------------------------------------------------- holds

  /** Two queues that differ at most in the gate. */
  predicate SameQueue(a: Queue, b: Queue) {
    a.ledger == b.ledger && a.roots == b.roots && a.cells == b.cells && a.sequence == b.sequence
  }

  lemma SameQueueSound(q: Queue, p: Queue, tickets: map<nat, Pending>, holds: map<nat, Hold>,
      launches: map<nat, Launch>)
    requires Sound(q, tickets, holds, launches) && SameQueue(q, p) && Gated(p) && AllRemembered(p, holds, launches)
    ensures Sound(p, tickets, holds, launches)
  {
    forall t | t in tickets ensures Accounted(p, t, tickets[t]) { assert Accounted(q, t, tickets[t]); }
  }

  lemma ArmSound(q: Queue, now: nat, delay: nat, generationOnly: bool,
                 tickets: map<nat, Pending>, holds: map<nat, Hold>, launches: map<nat, Launch>)
    requires Sound(q, tickets, holds, launches)
    ensures Sound(ArmRecovery(q, now, delay, generationOnly), tickets, holds, launches)
  {
    var p := ArmRecovery(q, now, delay, generationOnly);
    forall id | id in holds ensures Remembered(p, id, holds[id], launches) {
      assert Remembered(q, id, holds[id], launches);
    }
    SameQueueSound(q, p, tickets, holds, launches);
  }

  lemma ThrottleSound(q: Queue, now: nat, generation: nat, cost: Cost, hasTiming: bool, jitter: nat,
                      tickets: map<nat, Pending>, holds: map<nat, Hold>, launches: map<nat, Launch>)
    requires Sound(q, tickets, holds, launches)
    ensures var p := Throttle(q, now, generation, cost, hasTiming, jitter);
      && Sound(p, tickets, holds, launches)
      && q.generation <= p.generation && (generation == q.generation ==> q.generation < p.generation)
  {
    if generation != q.generation {
      StaleThrottleSound(q, now, generation, cost, hasTiming, jitter, tickets, holds, launches);
    } else if hasTiming {
      ArmSound(q, now, 0, IsGeneration(cost), tickets, holds, launches);
    } else {
      var staged := q.(stage := Min(q.stage + 1, |STAGES| - 1));
      StagedSound(q, staged.stage, tickets, holds, launches);
      ArmSound(staged, now, STAGES[q.stage] * SECOND + jitter, IsGeneration(cost), tickets, holds, launches);
    }
  }

  lemma StagedSound(q: Queue, stage: nat, tickets: map<nat, Pending>, holds: map<nat, Hold>, launches: map<nat, Launch>)
    requires Sound(q, tickets, holds, launches) && stage < |STAGES|
    ensures Sound(q.(stage := stage), tickets, holds, launches)
  {
    var p := q.(stage := stage);
    forall id | id in holds ensures Remembered(p, id, holds[id], launches) {
      assert Remembered(q, id, holds[id], launches);
    }
    SameQueueSound(q, p, tickets, holds, launches);
  }

  /** A rejection of an older generation can at most make the gate generation-only. */
  lemma StaleThrottleSound(q: Queue, now: nat, generation: nat, cost: Cost, hasTiming: bool, jitter: nat,
                           tickets: map<nat, Pending>, holds: map<nat, Hold>, launches: map<nat, Launch>)
    requires Sound(q, tickets, holds, launches) && generation != q.generation
    ensures var p := Throttle(q, now, generation, cost, hasTiming, jitter);
      Sound(p, tickets, holds, launches) && q.generation <= p.generation
  {
    var p := Throttle(q, now, generation, cost, hasTiming, jitter);
    if q.recovery.Some? && q.recovery.value.probe.Some? {
      GenerationStage(q.ledger, q.recovery.value.probe.value);
    }
    forall id | id in holds ensures Remembered(p, id, holds[id], launches) {
      assert Remembered(q, id, holds[id], launches);
    }
    SameQueueSound(q, p, tickets, holds, launches);
  }

  lemma ReleaseSound(q: Queue, id: nat, tickets: map<nat, Pending>, holds: map<nat, Hold>, launches: map<nat, Launch>)
    requires Sound(q, tickets, holds, launches)
    ensures Sound(ReleaseProbe(q, id), tickets, holds, launches)
  {
    SameGateRemembered(q, ReleaseProbe(q, id), holds, launches);
    SameQueueSound(q, ReleaseProbe(q, id), tickets, holds, launches);
  }

  lemma AcceptedSound(q: Queue, now: nat, id: nat, generation: nat,
                      tickets: map<nat, Pending>, holds: map<nat, Hold>, launches: map<nat, Launch>)
    requires Sound(q, tickets, holds, launches)
    ensures Sound(Accepted(q, now, id, generation), tickets, holds, launches)
  {
    var p := Accepted(q, now, id, generation);
    forall x | x in holds ensures Remembered(p, x, holds[x], launches) {
      assert Remembered(q, x, holds[x], launches);
    }
    SameQueueSound(q, p, tickets, holds, launches);
  }

  lemma CoolSound(q: Queue, until: nat, tickets: map<nat, Pending>, holds: map<nat, Hold>, launches: map<nat, Launch>)
    requires Sound(q, tickets, holds, launches)
    ensures Sound(q.(cooldownUntil := until), tickets, holds, launches)
  {
    SameGateRemembered(q, q.(cooldownUntil := until), holds, launches);
    SameQueueSound(q, q.(cooldownUntil := until), tickets, holds, launches);
  }

  /** Noting an exhaustion hint on a hold changes nothing that ownership is about. */
  lemma ExhaustSound(q: Queue, id: nat, exhausted: bool,
                     tickets: map<nat, Pending>, holds: map<nat, Hold>, launches: map<nat, Launch>)
    requires Sound(q, tickets, holds, launches) && id in holds
    ensures Sound(q, tickets, holds[id := holds[id].(exhausted := exhausted)], launches)
  {
    var kept := holds[id := holds[id].(exhausted := exhausted)];
    forall x | x in kept ensures Remembered(q, x, kept[x], launches) {
      assert Remembered(q, x, holds[x], launches);
    }
  }

  /** The queue once a server delay and an exhaustion hint have been taken in. */
  function Armed(q: Queue, now: nat, h: Hold, status: Status, delay: Option<nat>, hint: Option<Hint>): Queue {
    var cooled := if status == TooManyRequests && delay.Some?
                  then q.(cooldownUntil := Max(q.cooldownUntil, now + delay.value)) else q;
    if hint.Some? then ArmRecovery(cooled, now, hint.value.delay, hint.value.generationOnly || IsGeneration(h.cost))
        else cooled
  }

  lemma ArmedSound(q: Queue, now: nat, h: Hold, status: Status, delay: Option<nat>, hint: Option<Hint>,
                   tickets: map<nat, Pending>, holds: map<nat, Hold>, launches: map<nat, Launch>)
    requires Sound(q, tickets, holds, launches)
    ensures var p := Armed(q, now, h, status, delay, hint);
        Sound(p, tickets, holds, launches) && q.generation <= p.generation
  {
    var cooled := if status == TooManyRequests && delay.Some?
                  then q.(cooldownUntil := Max(q.cooldownUntil, now + delay.value)) else q;
    CoolSound(q, cooled.cooldownUntil, tickets, holds, launches);
    if hint.Some? {
      ArmSound(cooled, now, hint.value.delay, hint.value.generationOnly || IsGeneration(h.cost), tickets, holds,
          launches);
    }
  }

  lemma HeadersSound(q: Queue, now: nat, id: nat, status: Status, delay: Option<nat>, hint: Option<Hint>,
                     tickets: map<nat, Pending>, holds: map<nat, Hold>, launches: map<nat, Launch>)
    requires Sound(q, tickets, holds, launches) && id in holds
    ensures var (p, h) := HoldHeaders(q, now, id, holds[id], status, delay, hint);
      Sound(p, tickets, holds[id := h], launches) && q.generation <= p.generation
  {
    var h := holds[id];
    var armed := Armed(q, now, h, status, delay, hint);
    ArmedSound(q, now, h, status, delay, hint, tickets, holds, launches);
    AcceptedSound(armed, now, id, h.generation, tickets, holds, launches);
    ReleaseSound(armed, id, tickets, holds, launches);
    ExhaustSound(HoldHeaders(q, now, id, h, status, delay, hint).0, id, h.exhausted || hint.Some?, tickets, holds,
        launches);
  }

  lemma StartOwns(q: Queue, now: nat, id: nat, tickets: map<nat, Pending>, holds: map<nat, Hold>)
    requires Owns(q.ledger, q.cells, tickets, holds) && id in holds && !holds[id].started
    ensures var (l, ok) := Start(q.ledger, now, id);
      ok && Owns(l, q.cells, tickets, holds[id := holds[id].(started := true, generation := q.generation)])
  {
    StartStages(q.ledger, now, id);
    var l := Start(q.ledger, now, id).0;
    forall x | StageOf(l.entries, x).Some? ensures x in holds || InCell(q.cells, x) {
      assert StageOf(q.ledger.entries, x).Some?;
    }
  }

  lemma StartSound(w: World, now: nat, id: nat)
    requires Sound(w.queue, w.tickets, w.holds, w.launches) && id in w.holds
    ensures var v := Apply(w, StartHold(now, id));
      Sound(v.queue, v.tickets, v.holds, v.launches) && v.queue.generation == w.queue.generation
  {
    var q, h := w.queue, w.holds[id];
    var v := Apply(w, StartHold(now, id));
    if h.started || !CanStart(q, now, id, h.cost) {
      assert w.holds[id := h] == w.holds;
    } else {
      StartOwns(q, now, id, w.tickets, w.holds);
      StartGated(q, now, id);
      StartRemembered(w, now, id);
      SameLinesLined(q, v.queue, w.tickets);
    }
  }

  lemma SameLinesLined(q: Queue, p: Queue, tickets: map<nat, Pending>)
    requires Lined(q, tickets) && p.roots == q.roots && p.cells == q.cells && p.sequence == q.sequence
    ensures Lined(p, tickets)
  {
    forall t | t in tickets ensures Accounted(p, t, tickets[t]) { assert Accounted(q, t, tickets[t]); }
  }

  lemma StartGated(q: Queue, now: nat, id: nat)
    requires Gated(q) && Wellformed(q.ledger)
    ensures Gated(q.(ledger := Start(q.ledger, now, id).0))
  {
    StartStages(q.ledger, now, id);
  }

  lemma StartRemembered(w: World, now: nat, id: nat)
    requires AllRemembered(w.queue, w.holds, w.launches) && id in w.holds && w.queue.stage < |STAGES|
    requires !w.holds[id].started && CanStart(w.queue, now, id, w.holds[id].cost) && Start(w.queue.ledger, now, id).1
    ensures var v := Apply(w, StartHold(now, id)); AllRemembered(v.queue, v.holds, v.launches)
  {
    var v := Apply(w, StartHold(now, id));
    forall x | x in v.holds ensures Remembered(v.queue, x, v.holds[x], v.launches) {
      if x != id { assert Remembered(w.queue, x, w.holds[x], w.launches); }
    }
  }

  lemma DropOwns(q: Queue, now: nat, id: nat, usage: Option<nat>, tickets: map<nat, Pending>, holds: map<nat, Hold>)
    requires Owns(q.ledger, q.cells, tickets, holds) && id in holds
    ensures var (l, ok) := if holds[id].started then Finish(q.ledger, now, id, usage) else Cancel(q.ledger, now, id);
      ok && Owns(l, q.cells, tickets, holds - {id})
      && forall x :: x != id ==> StageOf(l.entries, x) == StageOf(q.ledger.entries, x)
  {
    var (l, ok) := if holds[id].started then Finish(q.ledger, now, id, usage) else Cancel(q.ledger, now, id);
    FinishStages(q.ledger, now, id, usage);
    CancelStages(q.ledger, now, id);
    forall x | StageOf(l.entries, x).Some? ensures x in holds - {id} || InCell(q.cells, x) {
      assert StageOf(q.ledger.entries, x).Some?;
    }
  }

  lemma DropSound(q: Queue, now: nat, id: nat, usage: Option<nat>,
                  tickets: map<nat, Pending>, holds: map<nat, Hold>, launches: map<nat, Launch>)
    requires Sound(q, tickets, holds, launches) && id in holds
    ensures var p := HoldDrop(q, now, id, holds[id], usage);
      Sound(p, tickets, holds - {id}, launches) && p.generation == q.generation
  {
    var p := HoldDrop(q, now, id, holds[id], usage);
    DropOwns(q, now, id, usage, tickets, holds);
    ReleaseGated(q, p.ledger, id);
    SameGateRemembered(q, p, holds, launches);
    forall t | t in tickets ensures Accounted(p, t, tickets[t]) { assert Accounted(q, t, tickets[t]); }
  }

  // ---------------------------------------------------------------- every step

  lemma JoinKeeps(w: World, s: Step)
    requires Inv(w) && s.Join?
    ensures Inv(Apply(w, s))
  {
    Unfold(w);
    DriveSound(w.queue, s.now, w.tickets, w.holds, w.launches);
    EnqueueSound(Drive(w.queue, s.now).queue, s.root, s.cost, s.enqueued, s.deadline, w.tickets, w.holds, w.launches);
    Fold(Apply(w, s));
  }

  lemma PollKeeps(w: World, s: Step)
    requires Inv(w) && s.Poll?
    ensures Inv(Apply(w, s))
  {
    Unfold(w);
    DriveSound(w.queue, s.now, w.tickets, w.holds, w.launches);
    TakeSound(Drive(w.queue, s.now).queue, s.ticket, w.tickets, w.holds, w.launches);
    Fold(Apply(w, s));
  }

  lemma RejectedKeeps(w: World, s: Step)
    requires Inv(w) && s.Rejected?
    ensures Inv(Apply(w, s))
  {
    Unfold(w);
    if s.id in w.holds { RejectedSound(w.queue, s, w.holds[s.id], w.tickets, w.holds, w.launches); }
    Fold(Apply(w, s));
  }

  lemma RejectedSound(q: Queue, s: Step, h: Hold,
                      tickets: map<nat, Pending>, holds: map<nat, Hold>, launches: map<nat, Launch>)
    requires Sound(q, tickets, holds, launches) && s.Rejected?
    ensures var p := HoldRejected(q, s.now, s.id, h, s.recognized, s.hasTiming, s.missingTiming, s.jitter);
      && Sound(p, tickets, holds, launches) && q.generation <= p.generation
      && (Counts(h, s.recognized, s.hasTiming, s.missingTiming) && h.generation == q.generation ==>
          q.generation < p.generation)
  {
    if Counts(h, s.recognized, s.hasTiming, s.missingTiming) {
      ThrottleSound(q, s.now, h.generation, h.cost, s.hasTiming, s.jitter, tickets, holds, launches);
      ReleaseSound(Throttle(q, s.now, h.generation, h.cost, s.hasTiming, s.jitter), s.id, tickets, holds, launches);
    } else {
      ReleaseSound(q, s.id, tickets, holds, launches);
    }
  }

  /** Every step of the protocol keeps the invariant. */
  lemma ApplyKeeps(w: World, s: Step)
    requires Inv(w)
    ensures Inv(Apply(w, s))
  {
    match s
    case Join(_, _, _, _, _) => JoinKeeps(w, s);
    case Poll(_, _) => PollKeeps(w, s);
    case DropTicket(now, t) =>
      if t in w.tickets { AbandonStepKeeps(w, now, t); }
    case Rejected(_, _, _, _, _, _) => RejectedKeeps(w, s);
    case StartHold(_, _) => HoldStepKeeps(w, s);
    case Headers(_, _, _, _, _) => HoldStepKeeps(w, s);
    case DropHold(_, _, _) => HoldStepKeeps(w, s);
    case Cooldown(now, wait) =>
      Unfold(w);
      CoolSound(w.queue, Max(w.queue.cooldownUntil, now + wait), w.tickets, w.holds, w.launches);
      Fold(Apply(w, s));
    case Look(now) =>
      Unfold(w);
      ClockSound(w.queue, now, w.tickets, w.holds, w.launches);
      Fold(Apply(w, s));
  }

  lemma HoldStepKeeps(w: World, s: Step)
    requires Inv(w) && (s.StartHold? || s.Headers? || s.DropHold?)
    ensures Inv(Apply(w, s))
  {
    Unfold(w);
    if s.id in w.holds {
      match s
      case StartHold(now, id) => StartSound(w, now, id);
      case Headers(now, id, status, delay, hint) => HeadersUnfolds(w, s);
      case DropHold(now, id, usage) =>
        DropSound(w.queue, now, id, usage, w.tickets, w.holds, w.launches);
    }
    Fold(Apply(w, s));
  }

  lemma HeadersUnfolds(w: World, s: Step)
    requires Unfolded(w) && s.Headers? && s.id in w.holds
    ensures Unfolded(Apply(w, s))
  {
    HeadersSound(w.queue, s.now, s.id, s.status, s.delay, s.hint, w.tickets, w.holds, w.launches);
  }

  lemma AbandonStepKeeps(w: World, now: nat, t: nat)
    requires Inv(w) && t in w.tickets
    ensures Inv(Apply(w, DropTicket(now, t)))
  {
    Unfold(w);
    assert Accounted(w.queue, t, w.tickets[t]);
    AbandonSound(w.queue, now, t, w.tickets, w.holds, w.launches);
    Fold(Apply(w, DropTicket(now, t)));
  }

  predicate Initial(w: World) {
    && (forall r :: 0 <= r < |w.queue.roots| ==> w.queue.roots[r] == [])
    && w.queue.ledger.entries == [] && w.queue.cells == map[] && w.queue.recovery.None? && w.queue.stage == 0
    && w.tickets == map[] && w.holds == map[] && w.backoffs == []
  }

  ghost function Run(w: World, steps: seq<Step>): (f: World)
    requires Initial(w)
    ensures Inv(f)
  {
    if steps == [] then
      Fold(w);
      w
    else
      var v := Run(w, steps[..|steps| - 1]);
      ApplyKeeps(v, steps[|steps| - 1]);
      Apply(v, steps[|steps| - 1])
  }

  // ---------------------------------------------------------------- the theorems

  ghost function ActiveIds(l: State): set<nat> { set e | e in l.entries && e.active :: e.id }

  function CellIds(cells: map<nat, Outcome>): set<nat> { set t | t in cells && cells[t].Granted? :: cells[t].id }

  lemma ActiveIsStaged(l: State, id: nat)
    requires Wellformed(l)
    ensures id in ActiveIds(l) <==> StageOf(l.entries, id).Some?
  {
    if StageOf(l.entries, id).Some? {
      var i := StageSource(l.entries, id);
      assert l.entries[i] in l.entries;
    }
    if id in ActiveIds(l) {
      var e :| e in l.entries && e.active && e.id == id;
      var i :| 0 <= i < |l.entries| && l.entries[i] == e;
      StageAt(l.entries, i);
    }
  }

  /**
    Ownership conservation: in every run, the active ledger ids are the disjoint union of the
    ids in untaken cells and the ids of live holds; no two cells share an id.
   */
  lemma OwnershipConserved(w: World, steps: seq<Step>)
    requires Initial(w)
    ensures var f := Run(w, steps); var q := f.queue;
      && ActiveIds(q.ledger) == CellIds(q.cells) + f.holds.Keys
      && CellIds(q.cells) !! f.holds.Keys
      && (forall t, u :: t in q.cells && u in q.cells && t != u && q.cells[t].Granted? ==> q.cells[t] != q.cells[u])
  {
    var f := Run(w, steps);
    var q := f.queue;
    assert Upheld(Owning, f);
    forall id ensures id in ActiveIds(q.ledger) <==> id in CellIds(q.cells) + f.holds.Keys {
      ActiveIsStaged(q.ledger, id);
      if StageOf(q.ledger.entries, id).Some? && id !in f.holds {
        assert InCell(q.cells, id);
      }
    }
  }

  /** A dropped hold always settles: `finish` or `cancel` succeeds, and exactly for its own id. */
  lemma DropAlwaysSettles(w: World, steps: seq<Step>, now: nat, id: nat, usage: Option<nat>)
    requires Initial(w) && id in Run(w, steps).holds
    ensures var f := Run(w, steps); var l := f.queue.ledger;
      && (if f.holds[id].started then Finish(l, now, id, usage).1 else Cancel(l, now, id).1)
      && ActiveIds(Apply(f, DropHold(now, id, usage)).queue.ledger) == ActiveIds(l) - {id}
  {
    var f := Run(w, steps);
    var l, m := f.queue.ledger, Apply(f, DropHold(now, id, usage)).queue.ledger;
    assert Upheld(Owning, f);
    DropMoves(f, now, id, usage);
    forall x ensures x in ActiveIds(m) <==> x in ActiveIds(l) - {id} {
      ActiveIsStaged(l, x);
      ActiveIsStaged(m, x);
    }
  }

  lemma DropMoves(f: World, now: nat, id: nat, usage: Option<nat>)
    requires Inv(f) && id in f.holds
    ensures var l := f.queue.ledger; var m := Apply(f, DropHold(now, id, usage)).queue.ledger;
      && (if f.holds[id].started then Finish(l, now, id, usage).1 else Cancel(l, now, id).1)
      && Wellformed(m)
      && forall x :: StageOf(m.entries, x) == if x == id then None else StageOf(l.entries, x)
  {
    HeldStage(f, id);
    DropIs(f, now, id, usage);
    DropStages(f.queue.ledger, now, id, f.holds[id].started, f.holds[id].cost.Metadata?, usage);
  }

  lemma HeldStage(f: World, id: nat)
    requires Inv(f) && id in f.holds
    ensures Wellformed(f.queue.ledger)
    ensures StageOf(f.queue.ledger.entries, id) == Some(Stage(f.holds[id].started, f.holds[id].cost.Metadata?))
  {
    assert Upheld(Owning, f);
  }

  lemma DropIs(f: World, now: nat, id: nat, usage: Option<nat>)
    requires f.queue.stage < |STAGES| && id in f.holds
    ensures var l := f.queue.ledger;
      Apply(f, DropHold(now, id, usage)).queue.ledger
      == if f.holds[id].started then Finish(l, now, id, usage).0 else Cancel(l, now, id).0
  {}

  lemma DropStages(l: State, now: nat, id: nat, started: bool, metadata: bool, usage: Option<nat>)
    requires Wellformed(l) && StageOf(l.entries, id) == Some(Stage(started, metadata))
    ensures var end := if started then Finish(l, now, id, usage) else Cancel(l, now, id);
      && end.1 && Wellformed(end.0)
      && forall x :: StageOf(end.0.entries, x) == if x == id then None else StageOf(l.entries, x)
  {
    if started { FinishStages(l, now, id, usage); } else { CancelStages(l, now, id); }
  }

  /** Nothing is stranded: once every ticket and hold is gone, no slot is used and no probe is out. */
  lemma NothingStranded(w: World, steps: seq<Step>)
    requires Initial(w) && Run(w, steps).tickets == map[] && Run(w, steps).holds == map[]
    ensures var q := Run(w, steps).queue;
      && ActiveIds(q.ledger) == {} && q.cells == map[]
      && (forall r :: 0 <= r < |q.roots| ==> q.roots[r] == [])
      && (q.recovery.Some? ==> q.recovery.value.probe.None?)
  {
    OwnershipConserved(w, steps);
    EmptyHanded(Run(w, steps));
  }

  lemma EmptyHanded(f: World)
    requires Inv(f) && f.tickets == map[] && f.holds == map[]
    ensures f.queue.cells == map[] && (f.queue.recovery.Some? ==> f.queue.recovery.value.probe.None?)
    ensures forall r :: 0 <= r < |f.queue.roots| ==> f.queue.roots[r] == []
  {
    Unfold(f);
    assert f.queue.cells.Keys == {};
    forall r | 0 <= r < |f.queue.roots| ensures f.queue.roots[r] == [] {
      NobodyBelongs(f.queue.roots[r], r, f.queue.cells);
    }
  }

  lemma NobodyBelongs(s: seq<Waiting>, r: nat, cells: map<nat, Outcome>)
    ensures s == [] || exists i :: 0 <= i < |s| && !Belongs(s[i], r, cells, map[])
  {
    if s != [] {
      assert !Belongs(s[0], r, cells, map[]);
    }
  }
}
