/** What a drive decides about each waiting ticket, exactly. */
module AdmissionExact {
  import opened Prelude
  import opened Quota
  import opened Scheduler
  import opened Admission
  import opened Ownership
  import RecoveryExact
  import SchedulerFairness

  lemma {:induction false} RoundsOnlyGrant(q: Queue, now: nat, t: nat)
    requires t !in q.cells && t in Rounds(q, now).0.cells
    ensures Rounds(q, now).0.cells[t].Granted?
    decreases Len(q.roots)
  {
    SchedulerFairness.RoundsOnce(q, now);
    var c := SchedulerFairness.Ready(q, now);
    if q.cooldownUntil <= now && Select(c, now).Some? {
      var root := Select(c, now).value;
      GrantShrinks(c, now, root);
      RecoveryExact.GrantThrough(c, now, root);
      if t == c.roots[root][0].sequence {
        RoundsKeepGranted(Grant(c, now, root), now, t);
      } else {
        RoundsOnlyGrant(Grant(c, now, root), now, t);
      }
    }
  }

  lemma {:induction false} RoundsKeepGranted(q: Queue, now: nat, t: nat)
    requires t in q.cells && q.cells[t].Granted?
    ensures t in Rounds(q, now).0.cells && Rounds(q, now).0.cells[t].Granted?
    decreases Len(q.roots)
  {
    SchedulerFairness.RoundsOnce(q, now);
    var c := SchedulerFairness.Ready(q, now);
    if q.cooldownUntil <= now && Select(c, now).Some? {
      var root := Select(c, now).value;
      GrantShrinks(c, now, root);
      RecoveryExact.GrantThrough(c, now, root);
      RoundsKeepGranted(Grant(c, now, root), now, t);
    }
  }

  /** A request past its deadline gets `Expired`; another does not. */
  lemma ExpireDecides(q: Queue, now: nat, tickets: map<nat, Pending>, r: nat, i: nat)
    requires Lined(q, tickets) && r < |q.roots| && i < |q.roots[r]|
    ensures var t := q.roots[r][i].sequence; var e := Expire(q, now);
      if q.roots[r][i].deadline <= now then t in e.cells && e.cells[t] == Expired else t !in e.cells
  {
    var t := q.roots[r][i].sequence;
    LineBelongs(q, tickets, r, i);
    ExpireAllCellsSpec(q.roots, now, q.cells, t);
    if q.roots[r][i].deadline <= now {
      assert ExpiredIn(q.roots[r], now, t);
    } else {
      SurvivorIsNotExpired(q.roots[r], now, i);
      ExpiredNowhere(q, now, tickets, t);
    }
  }

  /**
    In every run, a drive tells a waiting ticket that it expired if and only if its deadline has
    come; otherwise the ticket is granted a reservation or stays in its line.
   */
  lemma DrivesDecideExactly(w: World, steps: seq<Step>, now: nat, r: nat, i: nat)
    requires Initial(w) && r < |Run(w, steps).queue.roots| && i < |Run(w, steps).queue.roots[r]|
    ensures var q := Run(w, steps).queue; var x := q.roots[r][i]; var d := Drive(q, now).queue;
      if x.deadline <= now then x.sequence in d.cells && d.cells[x.sequence] == Expired
      else if x.sequence in d.cells then d.cells[x.sequence].Granted?
      else r < |d.roots| && InLine(d.roots[r], x.sequence)
  {
    var f := Run(w, steps);
    var q, x, e := f.queue, f.queue.roots[r][i], Expire(f.queue, now);
    Unfold(f);
    LineBelongs(q, f.tickets, r, i);
    ExpireDecides(q, now, f.tickets, r, i);
    if x.deadline <= now {
      ExpireLined(q, now, f.tickets);
      RecoveryExact.RoundsKeepCell(e, now, f.tickets, x.sequence);
    } else if x.sequence in Drive(q, now).queue.cells {
      RoundsOnlyGrant(e, now, x.sequence);
    } else {
      DriveSound(q, now, f.tickets, f.holds, f.launches);
      assert Accounted(Drive(q, now).queue, x.sequence, f.tickets[x.sequence]);
    }
  }
}
