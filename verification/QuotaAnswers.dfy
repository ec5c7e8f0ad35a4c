/**
  What the ledger tells a refused request: how long to wait, and that waiting less is in vain.
 */
module QuotaAnswers {
  import opened Prelude
  import opened Quota
  import opened QuotaHistory
  import QuotaExact
  import SchedulerWake

  // ---------------------------------------------------------------- waiting less is in vain

  lemma FullStays(a: State, t: nat, cost: Cost)
    requires Verdict(a, cost) == Some(Concurrency)
    ensures Verdict(Advance(a, t), cost) == Some(Concurrency)
  {
    RetainTotal(a.entries, Max(a.now, t), Active);
  }

  lemma UsedUpStays(a: State, t: nat, cost: Cost)
    requires a.next == U64_MAX
    ensures Verdict(Advance(a, t), cost).Some?
  {}

  lemma RefusedUntil(a: State, t: nat, cost: Cost, refusal: Refusal)
    requires Retain(a.entries, a.now) == a.entries && Verdict(a, cost) == Some(refusal)
    requires refusal != Concurrency && refusal != IdentityExhausted && NextWake(a).Some? ==> t < NextWake(a).value
    ensures Verdict(Advance(a, t), cost).Some?
  {
    if refusal == Concurrency {
      FullStays(a, t, cost);
    } else if refusal == IdentityExhausted {
      UsedUpStays(a, t, cost);
    } else {
      SchedulerWake.VerdictStays(a, t, cost);
    }
  }

  lemma AdvancedIsPruned(l: State, now: nat)
    ensures Retain(Advance(l, now).entries, Advance(l, now).now) == Advance(l, now).entries
  {
    RetainAll(Advance(l, now).entries, Advance(l, now).now);
  }

  /**
    A request that is told to wait is refused at every earlier time than it is told, and at every
    time whatsoever when it is told none, as long as nothing else happens.
   */
  lemma WaitingLessIsInVain(l: State, now: nat, cost: Cost, t: nat)
    requires Admit(l, now, cost).1.Wait? && now <= t
    requires var until := Admit(l, now, cost).1.until; until.Some? ==> t < until.value
    ensures Check(l, t, cost).1.Some?
  {
    var a := Advance(l, now);
    AdvancedIsPruned(l, now);
    RefusedUntil(a, t, cost, Verdict(a, cost).value);
    AdvanceLater(l, now, t);
  }

  // ---------------------------------------------------------------- what is waited for

  /** At `u` the startup hold ends or a debit does. */
  predicate Frees(l: State, u: nat) {
    u == l.config.readyAt || exists e :: e in l.entries && (e.rpmUntil == Some(u) || e.tpmUntil == Some(u))
  }

  lemma WakeFrees(l: State)
    ensures NextWake(l).Some? ==> l.now < NextWake(l).value && Frees(l, NextWake(l).value)
  {
    NextExpiryIsEarliest(l.entries, l.now);
  }

  /**
    In every run, a request is told to come back only for a limit that time alone can lift: at the
    end of the startup hold while it lasts, and otherwise, with fewer requests running than are
    allowed, when a debit ends.
   */
  lemma WaitsForTime(w: World, ops: seq<Op>, now: nat, cost: Cost)
    requires Initial(w)
    ensures var f := Run(w, ops); var d := Admit(f.ledger, now, cost).1; var l := Advance(f.ledger, now);
      d.Wait? && d.until.Some? ==>
        && l.now < d.until.value && Frees(l, d.until.value)
        && (if l.now < w.ledger.config.readyAt then d.until.value == w.ledger.config.readyAt
            else QuotaExact.RunningCount(f.history) < w.ledger.config.concurrency)
  {
    var f := Run(w, ops);
    var l := Advance(f.ledger, now);
    RunKeeps(w, ops);
    WakeFrees(l);
    RunningIsActive(w, ops, now);
  }

  lemma RunningIsActive(w: World, ops: seq<Op>, now: nat)
    requires Initial(w)
    ensures Total(Advance(Run(w, ops).ledger, now).entries, Active) == QuotaExact.RunningCount(Run(w, ops).history)
  {
    RunKeeps(w, ops);
    AdvanceKeeps(Run(w, ops), now);
    var a := Moved(Run(w, ops), now);
    assert Holds(Mirroring, a);
    PrunedTotals(a, Active);
    QuotaExact.HistoryActive(a.ledger.config, a.history);
  }

  /** The answer says too large exactly for more than the token limit, and admits exactly what the test passes. */
  lemma AnswersAreExact(l: State, now: nat, cost: Cost)
    ensures var d := Admit(l, now, cost).1;
      && (d.TooLarge? <==> l.config.tpm.Known? && l.config.tpm.capacity < Asked(cost))
      && (d.Admitted? <==> Check(l, now, cost).1.None?)
      && (d.Admitted? ==> d.id == l.next + 1)
  {
    QuotaExact.TokensAreAsked(cost);
  }
}
