/**
  The ledger's answers in terms of the requests themselves: what each reservation holds, how many
  tokens any window starts, exactly when a request is refused, and how long a new ledger waits.
 */
module QuotaExact {
  import opened Prelude
  import opened Quota
  import opened QuotaHistory

  // ---------------------------------------------------------------- what reservations hold

  /** Active entries hold what their records asked for; the others still count somewhere. */
  predicate AsAsked(config: Config, now: nat, e: Entry, cost: Cost) {
    && (e.active && cost.Estimated? && config.tpm.Known? ==> e.tokens == cost.inputTokens + cost.outputTokens)
    && (e.active && (cost.Metadata? || cost.UnmeteredGeneration? || !config.tpm.Known?) ==> e.tokens == 0)
    && (!e.active ==> Live(e.rpmUntil, now) || Live(e.tpmUntil, now))
  }

  predicate EntryAsAsked(f: World, config: Config, i: nat)
    requires i < |f.ledger.entries|
  {
    var e := f.ledger.entries[i];
    1 <= e.id <= |f.history| && AsAsked(config, f.ledger.now, e, f.history[e.id - 1].cost)
  }

  lemma MirroredAsAsked(g: World, i: nat)
    requires Mirrors(g) && i < |g.ledger.entries|
    ensures EntryAsAsked(g, g.ledger.config, i)
  {
    OwnedRecord(g, i);
  }

  /**
    In every run, an active reservation holds what its request asked for - estimated input and
    output together, nothing for metadata and unmetered requests - and one that is no longer
    active is kept only while one of its debits counts.
   */
  lemma ReservationsHoldWhatWasAsked(w: World, ops: seq<Op>, i: nat)
    requires Initial(w) && i < |Run(w, ops).ledger.entries|
    ensures EntryAsAsked(Run(w, ops), w.ledger.config, i)
  {
    RunKeeps(w, ops);
    KeptAsAsked(Run(w, ops), i);
  }

  lemma KeptAsAsked(g: World, i: nat)
    requires Inv(g) && i < |g.ledger.entries|
    ensures EntryAsAsked(g, g.ledger.config, i)
  {
    assert Holds(Mirroring, g);
    MirroredAsAsked(g, i);
  }

  // ---------------------------------------------------------------- the token window

  function TokensWithin(lo: int, hi: int): Record -> int {
    (r: Record) => if r.startedAt.Some? && lo < r.startedAt.value <= hi then Asked(r.cost) else 0
  }

  /** The tokens asked for by the requests started in the sixty seconds up to and including `T`. */
  function TokensUpTo(h: seq<Record>, T: int): int { SumBy(h, TokensWithin(T - WINDOW, T)) }

  /** Under reserved accounting, a recent start is covered by what it reserved. */
  lemma RecentIsCovered(config: Config, now: nat, r: Record, T: int)
    requires Sound(config, now, r) && config.tpm.Known? && config.accounting == Reserved && now <= T
    ensures TokensWithin(T - WINDOW, T)(r) <= CoveredAt(config, now)(r)
  {}

  lemma TokensNow(w: World, T: int)
    requires Inv(w) && w.ledger.config.tpm.Known? && w.ledger.config.accounting == Reserved && w.ledger.now <= T
    ensures TokensUpTo(w.history, T) <= w.ledger.config.tpm.capacity
  {
    var l, h := w.ledger, w.history;
    assert Holds(Mirroring, w) && Holds(TokenUse, w);
    forall r | r in h ensures TokensWithin(T - WINDOW, T)(r) <= CoveredAt(l.config, l.now)(r) {
      RecentIsCovered(l.config, l.now, r, T);
    }
    SumAtMost(h, TokensWithin(T - WINDOW, T), CoveredAt(l.config, l.now));
  }

  /** A step that ends after `T` starts nothing in the window up to `T`. */
  lemma StepLeavesThePast(w: World, op: Op, T: int)
    requires Inv(w) && T < Step(w, op).ledger.now
    ensures TokensUpTo(Step(w, op).history, T) == TokensUpTo(w.history, T)
  {
    var h, v := w.history, Step(w, op);
    var f := TokensWithin(T - WINDOW, T);
    if |v.history| == |h| + 1 {
      SumSnoc(h, v.history[|h|], f);
    } else if (op.Launch? || op.Withdraw? || op.Complete?) && 1 <= op.id <= |h| {
      var k := op.id - 1;
      AdvanceKeeps(w, op.now);
      if op.Launch? { LaunchIsNew(w, op); }
      assert v.history == h[k := v.history[k]];
      SumUpdate(h, k, v.history[k], f);
    }
  }

  /** Only a record that had not started can start. */
  lemma LaunchIsNew(w: World, op: Op)
    requires Inv(Moved(w, op.now)) && op.Launch? && 1 <= op.id <= |w.history|
    ensures Start(w.ledger, op.now, op.id).1 ==> w.history[op.id - 1].startedAt.None?
  {
    var a := Moved(w, op.now);
    assert Holds(Mirroring, a);
    var i := Find(a.ledger.entries, op.id, false);
    if i.Some? { OwnedRecord(a, i.value); }
  }

  /**
    In every run under reserved accounting, every window of sixty seconds starts at most the token
    limit, counted by what the requests asked for.
   */
  lemma {:induction false} TokenWindow(w: World, ops: seq<Op>, T: int)
    requires Initial(w) && w.ledger.config.tpm.Known? && w.ledger.config.accounting == Reserved
    ensures TokensUpTo(Run(w, ops).history, T) <= w.ledger.config.tpm.capacity
  {
    RunKeeps(w, ops);
    if Run(w, ops).ledger.now <= T {
      TokensNow(Run(w, ops), T);
    } else if ops != [] {
      var n := |ops| - 1;
      TokenWindow(w, ops[..n], T);
      RunKeeps(w, ops[..n]);
      StepLeavesThePast(Run(w, ops[..n]), ops[n], T);
    }
  }

  // ---------------------------------------------------------------- exactly when a request is refused

  function RunningOf(): Record -> int { (r: Record) => if r.end.Running? then 1 else 0 }

  function HeldOf(): Record -> int { (r: Record) => if r.end.Running? && r.startedAt.None? then 1 else 0 }

  function AskedHeldOf(): Record -> int {
    (r: Record) => if r.end.Running? && r.startedAt.None? then Asked(r.cost) else 0
  }

  /** Requests admitted and neither finished nor cancelled. */
  function RunningCount(h: seq<Record>): int { SumBy(h, RunningOf()) }

  /** Requests admitted and neither started nor cancelled, and the tokens they asked for. */
  function HeldCount(h: seq<Record>): int { SumBy(h, HeldOf()) }

  function HeldTokens(h: seq<Record>): int { SumBy(h, AskedHeldOf()) }

  lemma HistoryActive(config: Config, h: seq<Record>)
    ensures HistoryTotal(config, h, Active) == RunningCount(h)
  {
    SumAgree(h, RecordWeight(config, Active), RunningOf());
  }

  lemma HistoryHeld(w: World)
    requires Mirrors(w)
    ensures HistoryTotal(w.ledger.config, w.history, RpmHeld) == HeldCount(w.history)
    ensures w.ledger.config.tpm.Known? ==> HistoryTotal(w.ledger.config, w.history, TpmHeld) == HeldTokens(w.history)
  {
    var config, h := w.ledger.config, w.history;
    forall r | r in h ensures RecordWeight(config, RpmHeld)(r) == HeldOf()(r) {
      assert Sound(config, w.ledger.now, r);
    }
    SumAgree(h, RecordWeight(config, RpmHeld), HeldOf());
    if config.tpm.Known? {
      forall r | r in h ensures RecordWeight(config, TpmHeld)(r) == AskedHeldOf()(r) {
        assert Sound(config, w.ledger.now, r);
      }
      SumAgree(h, RecordWeight(config, TpmHeld), AskedHeldOf());
    }
  }

  /**
    The tokens that a record counts for at `t`: what it asked for in the sixty seconds from its
    start; under actual accounting, what it used, once it finished in that time; and what it used
    in the sixty seconds from its finish, if it finished later or had asked for nothing.
   */
  function CountedTokens(config: Config, r: Record, t: nat): nat {
    if !config.tpm.Known? || r.startedAt.None? then 0
    else
      var reported := r.end.Finished? && r.end.usage.Some? && !r.cost.Metadata?;
      var over := r.startedAt.value + WINDOW;
      if reported && (Asked(r.cost) == 0 || over <= r.end.at) then
        if t < r.end.at + WINDOW then r.end.usage.value else 0
      else if over <= t then 0
      else if reported && config.accounting == Actual then r.end.usage.value
      else Asked(r.cost)
  }

  function CountedAt(config: Config, t: nat): Record -> int { (r: Record) => CountedTokens(config, r, t) }

  function TokensCounted(config: Config, h: seq<Record>, t: nat): int { SumBy(h, CountedAt(config, t)) }

  lemma RecordCounts(config: Config, now: nat, r: Record, t: nat)
    requires Sound(config, now, r) && now <= t
    ensures RecordWeigh(config, TpmLive(t), r) == CountedTokens(config, r, t)
  {}

  lemma HistoryCounts(w: World, t: nat)
    requires Mirrors(w) && w.ledger.now <= t
    ensures HistoryTotal(w.ledger.config, w.history, TpmLive(t)) == TokensCounted(w.ledger.config, w.history, t)
  {
    var config, h := w.ledger.config, w.history;
    forall r | r in h ensures RecordWeight(config, TpmLive(t))(r) == CountedAt(config, t)(r) {
      RecordCounts(config, w.ledger.now, r, t);
    }
    SumAgree(h, RecordWeight(config, TpmLive(t)), CountedAt(config, t));
  }

  /** In every run, the debits alive at `now` are the tokens that the history counts then. */
  lemma DebitsAreExact(w: World, ops: seq<Op>, now: nat)
    requires Initial(w)
    ensures var f := Run(w, ops); var l := Advance(f.ledger, now);
      Total(l.entries, TpmLive(l.now)) == TokensCounted(w.ledger.config, f.history, l.now)
  {
    RunKeeps(w, ops);
    AdvanceKeeps(Run(w, ops), now);
    var a := Moved(Run(w, ops), now);
    assert Holds(Mirroring, a);
    PrunedTotals(a, TpmLive(a.ledger.now));
    HistoryCounts(a, a.ledger.now);
  }

  /** Whether a request may be admitted at `t`, told from the history alone. */
  predicate Admissible(config: Config, h: seq<Record>, t: nat, cost: Cost) {
    && (config.tpm.Known? ==> Asked(cost) <= config.tpm.capacity)
    && config.readyAt <= t
    && RunningCount(h) < config.concurrency
    && (config.rpm.Known? ==> StartsUpTo(h, t) + HeldCount(h) < config.rpm.capacity)
    && (config.tpm.Known? ==>
          TokensCounted(config, h, t) + HeldTokens(h) + Asked(cost) <= config.tpm.capacity)
  }

  lemma TokensAreAsked(cost: Cost)
    ensures Tokens(cost) == Asked(cost)
  {}

  /**
    In every run, the test at `now` passes if and only if the history leaves room: the startup
    hold is over, fewer than the allowed requests run, the last sixty seconds and the waiting
    reservations leave a request and the tokens asked for, and there is a place and a number left.
   */
  lemma CheckIsExact(w: World, ops: seq<Op>, now: nat, cost: Cost)
    requires Initial(w)
    ensures var f := Run(w, ops); var l := Advance(f.ledger, now);
      Check(f.ledger, now, cost).1.None? <==>
        Admissible(w.ledger.config, f.history, l.now, cost) && |l.entries| < MAX_ENTRIES && l.next != U64_MAX
  {
    RunKeeps(w, ops);
    RefusalsAreExact(w, ops, now, cost);
  }

  /** The first limit in the program's order that the history leaves no room under, at `t`. */
  function Reason(config: Config, h: seq<Record>, t: nat, cost: Cost): Option<Refusal> {
    if config.tpm.Known? && config.tpm.capacity < Asked(cost) then Some(EstimateExceedsBudget)
    else if t < config.readyAt then Some(StartupHold)
    else if config.concurrency <= RunningCount(h) then Some(Concurrency)
    else if config.rpm.Known? && config.rpm.capacity <= StartsUpTo(h, t) + HeldCount(h) then Some(Rpm)
    else if config.tpm.Known? && config.tpm.capacity < TokensCounted(config, h, t) + HeldTokens(h) + Asked(cost)
    then Some(Tpm)
    else None
  }

  lemma ReasonFromHistory(a: World, cost: Cost)
    requires Mirrors(a)
    ensures var l := a.ledger; var reason := Reason(l.config, a.history, l.now, cost);
      Verdict(l, cost) == if reason.Some? then reason
                          else if MAX_ENTRIES <= |l.entries| then Some(LedgerCapacity)
                          else if l.next == U64_MAX then Some(IdentityExhausted) else None
  {
    TokensAreAsked(cost);
    PrunedTotals(a, Active);
    PrunedTotals(a, RpmHeld);
    PrunedTotals(a, TpmHeld);
    PrunedTotals(a, TpmLive(a.ledger.now));
    HistoryActive(a.ledger.config, a.history);
    HistoryHeld(a);
    HistoryCounts(a, a.ledger.now);
    if a.ledger.config.rpm.Known? { DebitIsStarts(a); }
  }

  /** In every run, a request is refused for the first limit that the history leaves no room under. */
  lemma RefusalsAreExact(w: World, ops: seq<Op>, now: nat, cost: Cost)
    requires Initial(w)
    ensures var f := Run(w, ops); var l := Advance(f.ledger, now);
      var reason := Reason(w.ledger.config, f.history, l.now, cost);
      Check(f.ledger, now, cost).1 == if reason.Some? then reason
                                      else if MAX_ENTRIES <= |l.entries| then Some(LedgerCapacity)
                                      else if l.next == U64_MAX then Some(IdentityExhausted) else None
  {
    RunKeeps(w, ops);
    AdvanceKeeps(Run(w, ops), now);
    assert Holds(Mirroring, Moved(Run(w, ops), now));
    ReasonFromHistory(Moved(Run(w, ops), now), cost);
  }

  /** In every run, the answer is that the estimate exceeds the budget exactly when what is asked does. */
  lemma OverBudgetIsExact(w: World, ops: seq<Op>, now: nat, cost: Cost)
    requires Initial(w)
    ensures Check(Run(w, ops).ledger, now, cost).1 == Some(EstimateExceedsBudget) <==>
      w.ledger.config.tpm.Known? && w.ledger.config.tpm.capacity < Asked(cost)
  {
    RunKeeps(w, ops);
    TokensAreAsked(cost);
  }

  // ---------------------------------------------------------------- the startup hold

  /** In every run of a new ledger with a known limit, nothing starts before the startup hold is over. */
  lemma StartupHoldIsKept(rpm: Limit, tpm: Limit, accounting: Accounting, concurrency: nat, now: nat, hold: nat,
                          ops: seq<Op>, i: nat)
    requires rpm.Known? || tpm.Known?
    requires i < |Run(World(Fresh(rpm, tpm, accounting, concurrency, now, hold), []), ops).history|
    ensures var r := Run(World(Fresh(rpm, tpm, accounting, concurrency, now, hold), []), ops).history[i];
      r.startedAt.Some? ==> now + hold <= r.startedAt.value
  {
    NoStartBeforeHold(World(Fresh(rpm, tpm, accounting, concurrency, now, hold), []), ops, i);
  }

  /** A new ledger, known limits or not, refuses for the startup hold exactly while it lasts. */
  lemma NewLedgerIsReady(rpm: Limit, tpm: Limit, accounting: Accounting, concurrency: nat, now: nat, hold: nat,
                         t: nat)
    requires now <= t
    ensures var answer := Check(Fresh(rpm, tpm, accounting, concurrency, now, hold), t, Metadata).1;
      answer == Some(StartupHold) <==> (rpm.Known? || tpm.Known?) && t < now + hold
  {}
}
