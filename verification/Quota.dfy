/**
  The rolling quota ledger.

  The ledger as a value: one function per operation, over an immutable `State`.
  `LedgerObject` is the ledger as the program runs it, with its clock, identity counter and
  entry vector updated in place and every method proved to be the function of the old state.
 */
module Quota {
  import opened Prelude

  const WINDOW: nat := 60 * SECOND
  const MAX_ENTRIES: nat := 8192

  type pos = n: nat | 0 < n witness 1

  datatype Limit = Known(capacity: pos) | Unknown | Unlimited

  datatype Accounting = Reserved | Actual

  datatype Cost =
    | Metadata
    | UnmeteredGeneration
    | Estimated(inputTokens: nat, outputTokens: nat)
    | ExactFixture(tokens: nat)

  function Tokens(cost: Cost): nat {
    match cost
    case Metadata | UnmeteredGeneration => 0
    case Estimated(input, output) => input + output
    case ExactFixture(n) => n
  }

  datatype Entry = Entry(
    id: nat, active: bool, started: bool, metadata: bool, tokens: nat,
    rpmUntil: Option<nat>, tpmUntil: Option<nat>)

  datatype Config = Config(
    rpm: Limit, tpm: Limit, accounting: Accounting, concurrency: nat, readyAt: nat)

  datatype State = State(config: Config, now: nat, next: nat, entries: seq<Entry>)

  predicate Live(until: Option<nat>, now: nat) { until.Some? && until.value > now }

  // ---------------------------------------------------------------- totals over entries

  /** The quantities that the ledger adds up over its entries. */
  datatype Measure =
    | Active
    | RpmHeld
    | TpmHeld
    | RpmLive(t: nat)
    | TpmLive(t: nat)
    | RpmAt(t: nat)  // requests that count against the window ending at t, started or not
    | TpmAt(t: nat)  // tokens that count against the window ending at t, started or not

  function Weigh(m: Measure, e: Entry): nat {
    match m
    case Active => if e.active then 1 else 0
    case RpmHeld => if !e.started then 1 else 0
    case TpmHeld => if !e.started then e.tokens else 0
    case RpmLive(t) => if Live(e.rpmUntil, t) then 1 else 0
    case TpmLive(t) => if Live(e.tpmUntil, t) then e.tokens else 0
    case RpmAt(t) => if !e.started || Live(e.rpmUntil, t) then 1 else 0
    case TpmAt(t) => if !e.started || Live(e.tpmUntil, t) then e.tokens else 0
  }

  function Weight(m: Measure): Entry -> int { (e: Entry) => Weigh(m, e) }

  function Total(s: seq<Entry>, m: Measure): (r: nat) {
    SumNonNegative(s, Weight(m));
    SumBy(s, Weight(m))
  }

  // ---------------------------------------------------------------- operations on values

  predicate Retained(e: Entry, now: nat) {
    e.active || Live(e.rpmUntil, now) || Live(e.tpmUntil, now)
  }

  function Retain(s: seq<Entry>, now: nat): (r: seq<Entry>)
    ensures |r| <= |s|
    ensures forall e :: e in r <==> e in s && Retained(e, now)
  {
    if s == [] then []
    else
      var rest := Retain(s[..|s| - 1], now);
      assert s == s[..|s| - 1] + [s[|s| - 1]];
      if Retained(s[|s| - 1], now) then rest + [s[|s| - 1]] else rest
  }

  function Advance(l: State, now: nat): State {
    var t := Max(l.now, now);
    l.(now := t, entries := Retain(l.entries, t))
  }

  predicate TotalFits(config: Config, cost: Cost) {
    config.tpm.Known? ==> Tokens(cost) <= config.tpm.capacity
  }

  datatype Refusal =
    | EstimateExceedsBudget | StartupHold | Concurrency | Rpm | Tpm
    | LedgerCapacity | IdentityExhausted

  /** Why a ledger that stands at its own clock refuses `cost`, if it does. */
  function Verdict(l: State, cost: Cost): Option<Refusal> {
    if !TotalFits(l.config, cost) then Some(EstimateExceedsBudget)
    else if l.now < l.config.readyAt then Some(StartupHold)
    else if Total(l.entries, Active) >= l.config.concurrency then Some(Concurrency)
    else if l.config.rpm.Known?
         && Total(l.entries, RpmLive(l.now)) + Total(l.entries, RpmHeld) >= l.config.rpm.capacity
    then Some(Rpm)
    else if l.config.tpm.Known?
         && Total(l.entries, TpmLive(l.now)) + Total(l.entries, TpmHeld) + Tokens(cost)
              > l.config.tpm.capacity
    then Some(Tpm)
    else if |l.entries| >= MAX_ENTRIES then Some(LedgerCapacity)
    else if l.next == U64_MAX then Some(IdentityExhausted)
    else None
  }

  /** The admission test at `now`: it moves the clock and answers for the moved ledger. */
  function Check(l: State, now: nat, cost: Cost): (State, Option<Refusal>) {
    var a := Advance(l, now);
    (a, Verdict(a, cost))
  }

  function Earliest(a: Option<nat>, b: Option<nat>): Option<nat> {
    if a.None? then b else if b.None? then a else Some(Min(a.value, b.value))
  }

  function Upcoming(until: Option<nat>, now: nat): Option<nat> {
    if Live(until, now) then until else None
  }

  function NextExpiry(s: seq<Entry>, now: nat): Option<nat> {
    if s == [] then None
    else
      var e := s[|s| - 1];
      Earliest(NextExpiry(s[..|s| - 1], now), Earliest(Upcoming(e.rpmUntil, now), Upcoming(e.tpmUntil, now)))
  }

  function NextWake(l: State): Option<nat> {
    if l.now < l.config.readyAt then Some(l.config.readyAt) else NextExpiry(l.entries, l.now)
  }

  /** An active generation entry whose finish before `at` cannot charge tokens afresh. */
  predicate NoRecharge(e: Entry, at: nat) {
    e.active && !e.metadata ==> if e.started then Live(e.tpmUntil, at) else 0 < e.tokens
  }

  /** What the projection to `at` asks beyond a passed admission test. */
  predicate Projects(l: State, at: nat, head: Cost, deadline: nat, candidate: Cost) {
    && at < deadline
    && at < l.now + WINDOW
    && Total(l.entries, Active) + 2 <= l.config.concurrency
    && |l.entries| + 2 <= MAX_ENTRIES
    && l.next + 2 <= U64_MAX
    && (l.config.tpm.Known? && Tokens(candidate) == 0 ==> candidate.Metadata?)
    && (l.config.tpm.Known? ==> forall e :: e in l.entries ==> NoRecharge(e, at))
    && (l.config.rpm.Known? ==> Total(l.entries, RpmAt(at)) + 2 <= l.config.rpm.capacity)
    && (l.config.tpm.Known? ==>
          Total(l.entries, TpmAt(at)) + Tokens(head) + Tokens(candidate) <= l.config.tpm.capacity)
  }

  /** The projection test, on a ledger that already stands at the test's time. */
  predicate BackfillAllowed(l: State, head: Cost, deadline: nat, candidate: Cost) {
    && l.config.accounting == Reserved
    && Verdict(l, candidate).None?
    && NextWake(l).Some?
    && Projects(l, NextWake(l).value, head, deadline, candidate)
  }

  datatype Decision = Admitted(id: nat) | Wait(until: Option<nat>) | TooLarge

  function NewEntry(config: Config, id: nat, cost: Cost): Entry {
    Entry(id, true, false, cost.Metadata?, if config.tpm.Known? then Tokens(cost) else 0, None, None)
  }

  function Admit(l: State, now: nat, cost: Cost): (State, Decision) {
    var (a, refusal) := Check(l, now, cost);
    match refusal
    case Some(EstimateExceedsBudget) => (a, TooLarge)
    case Some(Concurrency) => (a, Wait(None))
    case Some(IdentityExhausted) => (a, Wait(None))
    case Some(_) => (a, Wait(NextWake(a)))
    case None =>
      (a.(next := a.next + 1, entries := a.entries + [NewEntry(a.config, a.next + 1, cost)]),
       Admitted(a.next + 1))
  }

  predicate Owned(e: Entry, id: nat, started: bool) { e.id == id && e.active && e.started == started }

  /** The first entry that `id` owns in the given stage. */
  function Find(s: seq<Entry>, id: nat, started: bool): (r: Option<nat>)
    ensures r.Some? ==> r.value < |s| && Owned(s[r.value], id, started)
    ensures r.Some? ==> forall i :: 0 <= i < r.value ==> !Owned(s[i], id, started)
    ensures r.None? ==> forall i :: 0 <= i < |s| ==> !Owned(s[i], id, started)
  {
    if s == [] then None
    else
      var r := Find(s[..|s| - 1], id, started);
      if r.Some? then r else if Owned(s[|s| - 1], id, started) then Some(|s| - 1) else None
  }

  function Begin(config: Config, now: nat, e: Entry): Entry {
    e.(started := true,
       rpmUntil := if config.rpm.Known? then Some(now + WINDOW) else None,
       tpmUntil := if config.tpm.Known? && 0 < e.tokens then Some(now + WINDOW) else None)
  }

  function Start(l: State, now: nat, id: nat): (State, bool) {
    var a := Advance(l, now);
    match Find(a.entries, id, false)
    case None => (a, false)
    case Some(i) => (a.(entries := a.entries[i := Begin(a.config, a.now, a.entries[i])]), true)
  }

  /** `Vec::swap_remove`: the last element takes the removed one's place. */
  function SwapRemove<T>(s: seq<T>, i: nat): (r: seq<T>)
    requires i < |s|
    ensures |r| == |s| - 1
  {
    s[i := s[|s| - 1]][..|s| - 1]
  }

  function Cancel(l: State, now: nat, id: nat): (State, bool) {
    var a := Advance(l, now);
    match Find(a.entries, id, false)
    case None => (a, false)
    case Some(i) => (a.(entries := SwapRemove(a.entries, i)), true)
  }

  /** Settlement of a finished entry; `usage` is the observed total, if one was reported. */
  function Settle(config: Config, now: nat, e: Entry, usage: Option<nat>): Entry {
    var f := e.(active := false);
    if e.metadata || !config.tpm.Known? || usage.None? then f
    else if Live(e.tpmUntil, now) then
      if config.accounting == Actual then f.(tokens := usage.value) else f
    else if 0 < usage.value then f.(tokens := usage.value, tpmUntil := Some(now + WINDOW))
    else f
  }

  function Finish(l: State, now: nat, id: nat, usage: Option<nat>): (State, bool) {
    var a := Advance(l, now);
    match Find(a.entries, id, true)
    case None => (a, false)
    case Some(i) =>
      (Advance(a.(entries := a.entries[i := Settle(a.config, a.now, a.entries[i], usage)]), now), true)
  }

  predicate IsActiveGeneration(l: State, id: nat) {
    exists e :: e in l.entries && e.id == id && e.active && !e.metadata
  }

  function Fresh(rpm: Limit, tpm: Limit, accounting: Accounting, concurrency: nat, now: nat, hold: nat): State {
    State(Config(rpm, tpm, accounting, concurrency, if rpm.Known? || tpm.Known? then now + hold else now),
          now, 0, [])
  }

  // ---------------------------------------------------------------- facts about the pieces

  lemma {:induction false} RetainAll(s: seq<Entry>, now: nat)
    requires forall e :: e in s ==> Retained(e, now)
    ensures Retain(s, now) == s
  {
    if s != [] {
      assert s == s[..|s| - 1] + [s[|s| - 1]];
      RetainAll(s[..|s| - 1], now);
    }
  }

  /** Looking at the ledger twice at the same time changes nothing the second time. */
  lemma AdvanceTwice(l: State, now: nat)
    ensures Advance(Advance(l, now), now) == Advance(l, now)
  {
    RetainAll(Advance(l, now).entries, Advance(l, now).now);
  }

  lemma {:induction false} RetainLater(s: seq<Entry>, a: nat, b: nat)
    requires a <= b
    ensures Retain(Retain(s, a), b) == Retain(s, b)
  {
    if s != [] {
      RetainLater(s[..|s| - 1], a, b);
      var rest := Retain(s[..|s| - 1], a);
      assert (rest + [s[|s| - 1]])[..|rest|] == rest;
    }
  }

  lemma AdvanceLater(l: State, a: nat, b: nat)
    requires a <= b
    ensures Advance(Advance(l, a), b) == Advance(l, b)
  {
    RetainLater(l.entries, Max(l.now, a), Max(l.now, b));
  }

  /** A measure that is zero on dropped entries is not changed by dropping them. */
  lemma {:induction false} RetainTotal(s: seq<Entry>, now: nat, m: Measure)
    requires forall e :: e in s && !Retained(e, now) ==> Weigh(m, e) == 0
    ensures Total(Retain(s, now), m) == Total(s, m)
  {
    if s != [] {
      var init, e := s[..|s| - 1], s[|s| - 1];
      RetainTotal(init, now, m);
      if Retained(e, now) {
        SumSnoc(Retain(init, now), e, Weight(m));
      }
    }
  }

  lemma {:induction false} RetainShrinks(s: seq<Entry>, now: nat, m: Measure)
    ensures Total(Retain(s, now), m) <= Total(s, m)
  {
    if s != [] {
      var init, e := s[..|s| - 1], s[|s| - 1];
      RetainShrinks(init, now, m);
      if Retained(e, now) {
        SumSnoc(Retain(init, now), e, Weight(m));
      }
    }
  }

  lemma {:induction false} NextExpiryIsEarliest(s: seq<Entry>, now: nat)
    ensures var w := NextExpiry(s, now);
      && (w.Some? ==> now < w.value && exists e :: e in s && (e.rpmUntil == w || e.tpmUntil == w))
      && (forall e :: e in s && Live(e.rpmUntil, now) ==> w.Some? && w.value <= e.rpmUntil.value)
      && (forall e :: e in s && Live(e.tpmUntil, now) ==> w.Some? && w.value <= e.tpmUntil.value)
  {
    if s != [] {
      var init, e := s[..|s| - 1], s[|s| - 1];
      assert s == init + [e];
      NextExpiryIsEarliest(init, now);
      assert e in s;
      var w := NextExpiry(s, now);
      var v := NextExpiry(init, now);
      if w.Some? && w != Earliest(Upcoming(e.rpmUntil, now), Upcoming(e.tpmUntil, now)) {
        var x :| x in init && (x.rpmUntil == v || x.tpmUntil == v);
        assert x in s;
      }
    }
  }

  lemma SwapRemoveTotal(s: seq<Entry>, i: nat, m: Measure)
    requires i < |s|
    ensures Total(SwapRemove(s, i), m) == Total(s, m) - Weigh(m, s[i])
  {
    var n := |s| - 1;
    SumUpdate(s, i, s[n], Weight(m));
    var u := s[i := s[n]];
    assert u == u[..n] + [u[n]];
    SumSnoc(u[..n], u[n], Weight(m));
  }

  lemma UpdateTotal(s: seq<Entry>, i: nat, e: Entry, m: Measure)
    requires i < |s|
    ensures Total(s[i := e], m) == Total(s, m) - Weigh(m, s[i]) + Weigh(m, e)
  {
    SumUpdate(s, i, e, Weight(m));
  }

  lemma SnocTotal(s: seq<Entry>, e: Entry, m: Measure)
    ensures Total(s + [e], m) == Total(s, m) + Weigh(m, e)
  {
    SumSnoc(s, e, Weight(m));
  }
}
