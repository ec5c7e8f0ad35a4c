/**
  Whole-run guarantees of the quota ledger.

  A `World` pairs the ledger with a history that never forgets: one record per reservation
  ever admitted, written only from what the operations report to their callers.  The
  theorems state what the ledger's pruned entries mean in terms of that history, for every
  sequence of operations and every sequence of clock arguments, ordered or not.
 */
module QuotaHistory {
  import opened Prelude
  import opened Quota

  datatype End = Running | Cancelled | Finished(at: nat, usage: Option<nat>)

  /** What is known about one reservation; reservation `id` is record `id - 1`. */
  datatype Record = Record(cost: Cost, startedAt: Option<nat>, end: End)

  datatype World = World(ledger: State, history: seq<Record>)

  datatype Op =
    | Look(now: nat)  // snapshot, check and the projection test only move the clock
    | Reserve(now: nat, cost: Cost)
    | Launch(now: nat, id: nat)
    | Withdraw(now: nat, id: nat)
    | Complete(now: nat, id: nat, usage: Option<nat>)

  function Note(h: seq<Record>, id: nat, ok: bool, f: Record -> Record): seq<Record> {
    if ok && 1 <= id <= |h| then h[id - 1 := f(h[id - 1])] else h
  }

  function Step(w: World, op: Op): World {
    match op
    case Look(now) => w.(ledger := Advance(w.ledger, now))
    case Reserve(now, cost) =>
      var (l, d) := Admit(w.ledger, now, cost);
      World(l, if d.Admitted? then
                 w.history + [Record(cost, None, Running)]
               else w.history)
    case Launch(now, id) =>
      var (l, ok) := Start(w.ledger, now, id);
      World(l, Note(w.history, id, ok, (r: Record) => r.(startedAt := Some(l.now))))
    case Withdraw(now, id) =>
      var (l, ok) := Cancel(w.ledger, now, id);
      World(l, Note(w.history, id, ok, (r: Record) => r.(end := Cancelled)))
    case Complete(now, id, usage) =>
      var (l, ok) := Finish(w.ledger, now, id, usage);
      World(l, Note(w.history, id, ok, (r: Record) => r.(end := Finished(l.now, usage))))
  }

  function Run(w: World, ops: seq<Op>): World {
    if ops == [] then w else Step(Run(w, ops[..|ops| - 1]), ops[|ops| - 1])
  }

  /** What the operations do to the ledger alone. */
  function LedgerStep(l: State, op: Op): State {
    match op
    case Look(now) => Advance(l, now)
    case Reserve(now, cost) => Admit(l, now, cost).0
    case Launch(now, id) => Start(l, now, id).0
    case Withdraw(now, id) => Cancel(l, now, id).0
    case Complete(now, id, usage) => Finish(l, now, id, usage).0
  }

  function LedgerRun(l: State, ops: seq<Op>): State {
    if ops == [] then l else LedgerStep(LedgerRun(l, ops[..|ops| - 1]), ops[|ops| - 1])
  }

  lemma LedgerSnoc(l: State, ops: seq<Op>, op: Op)
    ensures LedgerRun(l, ops + [op]) == LedgerStep(LedgerRun(l, ops), op)
  {
    assert (ops + [op])[..|ops|] == ops;
  }

  lemma StepLedger(w: World, op: Op)
    ensures Step(w, op).ledger == LedgerStep(w.ledger, op)
  {}

  lemma {:induction false} RunLedger(w: World, ops: seq<Op>)
    ensures Run(w, ops).ledger == LedgerRun(w.ledger, ops)
  {
    if ops != [] {
      RunLedger(w, ops[..|ops| - 1]);
      StepLedger(Run(w, ops[..|ops| - 1]), ops[|ops| - 1]);
    }
  }

  // ---------------------------------------------------------------- the history's reading

  /** The tokens a request asks for: its estimated input and output together, or nothing. */
  function Asked(cost: Cost): nat {
    if cost.Estimated? then cost.inputTokens + cost.outputTokens
    else if cost.ExactFixture? then cost.tokens
    else 0
  }

  /** The tokens a record holds against a known token limit. */
  function ReservedBy(config: Config, r: Record): nat { if config.tpm.Known? then Asked(r.cost) else 0 }

  function FirstExpiry(config: Config, r: Record): Option<nat> {
    if config.tpm.Known? && 0 < ReservedBy(config, r) && r.startedAt.Some? then Some(r.startedAt.value + WINDOW)
    else None
  }

  predicate Reports(config: Config, r: Record) {
    r.end.Finished? && r.end.usage.Some? && !r.cost.Metadata? && config.tpm.Known?
  }

  /** The ledger entry that a record calls for. */
  function EntryOf(config: Config, id: nat, r: Record): Entry {
    var e := Entry(id, r.end.Running?, r.startedAt.Some?, r.cost.Metadata?, ReservedBy(config, r),
                   if config.rpm.Known? && r.startedAt.Some? then Some(r.startedAt.value + WINDOW) else None,
                   FirstExpiry(config, r));
    if !Reports(config, r) then e
    else if Live(FirstExpiry(config, r), r.end.at) then
      if config.accounting == Actual then e.(tokens := r.end.usage.value) else e
    else if 0 < r.end.usage.value then
      e.(tokens := r.end.usage.value, tpmUntil := Some(r.end.at + WINDOW))
    else e
  }

  function RecordWeigh(config: Config, m: Measure, r: Record): nat {
    if r.end.Cancelled? then 0 else Weigh(m, EntryOf(config, 0, r))
  }

  function RecordWeight(config: Config, m: Measure): Record -> int { (r: Record) => RecordWeigh(config, m, r) }

  /** A total of the full, unpruned history. */
  function HistoryTotal(config: Config, h: seq<Record>, m: Measure): int { SumBy(h, RecordWeight(config, m)) }

  function StartsWithin(lo: int, hi: int): Record -> int {
    (r: Record) => if r.startedAt.Some? && lo < r.startedAt.value <= hi then 1 else 0
  }

  /** The number of requests started in the half-open window (lo, hi]. */
  function Starts(h: seq<Record>, lo: int, hi: int): int { SumBy(h, StartsWithin(lo, hi)) }

  /** The number of requests started in the sixty seconds up to and including `T`. */
  function StartsUpTo(h: seq<Record>, T: int): int { Starts(h, T - WINDOW, T) }

  /** Tokens that a settlement added beyond what admission had reserved, while still debited. */
  function OvershootOf(config: Config, r: Record, now: nat): nat {
    if r.end.Cancelled? || !Live(EntryOf(config, 0, r).tpmUntil, now) || !Reports(config, r) then 0
    else if Live(FirstExpiry(config, r), r.end.at) then
      if config.accounting == Actual then Monus(r.end.usage.value, ReservedBy(config, r)) else 0
    else r.end.usage.value
  }

  function OvershootAt(config: Config, now: nat): Record -> int { (r: Record) => OvershootOf(config, r, now) }

  function Overshoot(config: Config, h: seq<Record>, now: nat): int { SumBy(h, OvershootAt(config, now)) }

  /** The part of a record's present token weight that was covered by a reservation. */
  function CoveredOf(config: Config, r: Record, now: nat): int {
    RecordWeigh(config, TpmLive(now), r) + RecordWeigh(config, TpmHeld, r) - OvershootOf(config, r, now)
  }

  function CoveredAt(config: Config, now: nat): Record -> int { (r: Record) => CoveredOf(config, r, now) }

  // ---------------------------------------------------------------- the invariant

  predicate Distinct(s: seq<Entry>) { forall i, j :: 0 <= i < j < |s| ==> s[i].id != s[j].id }

  ghost predicate Has(s: seq<Entry>, id: nat) { exists i :: 0 <= i < |s| && s[i].id == id }

  predicate Sound(config: Config, now: nat, r: Record) {
    && (r.startedAt.Some? ==> config.readyAt <= r.startedAt.value <= now)
    && (r.end.Cancelled? ==> r.startedAt.None?)
    && (r.end.Finished? ==> r.startedAt.Some? && r.startedAt.value <= r.end.at <= now)
  }

  /** The entries are exactly the retained ones among those the history calls for. */
  ghost predicate Mirrors(w: World) {
    var l, h := w.ledger, w.history;
    && |h| == l.next
    && Distinct(l.entries)
    && (forall r :: r in h ==> Sound(l.config, l.now, r))
    && (forall i :: 0 <= i < |l.entries| ==> Mirrored(l, h, l.entries[i]))
    && (forall id :: Calls(l, h, id) ==> Has(l.entries, id))
  }

  predicate Written(config: Config, h: seq<Record>, e: Entry) {
    1 <= e.id <= |h| && e == EntryOf(config, e.id, h[e.id - 1]) && !h[e.id - 1].end.Cancelled?
  }

  predicate Mirrored(l: State, h: seq<Record>, e: Entry) { Written(l.config, h, e) && Retained(e, l.now) }

  /** The history calls for an entry for `id` at the ledger's time. */
  predicate Calls(l: State, h: seq<Record>, id: nat) {
    1 <= id <= |h| && !h[id - 1].end.Cancelled? && Retained(EntryOf(l.config, id, h[id - 1]), l.now)
  }

  predicate SlotsBounded(w: World) {
    var l := w.ledger;
    && (w.history != [] ==> l.config.readyAt <= l.now)
    && l.next <= U64_MAX
    && |l.entries| <= MAX_ENTRIES
    && Total(l.entries, Active) <= l.config.concurrency
  }

  ghost predicate RpmBounded(w: World) {
    var l := w.ledger;
    l.config.rpm.Known? ==>
      && Total(l.entries, RpmLive(l.now)) + Total(l.entries, RpmHeld) <= l.config.rpm.capacity
      && forall T: int :: StartsUpTo(w.history, T) <= l.config.rpm.capacity
  }

  predicate TpmBounded(w: World) {
    var l := w.ledger;
    l.config.tpm.Known? ==> SumBy(w.history, CoveredAt(l.config, l.now)) <= l.config.tpm.capacity
  }

  /** The clauses of the invariant; a proof that needs one asks for it by name. */
  datatype Clause = Mirroring | SlotUse | RequestUse | TokenUse

  ghost predicate Holds(c: Clause, w: World) {
    match c
    case Mirroring => Mirrors(w)
    case SlotUse => SlotsBounded(w)
    case RequestUse => RpmBounded(w)
    case TokenUse => TpmBounded(w)
  }

  ghost predicate Inv(w: World) { forall c :: Holds(c, w) }

  // ---------------------------------------------------------------- totals of the two readings

  predicate Weighs(config: Config, m: Measure, h: seq<Record>, id: nat) {
    1 <= id <= |h| && RecordWeigh(config, m, h[id - 1]) != 0
  }

  /** Entries that mirror a history add up to the history, wherever dropped records weigh nothing. */
  lemma {:induction false} TotalsAgree(config: Config, s: seq<Entry>, h: seq<Record>, m: Measure)
    requires Distinct(s)
    requires forall i :: 0 <= i < |s| ==> Written(config, h, s[i])
    requires forall id :: Weighs(config, m, h, id) ==> Has(s, id)
    ensures Total(s, m) == HistoryTotal(config, h, m)
    decreases |h|
  {
    if h == [] {
      NoneWritten(config, s);
    } else {
      var n := |h|;
      var rest := h[..n - 1];
      if Has(s, n) {
        var k :| 0 <= k < |s| && s[k].id == n;
        WithoutLast(config, s, h, m, k);
        TotalsAgree(config, s[..k] + s[k + 1..], rest, m);
        LastCounted(config, s, h, m, k);
      } else {
        assert !Weighs(config, m, h, n);
        WithoutMissing(config, s, h, m);
        TotalsAgree(config, s, rest, m);
      }
    }
  }

  lemma LastCounted(config: Config, s: seq<Entry>, h: seq<Record>, m: Measure, k: nat)
    requires k < |s| && h != [] && s[k].id == |h| && Written(config, h, s[k])
    requires Total(s[..k] + s[k + 1..], m) == HistoryTotal(config, h[..|h| - 1], m)
    ensures Total(s, m) == HistoryTotal(config, h, m)
  {
    SumRemove(s, k, Weight(m));
    SameWeight(config, h, m, s[k]);
  }

  lemma NoneWritten(config: Config, s: seq<Entry>)
    ensures s == [] || exists e :: e in s && !Written(config, [], e)
  {
    if s != [] {
      assert s[0] in s && !Written(config, [], s[0]);
    }
  }

  lemma SameWeight(config: Config, h: seq<Record>, m: Measure, e: Entry)
    requires Written(config, h, e)
    ensures Weight(m)(e) == RecordWeight(config, m)(h[e.id - 1])
  {}

  lemma WithoutMissing(config: Config, s: seq<Entry>, h: seq<Record>, m: Measure)
    requires h != [] && !Has(s, |h|)
    requires forall i :: 0 <= i < |s| ==> Written(config, h, s[i])
    requires forall id :: Weighs(config, m, h, id) ==> Has(s, id)
    ensures forall i :: 0 <= i < |s| ==> Written(config, h[..|h| - 1], s[i])
    ensures forall id :: Weighs(config, m, h[..|h| - 1], id) ==> Has(s, id)
  {
    var rest := h[..|h| - 1];
    forall i | 0 <= i < |s| ensures Written(config, rest, s[i]) {
      assert Written(config, h, s[i]) && s[i].id != |h|;
    }
    forall id | Weighs(config, m, rest, id) ensures Has(s, id) {
      assert Weighs(config, m, h, id);
    }
  }

  lemma WithoutLast(config: Config, s: seq<Entry>, h: seq<Record>, m: Measure, k: nat)
    requires Distinct(s) && k < |s| && h != [] && s[k].id == |h|
    requires forall i :: 0 <= i < |s| ==> Written(config, h, s[i])
    requires forall id :: Weighs(config, m, h, id) ==> Has(s, id)
    ensures var t, rest := s[..k] + s[k + 1..], h[..|h| - 1];
      && Distinct(t)
      && (forall i :: 0 <= i < |t| ==> Written(config, rest, t[i]))
      && (forall id :: Weighs(config, m, rest, id) ==> Has(t, id))
  {
    var t, rest := s[..k] + s[k + 1..], h[..|h| - 1];
    forall i | 0 <= i < |t| ensures Written(config, rest, t[i]) {
      var j := if i < k then i else i + 1;
      assert t[i] == s[j] && Written(config, h, s[j]) && s[j].id != s[k].id;
    }
    forall id | Weighs(config, m, rest, id) ensures Has(t, id) {
      assert Weighs(config, m, h, id);
      var i :| 0 <= i < |s| && s[i].id == id;
      assert t[if i < k then i else i - 1].id == id;
    }
  }

  /** A pruned ledger reports the totals of the full history. */
  lemma PrunedTotals(w: World, m: Measure)
    requires Mirrors(w)
    requires m in {Active, RpmHeld, TpmHeld, RpmLive(w.ledger.now), TpmLive(w.ledger.now)}
    ensures Total(w.ledger.entries, m) == HistoryTotal(w.ledger.config, w.history, m)
  {
    var l, h := w.ledger, w.history;
    forall id | Weighs(l.config, m, h, id) ensures Has(l.entries, id) {
      assert h[id - 1] in h;
      assert Calls(l, h, id);
    }
    forall i | 0 <= i < |l.entries| ensures Written(l.config, h, l.entries[i]) {
      assert Mirrored(l, h, l.entries[i]);
    }
    TotalsAgree(l.config, l.entries, h, m);
  }

  /** The RPM debit of the ledger is the number of starts in the window that ends now. */
  lemma DebitIsStarts(w: World)
    requires Mirrors(w) && w.ledger.config.rpm.Known?
    ensures Total(w.ledger.entries, RpmLive(w.ledger.now)) == StartsUpTo(w.history, w.ledger.now)
  {
    var l, h := w.ledger, w.history;
    PrunedTotals(w, RpmLive(l.now));
    forall r | r in h
      ensures RecordWeight(l.config, RpmLive(l.now))(r) == StartsWithin(l.now - WINDOW, l.now)(r)
    {
      assert Sound(l.config, l.now, r);
    }
    SumAgree(h, RecordWeight(l.config, RpmLive(l.now)), StartsWithin(l.now - WINDOW, l.now));
  }

  // ---------------------------------------------------------------- each step keeps the invariant

  lemma {:induction false} RetainDistinct(s: seq<Entry>, now: nat)
    requires Distinct(s)
    ensures Distinct(Retain(s, now))
  {
    if s != [] {
      var init := s[..|s| - 1];
      RetainDistinct(init, now);
      var kept := Retain(init, now);
      forall i | 0 <= i < |kept| ensures kept[i].id != s[|s| - 1].id {
        assert kept[i] in init;
        var j :| 0 <= j < |init| && init[j] == kept[i];
        assert s[j] == init[j];
      }
    }
  }

  lemma HasMember(s: seq<Entry>, e: Entry)
    requires e in s
    ensures Has(s, e.id)
  {
    var i :| 0 <= i < |s| && s[i] == e;
  }

  lemma AdvanceMirrors(w: World, now: nat)
    requires Mirrors(w)
    ensures Mirrors(w.(ledger := Advance(w.ledger, now)))
  {
    var l, h := w.ledger, w.history;
    var a := Advance(l, now);
    RetainDistinct(l.entries, a.now);
    forall r | r in h ensures Sound(a.config, a.now, r) { assert Sound(l.config, l.now, r); }
    forall i | 0 <= i < |a.entries| ensures Mirrored(a, h, a.entries[i]) {
      assert a.entries[i] in l.entries;
      var j :| 0 <= j < |l.entries| && l.entries[j] == a.entries[i];
      assert Mirrored(l, h, l.entries[j]);
    }
    forall id | Calls(a, h, id)
      ensures Has(a.entries, id)
    {
      assert Calls(l, h, id);
      var j :| 0 <= j < |l.entries| && l.entries[j].id == id;
      assert Mirrored(l, h, l.entries[j]);
      assert l.entries[j] in a.entries;
      HasMember(a.entries, l.entries[j]);
    }
  }

  lemma CoveredShrinks(config: Config, r: Record, now: nat, later: nat)
    requires now <= later
    ensures CoveredOf(config, r, later) <= CoveredOf(config, r, now)
  {}

  lemma AdvanceRpm(w: World, now: nat)
    requires RpmBounded(w)
    ensures RpmBounded(Moved(w, now))
  {
    var l, a := w.ledger, Advance(w.ledger, now);
    if l.config.rpm.Known? {
      RetainShrinks(l.entries, a.now, RpmHeld);
      RetainShrinks(l.entries, a.now, RpmLive(a.now));
      SumAtMost(l.entries, Weight(RpmLive(a.now)), Weight(RpmLive(l.now)));
    }
  }

  lemma AdvanceTpm(w: World, now: nat)
    requires TpmBounded(w)
    ensures TpmBounded(Moved(w, now))
  {
    var l, h, a := w.ledger, w.history, Advance(w.ledger, now);
    forall r | r in h ensures CoveredAt(l.config, a.now)(r) <= CoveredAt(l.config, l.now)(r) {
      CoveredShrinks(l.config, r, l.now, a.now);
    }
    SumAtMost(h, CoveredAt(l.config, a.now), CoveredAt(l.config, l.now));
  }

  function Moved(w: World, now: nat): World { w.(ledger := Advance(w.ledger, now)) }

  lemma AdvanceKeeps(w: World, now: nat)
    requires Inv(w)
    ensures Inv(Moved(w, now))
  {
    forall c ensures Holds(c, Moved(w, now)) {
      assert Holds(c, w);
      match c
      case Mirroring => AdvanceMirrors(w, now);
      case SlotUse => RetainShrinks(w.ledger.entries, Advance(w.ledger, now).now, Active);
      case RequestUse => AdvanceRpm(w, now);
      case TokenUse => AdvanceTpm(w, now);
    }
  }

  /** A world after reserving `cost`: one more entry and one more record. */
  function Granted(w: World, cost: Cost): World {
    var l := w.ledger;
    World(l.(next := l.next + 1, entries := l.entries + [NewEntry(l.config, l.next + 1, cost)]),
          w.history + [Record(cost, None, Running)])
  }

  lemma ReserveMirrors(w: World, cost: Cost)
    requires Mirrors(w)
    ensures Mirrors(Granted(w, cost))
  {
    var l, h := w.ledger, w.history;
    var r := Record(cost, None, Running);
    var e := NewEntry(l.config, l.next + 1, cost);
    var l', h' := l.(next := l.next + 1, entries := l.entries + [e]), h + [r];
    forall i | 0 <= i < |l'.entries| ensures Mirrored(l', h', l'.entries[i]) {
      if i < |l.entries| { assert Mirrored(l, h, l.entries[i]); }
    }
    forall x | x in h' ensures Sound(l'.config, l'.now, x) {
      if x in h { assert Sound(l.config, l.now, x); }
    }
    forall id: nat | Calls(l', h', id)
      ensures Has(l'.entries, id)
    {
      if id <= |h| {
        assert Calls(l, h, id);
        var j :| 0 <= j < |l.entries| && l.entries[j].id == id;
        assert l'.entries[j].id == id;
      } else {
        assert l'.entries[|l.entries|].id == id;
      }
    }
  }

  lemma ReserveRpm(w: World, cost: Cost)
    requires RpmBounded(w) && Verdict(w.ledger, cost).None?
    ensures RpmBounded(Granted(w, cost))
  {
    var l, h, v := w.ledger, w.history, Granted(w, cost);
    var e, r := v.ledger.entries[|l.entries|], v.history[|h|];
    if l.config.rpm.Known? {
      SnocTotal(l.entries, e, RpmLive(l.now));
      SnocTotal(l.entries, e, RpmHeld);
      forall T: int ensures StartsUpTo(v.history, T) <= l.config.rpm.capacity {
        SumSnoc(h, r, StartsWithin(T - WINDOW, T));
        assert StartsUpTo(h, T) <= l.config.rpm.capacity;
      }
    }
  }

  lemma ReserveTpm(w: World, cost: Cost)
    requires Mirrors(w) && Verdict(w.ledger, cost).None?
    ensures TpmBounded(Granted(w, cost))
  {
    SumSnoc(w.history, Granted(w, cost).history[|w.history|], CoveredAt(w.ledger.config, w.ledger.now));
    CoveredWithinDebit(w);
  }

  lemma GrantKeeps(w: World, cost: Cost)
    requires Inv(w) && Verdict(w.ledger, cost).None?
    ensures Inv(Granted(w, cost))
  {
    var l := w.ledger;
    forall c ensures Holds(c, Granted(w, cost)) {
      assert Holds(c, w);
      match c
      case Mirroring => ReserveMirrors(w, cost);
      case SlotUse => SnocTotal(l.entries, NewEntry(l.config, l.next + 1, cost), Active);
      case RequestUse => ReserveRpm(w, cost);
      case TokenUse => assert Holds(Mirroring, w); ReserveTpm(w, cost);
    }
  }

  /** Reservation-covered tokens never exceed what the ledger counts. */
  lemma {:induction false} CoveredSplits(config: Config, h: seq<Record>, now: nat)
    ensures SumBy(h, CoveredAt(config, now))
         == HistoryTotal(config, h, TpmLive(now)) + HistoryTotal(config, h, TpmHeld) - Overshoot(config, h, now)
  {
    if h != [] {
      CoveredSplits(config, h[..|h| - 1], now);
    }
  }

  lemma CoveredWithinDebit(w: World)
    requires Mirrors(w)
    ensures SumBy(w.history, CoveredAt(w.ledger.config, w.ledger.now))
         <= Total(w.ledger.entries, TpmLive(w.ledger.now)) + Total(w.ledger.entries, TpmHeld)
  {
    var l, h := w.ledger, w.history;
    CoveredSplits(l.config, h, l.now);
    PrunedTotals(w, TpmLive(l.now));
    PrunedTotals(w, TpmHeld);
    SumNonNegative(h, OvershootAt(l.config, l.now));
  }

  /** An owned entry is its record's entry, and the only one with its id. */
  lemma OwnedRecord(w: World, i: nat)
    requires Mirrors(w) && i < |w.ledger.entries|
    ensures Mirrored(w.ledger, w.history, w.ledger.entries[i])
    ensures forall j :: 0 <= j < |w.ledger.entries| && w.ledger.entries[j].id == w.ledger.entries[i].id ==> j == i
  {}

  /** Replacing one record and its entry together keeps the mirror. */
  lemma ReplaceMirrors(w: World, i: nat, r: Record)
    requires Mirrors(w) && i < |w.ledger.entries|
    requires Sound(w.ledger.config, w.ledger.now, r) && !r.end.Cancelled?
    ensures var l := w.ledger; var id := l.entries[i].id;
      var e := EntryOf(l.config, id, r);
      1 <= id <= |w.history| && (Retained(e, l.now) ==>
        Mirrors(World(l.(entries := l.entries[i := e]), w.history[id - 1 := r])))
  {
    OwnedRecord(w, i);
    var l, h := w.ledger, w.history;
    var id := l.entries[i].id;
    var e := EntryOf(l.config, id, r);
    if Retained(e, l.now) {
      var l', h' := l.(entries := l.entries[i := e]), h[id - 1 := r];
      forall j | 0 <= j < |l'.entries| ensures Mirrored(l', h', l'.entries[j]) {
        assert Mirrored(l, h, l.entries[j]);
      }
      forall x | x in h' ensures Sound(l'.config, l'.now, x) {
        if x in h { assert Sound(l.config, l.now, x); }
      }
      forall k | Calls(l', h', k)
        ensures Has(l'.entries, k)
      {
        if k == id {
          assert l'.entries[i].id == k;
        } else {
          assert Calls(l, h, k);
          var j :| 0 <= j < |l.entries| && l.entries[j].id == k;
          assert l'.entries[j].id == k;
        }
      }
    }
  }

  /** What becomes of the world when entry `i` starts, is cancelled or finishes. */
  ghost function Launched(w: World, i: nat): World
    requires Mirrors(w) && i < |w.ledger.entries|
  {
    OwnedRecord(w, i);
    var l := w.ledger;
    var k := l.entries[i].id - 1;
    World(l.(entries := l.entries[i := Begin(l.config, l.now, l.entries[i])]),
          w.history[k := w.history[k].(startedAt := Some(l.now))])
  }

  ghost function Withdrawn(w: World, i: nat): World
    requires Mirrors(w) && i < |w.ledger.entries|
  {
    OwnedRecord(w, i);
    var k := w.ledger.entries[i].id - 1;
    World(w.ledger.(entries := SwapRemove(w.ledger.entries, i)), w.history[k := w.history[k].(end := Cancelled)])
  }

  ghost function Completed(w: World, i: nat, usage: Option<nat>): World
    requires Mirrors(w) && i < |w.ledger.entries|
  {
    var v := Settled(w, i, usage);
    v.(ledger := v.ledger.(entries := Retain(v.ledger.entries, v.ledger.now)))
  }

  lemma LaunchMirrors(w: World, i: nat)
    requires Mirrors(w) && i < |w.ledger.entries| && w.ledger.config.readyAt <= w.ledger.now
    requires w.ledger.entries[i].active && !w.ledger.entries[i].started
    ensures Mirrors(Launched(w, i))
  {
    OwnedRecord(w, i);
    var l, h := w.ledger, w.history;
    var e := l.entries[i];
    assert h[e.id - 1] in h;
    var r := h[e.id - 1].(startedAt := Some(l.now));
    assert Begin(l.config, l.now, e) == EntryOf(l.config, e.id, r);
    ReplaceMirrors(w, i, r);
  }

  lemma LaunchRpm(w: World, i: nat)
    requires Mirrors(w) && RpmBounded(w) && i < |w.ledger.entries|
    requires w.ledger.entries[i].active && !w.ledger.entries[i].started
    ensures RpmBounded(Launched(w, i))
  {
    OwnedRecord(w, i);
    var l, h := w.ledger, w.history;
    var e := l.entries[i];
    if l.config.rpm.Known? {
      DebitIsStarts(w);
      StartTimes(w);
      LaunchTotals(l, i);
      forall T: int ensures StartsUpTo(Launched(w, i).history, T) <= l.config.rpm.capacity {
        WindowAfterStart(h, e.id - 1, l.now, T, l.config.rpm.capacity);
      }
    }
  }

  lemma StartTimes(w: World)
    requires Mirrors(w)
    ensures forall r :: r in w.history && r.startedAt.Some? ==> r.startedAt.value <= w.ledger.now
  {}

  lemma LaunchTotals(l: State, i: nat)
    requires i < |l.entries| && l.entries[i].active && !l.entries[i].started && l.entries[i].rpmUntil.None?
    requires l.config.rpm.Known?
    ensures var s := l.entries[i := Begin(l.config, l.now, l.entries[i])];
      && Total(s, RpmLive(l.now)) == Total(l.entries, RpmLive(l.now)) + 1
      && Total(s, RpmHeld) == Total(l.entries, RpmHeld) - 1
  {
    UpdateTotal(l.entries, i, Begin(l.config, l.now, l.entries[i]), RpmLive(l.now));
    UpdateTotal(l.entries, i, Begin(l.config, l.now, l.entries[i]), RpmHeld);
    SumMember(l.entries, i, Weight(RpmHeld));
  }

  lemma LaunchTpm(w: World, i: nat)
    requires Mirrors(w) && TpmBounded(w) && i < |w.ledger.entries|
    requires w.ledger.entries[i].active && !w.ledger.entries[i].started
    ensures TpmBounded(Launched(w, i))
  {
    OwnedRecord(w, i);
    var l, h := w.ledger, w.history;
    var k := l.entries[i].id - 1;
    assert h[k] in h;
    SumUpdate(h, k, h[k].(startedAt := Some(l.now)), CoveredAt(l.config, l.now));
  }

  lemma LaunchKeeps(w: World, i: nat)
    requires Inv(w) && Mirrors(w) && i < |w.ledger.entries|
    requires w.ledger.entries[i].active && !w.ledger.entries[i].started
    ensures Inv(Launched(w, i))
  {
    var l := w.ledger;
    forall c ensures Holds(c, Launched(w, i)) {
      assert Holds(c, w);
      match c
      case Mirroring => ReadyOnce(w, i); LaunchMirrors(w, i);
      case SlotUse => UpdateTotal(l.entries, i, Begin(l.config, l.now, l.entries[i]), Active);
      case RequestUse => LaunchRpm(w, i);
      case TokenUse => LaunchTpm(w, i);
    }
  }

  /** Something has been admitted, so the startup hold is over. */
  lemma ReadyOnce(w: World, i: nat)
    requires Inv(w) && i < |w.ledger.entries|
    ensures w.ledger.config.readyAt <= w.ledger.now
  {
    assert Holds(SlotUse, w);
    assert Holds(Mirroring, w);
    OwnedRecord(w, i);
  }

  /** One more start now keeps every window within its bound. */
  lemma WindowAfterStart(h: seq<Record>, k: nat, now: nat, T: int, capacity: nat)
    requires k < |h| && h[k].startedAt.None?
    requires forall r :: r in h && r.startedAt.Some? ==> r.startedAt.value <= now
    requires StartsUpTo(h, T) <= capacity
    requires StartsUpTo(h, now) + 1 <= capacity
    ensures Starts(h[k := h[k].(startedAt := Some(now))], T - WINDOW, T) <= capacity
  {
    SumUpdate(h, k, h[k].(startedAt := Some(now)), StartsWithin(T - WINDOW, T));
    if T - WINDOW < now <= T {
      SumAtMost(h, StartsWithin(T - WINDOW, T), StartsWithin(now - WINDOW, now));
    }
  }

  /** Ending a record moves no start. */
  lemma EndKeepsWindows(h: seq<Record>, k: nat, r: Record, after: seq<Record>, capacity: nat)
    requires k < |h| && r == h[k].(end := r.end) && after == h[k := r]
    requires forall T: int :: StartsUpTo(h, T) <= capacity
    ensures forall T: int :: StartsUpTo(after, T) <= capacity
  {
    forall T: int ensures StartsUpTo(after, T) <= capacity {
      SumUpdate(h, k, r, StartsWithin(T - WINDOW, T));
      assert StartsUpTo(h, T) <= capacity;
    }
  }

  lemma WithdrawRpm(w: World, i: nat)
    requires Mirrors(w) && RpmBounded(w) && i < |w.ledger.entries|
    ensures RpmBounded(Withdrawn(w, i))
  {
    OwnedRecord(w, i);
    var l, h := w.ledger, w.history;
    var k := l.entries[i].id - 1;
    if l.config.rpm.Known? {
      SwapRemoveTotal(l.entries, i, RpmLive(l.now));
      SwapRemoveTotal(l.entries, i, RpmHeld);
      EndKeepsWindows(h, k, h[k].(end := Cancelled), Withdrawn(w, i).history, l.config.rpm.capacity);
    }
  }

  lemma WithdrawTpm(w: World, i: nat)
    requires Mirrors(w) && TpmBounded(w) && i < |w.ledger.entries|
    requires w.ledger.entries[i].active && !w.ledger.entries[i].started
    ensures TpmBounded(Withdrawn(w, i))
  {
    OwnedRecord(w, i);
    var l, h := w.ledger, w.history;
    var k := l.entries[i].id - 1;
    assert h[k] in h;
    SumUpdate(h, k, h[k].(end := Cancelled), CoveredAt(l.config, l.now));
  }

  lemma WithdrawKeeps(w: World, i: nat)
    requires Inv(w) && Mirrors(w) && i < |w.ledger.entries|
    requires w.ledger.entries[i].active && !w.ledger.entries[i].started
    ensures Inv(Withdrawn(w, i))
  {
    forall c ensures Holds(c, Withdrawn(w, i)) {
      assert Holds(c, w);
      match c
      case Mirroring => WithdrawMirrors(w, i);
      case SlotUse => SwapRemoveTotal(w.ledger.entries, i, Active);
      case RequestUse => WithdrawRpm(w, i);
      case TokenUse => WithdrawTpm(w, i);
    }
  }

  lemma WithdrawMirrors(w: World, i: nat)
    requires Mirrors(w) && i < |w.ledger.entries|
    requires w.ledger.entries[i].active && !w.ledger.entries[i].started
    ensures Mirrors(Withdrawn(w, i))
  {
    OwnedRecord(w, i);
    var l, h := w.ledger, w.history;
    var e := l.entries[i];
    var v := Withdrawn(w, i);
    var l', h' := v.ledger, v.history;
    assert h[e.id - 1] in h;
    forall j | 0 <= j < |l'.entries| ensures Mirrored(l', h', l'.entries[j]) {
      var k := if j == i then |l.entries| - 1 else j;
      OwnedRecord(w, k);
      assert l'.entries[j] == l.entries[k];
    }
    forall x | x in h' ensures Sound(l'.config, l'.now, x) {
      if x in h { assert Sound(l.config, l.now, x); }
    }
    forall id | Calls(l', h', id)
      ensures Has(l'.entries, id)
    {
      assert Calls(l, h, id);
      var j :| 0 <= j < |l.entries| && l.entries[j].id == id;
      assert l'.entries[if j == |l.entries| - 1 then i else j].id == id;
    }
  }

  /** Finishing, before the second prune. */
  lemma SettleIsRecorded(w: World, i: nat, usage: Option<nat>)
    requires Mirrors(w) && i < |w.ledger.entries|
    requires w.ledger.entries[i].active && w.ledger.entries[i].started
    ensures var l := w.ledger; var e := l.entries[i];
      && 1 <= e.id <= |w.history|
      && Settle(l.config, l.now, e, usage)
         == EntryOf(l.config, e.id, w.history[e.id - 1].(end := Finished(l.now, usage)))
  {
    OwnedRecord(w, i);
    assert w.history[w.ledger.entries[i].id - 1] in w.history;
  }

  lemma SettleCovers(config: Config, now: nat, r: Record, usage: Option<nat>)
    requires Sound(config, now, r) && r.end.Running? && r.startedAt.Some?
    ensures CoveredOf(config, r.(end := Finished(now, usage)), now) <= CoveredOf(config, r, now)
  {}

  lemma CompleteRpm(w: World, i: nat, usage: Option<nat>)
    requires Mirrors(w) && RpmBounded(w) && i < |w.ledger.entries|
    requires w.ledger.entries[i].active && w.ledger.entries[i].started
    ensures RpmBounded(Completed(w, i, usage))
  {
    OwnedRecord(w, i);
    var l, h := w.ledger, w.history;
    var k := l.entries[i].id - 1;
    CompleteTotals(l, i, usage);
    if l.config.rpm.Known? {
      EndKeepsWindows(h, k, h[k].(end := Finished(l.now, usage)), Completed(w, i, usage).history,
          l.config.rpm.capacity);
    }
  }

  lemma CompleteTpm(w: World, i: nat, usage: Option<nat>)
    requires Mirrors(w) && TpmBounded(w) && i < |w.ledger.entries|
    requires w.ledger.entries[i].active && w.ledger.entries[i].started
    ensures TpmBounded(Completed(w, i, usage))
  {
    OwnedRecord(w, i);
    var l, h := w.ledger, w.history;
    var k := l.entries[i].id - 1;
    assert h[k] in h;
    SettleCovers(l.config, l.now, h[k], usage);
    SumUpdate(h, k, h[k].(end := Finished(l.now, usage)), CoveredAt(l.config, l.now));
  }

  lemma CompleteTotals(l: State, i: nat, usage: Option<nat>)
    requires i < |l.entries| && l.entries[i].active && l.entries[i].started
    ensures var s := Retain(l.entries[i := Settle(l.config, l.now, l.entries[i], usage)], l.now);
      && |s| <= |l.entries|
      && Total(s, Active) <= Total(l.entries, Active)
      && Total(s, RpmLive(l.now)) <= Total(l.entries, RpmLive(l.now))
      && Total(s, RpmHeld) <= Total(l.entries, RpmHeld)
  {
    var f := Settle(l.config, l.now, l.entries[i], usage);
    var s := l.entries[i := f];
    UpdateTotal(l.entries, i, f, Active);
    UpdateTotal(l.entries, i, f, RpmLive(l.now));
    UpdateTotal(l.entries, i, f, RpmHeld);
    RetainShrinks(s, l.now, Active);
    RetainShrinks(s, l.now, RpmLive(l.now));
    RetainShrinks(s, l.now, RpmHeld);
  }

  /** The ledger and history right after an entry was settled, before the second prune. */
  ghost function Settled(w: World, i: nat, usage: Option<nat>): World
    requires Mirrors(w) && i < |w.ledger.entries|
  {
    OwnedRecord(w, i);
    var l := w.ledger;
    var id := l.entries[i].id;
    World(l.(entries := l.entries[i := Settle(l.config, l.now, l.entries[i], usage)]),
          w.history[id - 1 := w.history[id - 1].(end := Finished(l.now, usage))])
  }

  /** All that `Mirrors` says, except that entries nothing calls for may still be there. */
  ghost predicate Covers(w: World) {
    var l, h := w.ledger, w.history;
    && |h| == l.next
    && Distinct(l.entries)
    && (forall r :: r in h ==> Sound(l.config, l.now, r))
    && (forall i :: 0 <= i < |l.entries| ==> Written(l.config, h, l.entries[i]))
    && (forall id :: Calls(l, h, id) ==> Has(l.entries, id))
  }

  lemma SettledCovers(w: World, i: nat, usage: Option<nat>)
    requires Mirrors(w) && i < |w.ledger.entries|
    requires w.ledger.entries[i].active && w.ledger.entries[i].started
    ensures Covers(Settled(w, i, usage))
  {
    OwnedRecord(w, i);
    SettleIsRecorded(w, i, usage);
    var l, h := w.ledger, w.history;
    var e := l.entries[i];
    var v := Settled(w, i, usage);
    var s, h' := v.ledger.entries, v.history;
    assert h[e.id - 1] in h;
    assert Sound(l.config, l.now, h'[e.id - 1]);
    forall j | 0 <= j < |s| ensures Written(l.config, h', s[j]) { OwnedRecord(w, j); }
    forall x | x in h' ensures Sound(l.config, l.now, x) {
      if x in h { assert Sound(l.config, l.now, x); }
    }
    forall id | Calls(v.ledger, h', id) ensures Has(s, id) {
      if id == e.id {
        assert s[i].id == id;
      } else {
        assert Calls(l, h, id);
        var j :| 0 <= j < |l.entries| && l.entries[j].id == id;
        assert s[j].id == id;
      }
    }
  }

  lemma PruneMirrors(v: World)
    requires Covers(v)
    ensures Mirrors(v.(ledger := v.ledger.(entries := Retain(v.ledger.entries, v.ledger.now))))
  {
    var l, h, s := v.ledger, v.history, v.ledger.entries;
    var p := l.(entries := Retain(s, l.now));
    RetainDistinct(s, l.now);
    forall j | 0 <= j < |p.entries| ensures Mirrored(p, h, p.entries[j]) {
      assert p.entries[j] in s;
    }
    forall id | Calls(p, h, id) ensures Has(p.entries, id) {
      assert Calls(l, h, id);
      var j :| 0 <= j < |s| && s[j].id == id;
      assert Written(l.config, h, s[j]) && s[j] in s;
      HasMember(p.entries, s[j]);
    }
  }

  lemma CompletedKeeps(w: World, i: nat, usage: Option<nat>)
    requires Inv(w) && Mirrors(w) && i < |w.ledger.entries|
    requires w.ledger.entries[i].active && w.ledger.entries[i].started
    ensures Inv(Completed(w, i, usage))
  {
    forall c ensures Holds(c, Completed(w, i, usage)) {
      assert Holds(c, w);
      match c
      case Mirroring =>
        SettledCovers(w, i, usage);
        PruneMirrors(Settled(w, i, usage));
      case SlotUse => CompleteTotals(w.ledger, i, usage);
      case RequestUse => CompleteRpm(w, i, usage);
      case TokenUse => CompleteTpm(w, i, usage);
    }
  }

  lemma ReserveKeeps(w: World, now: nat, cost: Cost)
    requires Inv(w)
    ensures Inv(Step(w, Reserve(now, cost)))
  {
    AdvanceKeeps(w, now);
    ReserveMoved(w, now, cost);
    var a := Moved(w, now);
    if Verdict(a.ledger, cost).None? { GrantKeeps(a, cost); }
  }

  lemma CompleteKeeps(w: World, now: nat, id: nat, usage: Option<nat>)
    requires Inv(w)
    ensures Inv(Step(w, Complete(now, id, usage)))
  {
    AdvanceKeeps(w, now);
    var a := Moved(w, now);
    assert Holds(Mirroring, a);
    var i := Find(a.ledger.entries, id, true);
    if i.Some? {
      CompleteMoved(w, now, id, usage);
      CompletedKeeps(a, i.value, usage);
    }
  }

  lemma LaunchStepKeeps(w: World, now: nat, id: nat)
    requires Inv(w)
    ensures Inv(Step(w, Launch(now, id)))
  {
    AdvanceKeeps(w, now);
    var a := Moved(w, now);
    assert Holds(Mirroring, a);
    var i := Find(a.ledger.entries, id, false);
    if i.Some? {
      LaunchMoved(w, now, id);
      LaunchKeeps(a, i.value);
    }
  }

  lemma WithdrawStepKeeps(w: World, now: nat, id: nat)
    requires Inv(w)
    ensures Inv(Step(w, Withdraw(now, id)))
  {
    AdvanceKeeps(w, now);
    var a := Moved(w, now);
    assert Holds(Mirroring, a);
    var i := Find(a.ledger.entries, id, false);
    if i.Some? {
      WithdrawMoved(w, now, id);
      WithdrawKeeps(a, i.value);
    }
  }

  // What the steps do, spelled out on the ledger that has already moved its clock.

  lemma ReserveMoved(w: World, now: nat, cost: Cost)
    ensures var a := Moved(w, now);
      Step(w, Reserve(now, cost)) == if Verdict(a.ledger, cost).Some? then a else Granted(a, cost)
  {}

  lemma CompleteMoved(w: World, now: nat, id: nat, usage: Option<nat>)
    requires Mirrors(Moved(w, now)) && Find(Moved(w, now).ledger.entries, id, true).Some?
    ensures var a := Moved(w, now);
      Step(w, Complete(now, id, usage)) == Completed(a, Find(a.ledger.entries, id, true).value, usage)
  {
    OwnedRecord(Moved(w, now), Find(Moved(w, now).ledger.entries, id, true).value);
  }

  lemma LaunchMoved(w: World, now: nat, id: nat)
    requires Mirrors(Moved(w, now)) && Find(Moved(w, now).ledger.entries, id, false).Some?
    ensures var a := Moved(w, now); Step(w, Launch(now, id)) == Launched(a, Find(a.ledger.entries, id, false).value)
  {
    OwnedRecord(Moved(w, now), Find(Moved(w, now).ledger.entries, id, false).value);
  }

  lemma WithdrawMoved(w: World, now: nat, id: nat)
    requires Mirrors(Moved(w, now)) && Find(Moved(w, now).ledger.entries, id, false).Some?
    ensures var a := Moved(w, now); Step(w, Withdraw(now, id)) == Withdrawn(a, Find(a.ledger.entries, id, false).value)
  {
    OwnedRecord(Moved(w, now), Find(Moved(w, now).ledger.entries, id, false).value);
  }

  /** Every operation keeps the invariant, and none moves the clock back. */
  lemma StepKeeps(w: World, op: Op)
    requires Inv(w)
    ensures Inv(Step(w, op)) && Step(w, op).ledger.config == w.ledger.config
    ensures w.ledger.now <= Step(w, op).ledger.now
  {
    match op
    case Look(now) => AdvanceKeeps(w, now);
    case Reserve(now, cost) => ReserveKeeps(w, now, cost);
    case Launch(now, id) => LaunchStepKeeps(w, now, id);
    case Withdraw(now, id) => WithdrawStepKeeps(w, now, id);
    case Complete(now, id, usage) => CompleteKeeps(w, now, id, usage);
  }

  ghost predicate Initial(w: World) {
    && w.history == [] && w.ledger.entries == [] && w.ledger.next == 0
  }

  lemma InitialInv(w: World)
    requires Initial(w)
    ensures Inv(w)
  {
    forall c ensures Holds(c, w) {}
  }

  lemma {:induction false} RunKeeps(w: World, ops: seq<Op>)
    requires Initial(w)
    ensures Inv(Run(w, ops)) && Run(w, ops).ledger.config == w.ledger.config
  {
    if ops == [] {
      InitialInv(w);
    } else {
      RunKeeps(w, ops[..|ops| - 1]);
      StepKeeps(Run(w, ops[..|ops| - 1]), ops[|ops| - 1]);
    }
  }

  // ---------------------------------------------------------------- the theorems

  /** In every run, every window of sixty seconds holds at most `rpm` starts. */
  lemma RpmWindow(w: World, ops: seq<Op>, T: int)
    requires Initial(w) && w.ledger.config.rpm.Known?
    ensures StartsUpTo(Run(w, ops).history, T) <= w.ledger.config.rpm.capacity
  {
    RunKeeps(w, ops);
    assert Holds(RequestUse, Run(w, ops));
  }

  /** In every run, no request starts before the startup hold has passed. */
  lemma NoStartBeforeHold(w: World, ops: seq<Op>, i: nat)
    requires Initial(w) && i < |Run(w, ops).history|
    ensures var r := Run(w, ops).history[i]; r.startedAt.Some? ==> w.ledger.config.readyAt <= r.startedAt.value
  {
    RunKeeps(w, ops);
    assert Holds(Mirroring, Run(w, ops));
    assert Run(w, ops).history[i] in Run(w, ops).history;
  }

  /** In every run, the pruned ledger and the full history agree on every total. */
  lemma PruningIsInvisible(w: World, ops: seq<Op>)
    requires Initial(w)
    ensures var f := Run(w, ops); var l := f.ledger;
      && Total(l.entries, Active) == HistoryTotal(l.config, f.history, Active)
      && Total(l.entries, RpmHeld) == HistoryTotal(l.config, f.history, RpmHeld)
      && Total(l.entries, TpmHeld) == HistoryTotal(l.config, f.history, TpmHeld)
      && Total(l.entries, RpmLive(l.now)) == HistoryTotal(l.config, f.history, RpmLive(l.now))
      && Total(l.entries, TpmLive(l.now)) == HistoryTotal(l.config, f.history, TpmLive(l.now))
  {
    RunKeeps(w, ops);
    var f := Run(w, ops);
    assert Holds(Mirroring, f);
    PrunedTotals(f, Active);
    PrunedTotals(f, RpmHeld);
    PrunedTotals(f, TpmHeld);
    PrunedTotals(f, RpmLive(f.ledger.now));
    PrunedTotals(f, TpmLive(f.ledger.now));
  }

  /** In every run, debited plus held tokens exceed the limit only by recorded overshoot. */
  lemma TpmBound(w: World, ops: seq<Op>)
    requires Initial(w) && w.ledger.config.tpm.Known?
    ensures var f := Run(w, ops); var l := f.ledger;
      Total(l.entries, TpmLive(l.now)) + Total(l.entries, TpmHeld)
        <= w.ledger.config.tpm.capacity + Overshoot(l.config, f.history, l.now)
  {
    RunKeeps(w, ops);
    var f := Run(w, ops);
    assert Holds(Mirroring, f) && Holds(TokenUse, f);
    CoveredSplits(f.ledger.config, f.history, f.ledger.now);
    PrunedTotals(f, TpmLive(f.ledger.now));
    PrunedTotals(f, TpmHeld);
  }

  /** In every run, memory and execution slots stay within their fixed bounds. */
  lemma CapacityBound(w: World, ops: seq<Op>)
    requires Initial(w)
    ensures var l := Run(w, ops).ledger;
      |l.entries| <= MAX_ENTRIES && Total(l.entries, Active) <= l.config.concurrency && l.next <= U64_MAX
  {
    RunKeeps(w, ops);
    assert Holds(SlotUse, Run(w, ops));
  }
}
