/**
  The backfill projection is safe against every future.

  `BackfillAllowed` looks once at the present ledger.  The theorem here says that when it
  lets a candidate jump ahead of a protected head, nothing that the reservations already
  made can do before the projected opportunity - starting late, being cancelled, finishing
  with any reported usage, or being followed by further backfills that pass the same test -
  takes the opportunity away from the head.
 */
module Backfill {
  import opened Prelude
  import opened Quota
  import QuotaHistory

  datatype Act =
    | Look(now: nat)
    | Launch(now: nat, id: nat)
    | Withdraw(now: nat, id: nat)
    | Complete(now: nat, id: nat, usage: Option<nat>)
    | Backfill(now: nat, deadline: nat, candidate: Cost)

  function Perform(l: State, head: Cost, act: Act): State {
    match act
    case Look(now) => Advance(l, now)
    case Launch(now, id) => Start(l, now, id).0
    case Withdraw(now, id) => Cancel(l, now, id).0
    case Complete(now, id, usage) => Finish(l, now, id, usage).0
    case Backfill(now, deadline, candidate) =>
      if l.config.accounting != Reserved then l
      else
        var a := Advance(l, now);
        if BackfillAllowed(a, head, deadline, candidate) then Admit(a, now, candidate).0 else a
  }

  function PerformAll(l: State, head: Cost, acts: seq<Act>): State {
    if acts == [] then l else Perform(PerformAll(l, head, acts[..|acts| - 1]), head, acts[|acts| - 1])
  }

  /** Everything happens no later than `at`, and no admission waits until `at` itself. */
  predicate Before(acts: seq<Act>, at: nat) {
    forall i :: 0 <= i < |acts| ==> if acts[i].Backfill? then acts[i].now < at else acts[i].now <= at
  }

  predicate Shaped(s: seq<Entry>) {
    forall e :: e in s && !e.started ==> e.active && e.rpmUntil.None? && e.tpmUntil.None?
  }

  /** What the head is owed until its opportunity at `at`, promise by promise. */
  datatype Promise = Shape | Clock | Opportunity | Room | RequestRoom | TokenRoom

  predicate Kept(p: Promise, l: State, head: Cost, at: nat) {
    match p
    case Shape => Shaped(l.entries)
    case Clock => l.config.accounting == Reserved && l.config.readyAt <= l.now <= at < l.now + WINDOW
    case Opportunity => l.now < at ==> NextExpiry(l.entries, l.now) == Some(at)
    case Room =>
      Total(l.entries, Active) + 1 <= l.config.concurrency && |l.entries| + 1 <= MAX_ENTRIES && l.next + 1 <= U64_MAX
    case RequestRoom => l.config.rpm.Known? ==> Total(l.entries, RpmAt(at)) + 1 <= l.config.rpm.capacity
    case TokenRoom =>
      l.config.tpm.Known? ==>
        && (forall e :: e in l.entries ==> NoRecharge(e, at))
        && Total(l.entries, TpmAt(at)) + Tokens(head) <= l.config.tpm.capacity
  }

  predicate Protected(l: State, head: Cost, at: nat) { forall p :: Kept(p, l, head, at) }

  /** Any set of entries whose live expiries all lie at or after `at`, one of them at `at`. */
  lemma ExpiryIs(s: seq<Entry>, now: nat, at: nat)
    requires now < at
    requires exists e :: e in s && (e.rpmUntil == Some(at) || e.tpmUntil == Some(at))
    requires forall e :: e in s && Live(e.rpmUntil, now) ==> at <= e.rpmUntil.value
    requires forall e :: e in s && Live(e.tpmUntil, now) ==> at <= e.tpmUntil.value
    ensures NextExpiry(s, now) == Some(at)
  {
    NextExpiryIsEarliest(s, now);
  }

  lemma AdvanceKeepsExpiry(l: State, at: nat, now: nat)
    requires Advance(l, now).now < at && NextExpiry(l.entries, l.now) == Some(at)
    ensures NextExpiry(Advance(l, now).entries, Advance(l, now).now) == Some(at)
  {
    var a := Advance(l, now);
    NextExpiryIsEarliest(l.entries, l.now);
    var e :| e in l.entries && (e.rpmUntil == Some(at) || e.tpmUntil == Some(at));
    assert e in a.entries;
    ExpiryIs(a.entries, a.now, at);
  }

  lemma AdvanceProtects(l: State, head: Cost, at: nat, now: nat)
    requires Protected(l, head, at) && now <= at
    ensures Protected(Advance(l, now), head, at)
  {
    var a := Advance(l, now);
    forall p ensures Kept(p, a, head, at) {
      assert Kept(p, l, head, at);
      match p
      case Shape =>
      case Clock =>
      case Opportunity => if a.now < at { AdvanceKeepsExpiry(l, at, now); }
      case Room => RetainShrinks(l.entries, a.now, Active);
      case RequestRoom => RetainShrinks(l.entries, a.now, RpmAt(at));
      case TokenRoom => RetainShrinks(l.entries, a.now, TpmAt(at));
    }
  }

  /** Replacing an entry by one whose expiries are the old ones or lie past `at`. */
  lemma ReplaceKeepsExpiry(s: seq<Entry>, i: nat, f: Entry, now: nat, at: nat)
    requires i < |s| && now < at && NextExpiry(s, now) == Some(at)
    requires s[i].rpmUntil.None? && s[i].tpmUntil.None?
    requires f.rpmUntil.Some? ==> at < f.rpmUntil.value
    requires f.tpmUntil.Some? ==> at < f.tpmUntil.value
    ensures NextExpiry(s[i := f], now) == Some(at)
  {
    NextExpiryIsEarliest(s, now);
    var e :| e in s && (e.rpmUntil == Some(at) || e.tpmUntil == Some(at));
    var j :| 0 <= j < |s| && s[j] == e;
    assert s[i := f][j] == e;
    ExpiryIs(s[i := f], now, at);
  }

  lemma BeginProtects(l: State, head: Cost, at: nat, i: nat)
    requires Protected(l, head, at) && i < |l.entries| && !l.entries[i].started
    ensures Protected(l.(entries := l.entries[i := Begin(l.config, l.now, l.entries[i])]), head, at)
  {
    var e, f := l.entries[i], Begin(l.config, l.now, l.entries[i]);
    var m := l.(entries := l.entries[i := f]);
    assert Kept(Shape, l, head, at) && Kept(Clock, l, head, at) && e in l.entries;
    forall p ensures Kept(p, m, head, at) {
      assert Kept(p, l, head, at);
      match p
      case Shape =>
      case Clock =>
      case Opportunity => if l.now < at { ReplaceKeepsExpiry(l.entries, i, f, l.now, at); }
      case Room => UpdateTotal(l.entries, i, f, Active);
      case RequestRoom => UpdateTotal(l.entries, i, f, RpmAt(at));
      case TokenRoom => UpdateTotal(l.entries, i, f, TpmAt(at));
    }
  }

  lemma LaunchProtects(l: State, head: Cost, at: nat, now: nat, id: nat)
    requires Protected(l, head, at) && now <= at
    ensures Protected(Start(l, now, id).0, head, at)
  {
    AdvanceProtects(l, head, at, now);
    var a := Advance(l, now);
    var found := Find(a.entries, id, false);
    if found.Some? { BeginProtects(a, head, at, found.value); }
  }

  lemma WithdrawKeepsExpiry(s: seq<Entry>, i: nat, now: nat, at: nat)
    requires i < |s| && now < at && NextExpiry(s, now) == Some(at)
    requires s[i].rpmUntil.None? && s[i].tpmUntil.None?
    ensures NextExpiry(SwapRemove(s, i), now) == Some(at)
  {
    NextExpiryIsEarliest(s, now);
    var e :| e in s && (e.rpmUntil == Some(at) || e.tpmUntil == Some(at));
    var j :| 0 <= j < |s| && s[j] == e;
    var r := SwapRemove(s, i);
    assert r[if j == |s| - 1 then i else j] == e;
    assert forall x :: x in r ==> x in s;
    ExpiryIs(r, now, at);
  }

  lemma RemoveProtects(l: State, head: Cost, at: nat, i: nat)
    requires Protected(l, head, at) && i < |l.entries| && !l.entries[i].started
    ensures Protected(l.(entries := SwapRemove(l.entries, i)), head, at)
  {
    var m := l.(entries := SwapRemove(l.entries, i));
    assert Kept(Shape, l, head, at) && l.entries[i] in l.entries;
    assert forall x :: x in m.entries ==> x in l.entries;
    forall p ensures Kept(p, m, head, at) {
      assert Kept(p, l, head, at);
      match p
      case Shape =>
      case Clock =>
      case Opportunity => if l.now < at { WithdrawKeepsExpiry(l.entries, i, l.now, at); }
      case Room => SwapRemoveTotal(l.entries, i, Active);
      case RequestRoom => SwapRemoveTotal(l.entries, i, RpmAt(at));
      case TokenRoom => SwapRemoveTotal(l.entries, i, TpmAt(at));
    }
  }

  lemma WithdrawProtects(l: State, head: Cost, at: nat, now: nat, id: nat)
    requires Protected(l, head, at) && now <= at
    ensures Protected(Cancel(l, now, id).0, head, at)
  {
    AdvanceProtects(l, head, at, now);
    var a := Advance(l, now);
    var found := Find(a.entries, id, false);
    if found.Some? { RemoveProtects(a, head, at, found.value); }
  }

  /** Under the projection, a finish settles within its reservation: only `active` changes. */
  lemma FinishOnlyDeactivates(l: State, head: Cost, at: nat, i: nat, usage: Option<nat>)
    requires Protected(l, head, at) && i < |l.entries|
    requires l.entries[i].active && l.entries[i].started
    ensures Settle(l.config, l.now, l.entries[i], usage) == l.entries[i].(active := false)
  {
    assert Kept(Clock, l, head, at) && Kept(TokenRoom, l, head, at) && l.entries[i] in l.entries;
  }

  lemma DeactivateKeepsExpiry(s: seq<Entry>, i: nat, now: nat, at: nat)
    requires i < |s| && now < at && NextExpiry(s, now) == Some(at)
    ensures NextExpiry(s[i := s[i].(active := false)], now) == Some(at)
  {
    var t := s[i := s[i].(active := false)];
    NextExpiryIsEarliest(s, now);
    var x :| x in s && (x.rpmUntil == Some(at) || x.tpmUntil == Some(at));
    var j :| 0 <= j < |s| && s[j] == x;
    assert t[j] in t && t[j].rpmUntil == x.rpmUntil && t[j].tpmUntil == x.tpmUntil;
    assert s[i] in s;
    ExpiryIs(t, now, at);
  }

  lemma DeactivateProtects(l: State, head: Cost, at: nat, i: nat)
    requires Protected(l, head, at) && i < |l.entries|
    requires l.entries[i].active && l.entries[i].started
    ensures Protected(l.(entries := l.entries[i := l.entries[i].(active := false)]), head, at)
  {
    var f := l.entries[i].(active := false);
    var m := l.(entries := l.entries[i := f]);
    forall p ensures Kept(p, m, head, at) {
      assert Kept(p, l, head, at);
      match p
      case Shape =>
      case Clock =>
      case Opportunity => if l.now < at { DeactivateKeepsExpiry(l.entries, i, l.now, at); }
      case Room => UpdateTotal(l.entries, i, f, Active);
      case RequestRoom => UpdateTotal(l.entries, i, f, RpmAt(at));
      case TokenRoom => UpdateTotal(l.entries, i, f, TpmAt(at));
    }
  }

  lemma CompleteProtects(l: State, head: Cost, at: nat, now: nat, id: nat, usage: Option<nat>)
    requires Protected(l, head, at) && now <= at
    ensures Protected(Finish(l, now, id, usage).0, head, at)
  {
    AdvanceProtects(l, head, at, now);
    var a := Advance(l, now);
    var found := Find(a.entries, id, true);
    if found.Some? {
      var i := found.value;
      FinishOnlyDeactivates(a, head, at, i, usage);
      DeactivateProtects(a, head, at, i);
      AdvanceProtects(a.(entries := a.entries[i := a.entries[i].(active := false)]), head, at, now);
    }
  }

  /** Admitting a candidate that passed the test leaves the head its opportunity. */
  lemma AdmissionProtects(l: State, head: Cost, deadline: nat, candidate: Cost, at: nat)
    requires Shaped(l.entries) && BackfillAllowed(l, head, deadline, candidate) && NextWake(l) == Some(at)
    ensures Protected(Granted(l, candidate), head, at)
  {
    var e := NewEntry(l.config, l.next + 1, candidate);
    forall p ensures Kept(p, Granted(l, candidate), head, at) {
      match p
      case Shape =>
      case Clock => NextExpiryIsEarliest(l.entries, l.now);
      case Opportunity =>
        NextExpiryIsEarliest(l.entries, l.now);
        NewKeepsExpiry(l.entries, e, l.now, at);
      case Room => SnocTotal(l.entries, e, Active);
      case RequestRoom => NewRequestRoom(l, head, candidate, at);
      case TokenRoom => NewTokenRoom(l, head, candidate, at);
    }
  }

  lemma NewRequestRoom(l: State, head: Cost, candidate: Cost, at: nat)
    requires l.config.rpm.Known? ==> Total(l.entries, RpmAt(at)) + 2 <= l.config.rpm.capacity
    ensures Kept(RequestRoom, Granted(l, candidate), head, at)
  {
    SnocTotal(l.entries, NewEntry(l.config, l.next + 1, candidate), RpmAt(at));
  }

  lemma NewTokenRoom(l: State, head: Cost, candidate: Cost, at: nat)
    requires l.config.tpm.Known? ==>
      && (Tokens(candidate) == 0 ==> candidate.Metadata?)
      && (forall e :: e in l.entries ==> NoRecharge(e, at))
      && Total(l.entries, TpmAt(at)) + Tokens(head) + Tokens(candidate) <= l.config.tpm.capacity
    ensures Kept(TokenRoom, Granted(l, candidate), head, at)
  {
    SnocTotal(l.entries, NewEntry(l.config, l.next + 1, candidate), TpmAt(at));
  }

  lemma NewKeepsExpiry(s: seq<Entry>, e: Entry, now: nat, at: nat)
    requires now < at && NextExpiry(s, now) == Some(at) && e.rpmUntil.None? && e.tpmUntil.None?
    ensures NextExpiry(s + [e], now) == Some(at)
  {
    NextExpiryIsEarliest(s, now);
    var x :| x in s && (x.rpmUntil == Some(at) || x.tpmUntil == Some(at));
    assert x in s + [e];
    ExpiryIs(s + [e], now, at);
  }

  lemma BackfillProtects(l: State, head: Cost, at: nat, act: Act)
    requires Protected(l, head, at) && act.Backfill? && act.now < at && l.now < at
    ensures Protected(Perform(l, head, act), head, at)
  {
    AdvanceProtects(l, head, at, act.now);
    var a := Advance(l, act.now);
    assert Kept(Shape, a, head, at) && Kept(Clock, a, head, at) && Kept(Opportunity, a, head, at);
    if BackfillAllowed(a, head, act.deadline, act.candidate) {
      AdmissionProtects(a, head, act.deadline, act.candidate, at);
      AdmitGrants(l, act.now, act.candidate);
    }
  }

  /** On a protected ledger, whatever passes the test keeps the protection. */
  lemma BackfillGrants(l: State, head: Cost, deadline: nat, candidate: Cost, at: nat)
    requires Protected(l, head, at) && l.now < at && BackfillAllowed(l, head, deadline, candidate)
    ensures Protected(Granted(l, candidate), head, at)
  {
    assert Kept(Shape, l, head, at) && Kept(Clock, l, head, at) && Kept(Opportunity, l, head, at);
    AdmissionProtects(l, head, deadline, candidate, at);
  }

  /** Backfills stop once the clock has reached `at`: the head itself is then served. */
  predicate Timely(l: State, head: Cost, acts: seq<Act>, at: nat) {
    && Before(acts, at)
    && forall i :: 0 <= i < |acts| && acts[i].Backfill? ==> PerformAll(l, head, acts[..i]).now < at
  }

  lemma {:induction false} ActsProtect(l: State, head: Cost, at: nat, acts: seq<Act>)
    requires Protected(l, head, at) && Timely(l, head, acts, at)
    ensures Protected(PerformAll(l, head, acts), head, at)
  {
    if acts != [] {
      var n := |acts| - 1;
      var rest, act := acts[..n], acts[n];
      forall i | 0 <= i < |rest| && rest[i].Backfill? ensures PerformAll(l, head, rest[..i]).now < at {
        assert rest[i] == acts[i] && rest[..i] == acts[..i];
      }
      ActsProtect(l, head, at, rest);
      var m := PerformAll(l, head, rest);
      match act
      case Look(now) => AdvanceProtects(m, head, at, now);
      case Launch(now, id) => LaunchProtects(m, head, at, now, id);
      case Withdraw(now, id) => WithdrawProtects(m, head, at, now, id);
      case Complete(now, id, usage) => CompleteProtects(m, head, at, now, id, usage);
      case Backfill(_, _, _) => BackfillProtects(m, head, at, act);
    }
  }

  /** Held and live requests together are the requests that count at `t`. */
  lemma {:induction false} AtSplits(s: seq<Entry>, t: nat)
    requires Shaped(s)
    ensures Total(s, RpmAt(t)) == Total(s, RpmHeld) + Total(s, RpmLive(t))
    ensures Total(s, TpmAt(t)) == Total(s, TpmHeld) + Total(s, TpmLive(t))
  {
    if s != [] {
      assert s[|s| - 1] in s;
      AtSplits(s[..|s| - 1], t);
    }
  }

  lemma ProtectedHeadFits(l: State, head: Cost, at: nat)
    requires Protected(l, head, at)
    ensures Check(l, at, head).1.None?
  {
    AdvanceProtects(l, head, at, at);
    var a := Advance(l, at);
    assert Kept(Shape, a, head, at) && Kept(Clock, a, head, at) && Kept(Room, a, head, at);
    assert Kept(RequestRoom, a, head, at) && Kept(TokenRoom, a, head, at);
    AtSplits(a.entries, at);
  }

  lemma LaterWeighsLess(s: seq<Entry>, at: nat, t: nat)
    requires at <= t
    ensures Total(s, RpmAt(t)) <= Total(s, RpmAt(at)) && Total(s, TpmAt(t)) <= Total(s, TpmAt(at))
  {
    SumAtMost(s, Weight(RpmAt(t)), Weight(RpmAt(at)));
    SumAtMost(s, Weight(TpmAt(t)), Weight(TpmAt(at)));
  }

  /** If nothing happens in between, the head fits at any later time too. */
  lemma ProtectedHeadFitsLater(l: State, head: Cost, at: nat, t: nat)
    requires Protected(l, head, at) && at <= t
    ensures Check(l, t, head).1.None?
  {
    var a := Advance(l, t);
    assert Kept(Shape, l, head, at) && Kept(Clock, l, head, at) && Kept(Room, l, head, at);
    assert Kept(RequestRoom, l, head, at) && Kept(TokenRoom, l, head, at);
    RetainShrinks(l.entries, t, Active);
    LaterTotals(l, at, t);
    RoomPasses(a, head, Total(l.entries, RpmAt(at)), Total(l.entries, TpmAt(at)));
  }

  /** A ready ledger with a slot, a place and room in both windows refuses nothing. */
  lemma RoomPasses(a: State, head: Cost, requests: nat, tokens: nat)
    requires a.config.readyAt <= a.now && Total(a.entries, Active) < a.config.concurrency
    requires |a.entries| < MAX_ENTRIES && a.next < U64_MAX
    requires Total(a.entries, RpmHeld) + Total(a.entries, RpmLive(a.now)) <= requests
    requires Total(a.entries, TpmHeld) + Total(a.entries, TpmLive(a.now)) <= tokens
    requires a.config.rpm.Known? ==> requests + 1 <= a.config.rpm.capacity
    requires a.config.tpm.Known? ==> tokens + Tokens(head) <= a.config.tpm.capacity
    ensures Verdict(a, head).None?
  {}

  /** What the ledger will count at `t` is no more than the projection counted for `at`. */
  lemma LaterTotals(l: State, at: nat, t: nat)
    requires Shaped(l.entries) && l.now <= at <= t
    ensures var s := Advance(l, t).entries;
      && Total(s, RpmHeld) + Total(s, RpmLive(t)) <= Total(l.entries, RpmAt(at))
      && Total(s, TpmHeld) + Total(s, TpmLive(t)) <= Total(l.entries, TpmAt(at))
  {
    var s := Advance(l, t).entries;
    RetainShrinks(l.entries, t, RpmAt(at));
    RetainShrinks(l.entries, t, TpmAt(at));
    LaterWeighsLess(s, at, t);
    AtSplits(s, t);
  }

  lemma ReachableIsShaped(w: QuotaHistory.World, ops: seq<QuotaHistory.Op>)
    requires QuotaHistory.Initial(w)
    ensures Shaped(QuotaHistory.Run(w, ops).ledger.entries)
  {
    QuotaHistory.RunKeeps(w, ops);
    var f := QuotaHistory.Run(w, ops);
    assert QuotaHistory.Holds(QuotaHistory.Mirroring, f);
    MirrorsAreShaped(f);
  }

  lemma MirrorsAreShaped(f: QuotaHistory.World)
    requires QuotaHistory.Mirrors(f)
    ensures Shaped(f.ledger.entries)
  {
    forall e | e in f.ledger.entries && !e.started ensures e.active && e.rpmUntil.None? && e.tpmUntil.None? {
      var i :| 0 <= i < |f.ledger.entries| && f.ledger.entries[i] == e;
      QuotaHistory.OwnedRecord(f, i);
      assert f.history[e.id - 1] in f.history;
    }
  }

  /** The theorem for one ledger that already stands at the time of the test. */
  lemma SafeFrom(l: State, head: Cost, deadline: nat, candidate: Cost, acts: seq<Act>)
    requires Shaped(l.entries) && BackfillAllowed(l, head, deadline, candidate)
    requires Timely(Granted(l, candidate), head, acts, NextWake(l).value)
    ensures Check(PerformAll(Granted(l, candidate), head, acts), NextWake(l).value, head).1.None?
  {
    var at := NextWake(l).value;
    AdmissionProtects(l, head, deadline, candidate, at);
    ActsProtect(Granted(l, candidate), head, at, acts);
    ProtectedHeadFits(PerformAll(Granted(l, candidate), head, acts), head, at);
  }

  /** The ledger after a passed test has reserved `candidate`. */
  function Granted(l: State, candidate: Cost): State {
    l.(next := l.next + 1, entries := l.entries + [NewEntry(l.config, l.next + 1, candidate)])
  }

  lemma AdmitGrants(r: State, now: nat, candidate: Cost)
    requires Verdict(Advance(r, now), candidate).None?
    ensures Admit(Advance(r, now), now, candidate).0 == Granted(Advance(r, now), candidate)
  {
    AdvanceTwice(r, now);
  }

  /**
    Backfill safety: from every reachable ledger, after admitting a candidate that passed the
    test, whatever happens up to the projected time, the protected head fits at that time,
    which is before its deadline.
   */
  lemma BackfillIsSafe(w: QuotaHistory.World, ops: seq<QuotaHistory.Op>, now: nat,
                       head: Cost, deadline: nat, candidate: Cost, acts: seq<Act>)
    requires QuotaHistory.Initial(w)
    requires var l := Advance(QuotaHistory.Run(w, ops).ledger, now);
      && BackfillAllowed(l, head, deadline, candidate)
      && Timely(Admit(l, now, candidate).0, head, acts, NextWake(l).value)
    ensures var l := Advance(QuotaHistory.Run(w, ops).ledger, now); var at := NextWake(l).value;
      && at < deadline
      && Check(PerformAll(Admit(l, now, candidate).0, head, acts), at, head).1.None?
  {
    var r := QuotaHistory.Run(w, ops).ledger;
    ReachableIsShaped(w, ops);
    AdmitGrants(r, now, candidate);
    SafeFrom(Advance(r, now), head, deadline, candidate, acts);
  }

  // ---------------------------------------------------------------- the test passes where it matters

  const SPENT: Entry := Entry(1, false, true, false, 6, None, Some(WINDOW))

  /** Ten tokens a minute and nothing admitted yet. */
  const OPENING: QuotaHistory.World := QuotaHistory.World(Fresh(Unknown, Known(10), Reserved, 4, 0, 0), [])

  /** A request for six tokens came, ran and went. */
  const SPENDING: seq<QuotaHistory.Op> :=
    [] + [QuotaHistory.Reserve(0, ExactFixture(6))] + [QuotaHistory.Launch(0, 1)] + [QuotaHistory.Complete(0, 1, None)]

  /** Six of ten tokens are debited until the end of the window, and nothing runs. */
  const TIGHT: State := State(Config(Unknown, Known(10), Reserved, 4, 0), 1, 1, [SPENT])

  lemma SpentTotals(m: Measure)
    ensures Total([SPENT], m) == Weigh(m, SPENT)
  {
    SumSnoc([], SPENT, Weight(m));
    assert [] + [SPENT] == [SPENT];
  }

  function Holding(now: nat, e: Entry): State { State(TIGHT.config, now, 1, [e]) }

  lemma OneRetained(e: Entry, now: nat)
    ensures Retain([e], now) == if Retained(e, now) then [e] else []
  {
    assert [e][..0] == [];
  }

  lemma OneFound(e: Entry, id: nat, started: bool)
    ensures Find([e], id, started) == if Owned(e, id, started) then Some(0) else None
  {
    assert [e][..0] == [];
  }

  lemma SixAdmitted()
    ensures Admit(OPENING.ledger, 0, ExactFixture(6)).0 == Holding(0, NewEntry(TIGHT.config, 1, ExactFixture(6)))
  {
    var e := NewEntry(TIGHT.config, 1, ExactFixture(6));
    assert Total([], Active) == 0 && Total([], TpmLive(0)) == 0 && Total([], TpmHeld) == 0;
    assert [] + [e] == [e];
  }

  lemma SixStarted()
    ensures Start(Holding(0, NewEntry(TIGHT.config, 1, ExactFixture(6))), 0, 1).0 == Holding(0, SPENT.(active := true))
  {
    var e := NewEntry(TIGHT.config, 1, ExactFixture(6));
    OneRetained(e, 0);
    OneFound(e, 1, false);
    assert [e][0 := SPENT.(active := true)] == [SPENT.(active := true)];
  }

  lemma SixFinished()
    ensures Finish(Holding(0, SPENT.(active := true)), 0, 1, None).0 == Holding(0, SPENT)
  {
    var e := SPENT.(active := true);
    OneRetained(e, 0);
    OneRetained(SPENT, 0);
    OneFound(e, 1, true);
    assert [e][0 := SPENT] == [SPENT];
  }

  lemma ThreeOps(l: State, a: QuotaHistory.Op, b: QuotaHistory.Op, c: QuotaHistory.Op, x: State, y: State, z: State)
    requires QuotaHistory.LedgerStep(l, a) == x && QuotaHistory.LedgerStep(x, b) == y
    requires QuotaHistory.LedgerStep(y, c) == z
    ensures QuotaHistory.LedgerRun(l, [] + [a] + [b] + [c]) == z
  {
    QuotaHistory.LedgerSnoc(l, [], a);
    QuotaHistory.LedgerSnoc(l, [] + [a], b);
    QuotaHistory.LedgerSnoc(l, [] + [a] + [b], c);
  }

  lemma SpendingRun()
    ensures QuotaHistory.LedgerRun(OPENING.ledger, SPENDING) == Holding(0, SPENT)
  {
    SixAdmitted();
    SixStarted();
    SixFinished();
    ThreeOps(OPENING.ledger, QuotaHistory.Reserve(0, ExactFixture(6)), QuotaHistory.Launch(0, 1),
             QuotaHistory.Complete(0, 1, None), Holding(0, NewEntry(TIGHT.config, 1, ExactFixture(6))),
             Holding(0, SPENT.(active := true)), Holding(0, SPENT));
  }

  /** The tight ledger is reached by a run. */
  lemma TightIsReached()
    ensures QuotaHistory.Initial(OPENING) && Advance(QuotaHistory.Run(OPENING, SPENDING).ledger, 1) == TIGHT
  {
    SpendingRun();
    QuotaHistory.RunLedger(OPENING, SPENDING);
    OneRetained(SPENT, 1);
  }

  /** A head that does not fit now, and a smaller request that may go ahead of it. */
  lemma BackfillHappens()
    ensures QuotaHistory.Initial(OPENING) && Advance(QuotaHistory.Run(OPENING, SPENDING).ledger, 1) == TIGHT
    ensures Check(TIGHT, 1, ExactFixture(8)).1 == Some(Tpm)
    ensures NextWake(TIGHT) == Some(WINDOW)
    ensures BackfillAllowed(TIGHT, ExactFixture(8), WINDOW + 1, ExactFixture(2))
  {
    TightIsReached();
    TightAllows();
  }

  lemma TightAllows()
    ensures Check(TIGHT, 1, ExactFixture(8)).1 == Some(Tpm)
    ensures NextWake(TIGHT) == Some(WINDOW)
    ensures BackfillAllowed(TIGHT, ExactFixture(8), WINDOW + 1, ExactFixture(2))
  {
    RetainAll([SPENT], 1);
    SpentTotals(Active);
    SpentTotals(TpmLive(1));
    SpentTotals(TpmHeld);
    SpentTotals(TpmAt(WINDOW));
    assert [SPENT][..0] == [];
    assert NextExpiry([SPENT], 1) == Some(WINDOW);
  }
}
