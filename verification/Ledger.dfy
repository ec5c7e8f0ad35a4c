/** The quota ledger as an object that is updated in place, one lock holder at a time. */
module LedgerObject {
  import opened Prelude
  import opened Quota

  datatype Snapshot = Totals(rpmDebited: nat, tpmDebited: nat, tpmHeld: nat, active: nat, retained: nat)

  class Ledger {
    const config: Config
    var now: nat
    var next: nat
    var entries: seq<Entry>

    function Model(): State
      reads this
    {
      State(config, now, next, entries)
    }

    constructor (rpm: Limit, tpm: Limit, accounting: Accounting, concurrency: nat, now: nat, startupHold: nat)
      requires 1 <= concurrency <= 16
      ensures Model() == Fresh(rpm, tpm, accounting, concurrency, now, startupHold)
    {
      config := Config(rpm, tpm, accounting, concurrency,
                       if rpm.Known? || tpm.Known? then now + startupHold else now);
      this.now, next, entries := now, 0, [];
    }

    method Advance(at: nat)
      modifies this
      ensures Model() == Quota.Advance(old(Model()), at)
    {
      now := Max(now, at);
      var kept: seq<Entry> := [];
      for i := 0 to |entries|
        invariant entries == old(entries) && next == old(next) && now == Max(old(now), at)
        invariant kept == Retain(entries[..i], now)
      {
        assert entries[..i + 1][..i] == entries[..i];
        if Retained(entries[i], now) {
          kept := kept + [entries[i]];
        }
      }
      assert entries[..|entries|] == entries;
      entries := kept;
    }

    /** Adds up every total in one pass over the retained entries. */
    method Snapshot(at: nat) returns (s: Snapshot)
      modifies this
      ensures Model() == Quota.Advance(old(Model()), at)
      ensures s == Totals(
                     Total(entries, RpmLive(now)), Total(entries, TpmLive(now)), Total(entries, TpmHeld),
                     Total(entries, Active), |entries|)
    {
      Advance(at);
      var rpm, tpm, held, active := 0, 0, 0, 0;
      for i := 0 to |entries|
        invariant Model() == Quota.Advance(old(Model()), at)
        invariant rpm == Total(entries[..i], RpmLive(now))
        invariant tpm == Total(entries[..i], TpmLive(now))
        invariant held == Total(entries[..i], TpmHeld)
        invariant active == Total(entries[..i], Active)
      {
        var e := entries[i];
        assert entries[..i + 1] == entries[..i] + [e];
        SnocTotal(entries[..i], e, RpmLive(now));
        SnocTotal(entries[..i], e, TpmLive(now));
        SnocTotal(entries[..i], e, TpmHeld);
        SnocTotal(entries[..i], e, Active);
        if e.active { active := active + 1; }
        if Live(e.rpmUntil, now) { rpm := rpm + 1; }
        if Live(e.tpmUntil, now) { tpm := tpm + e.tokens; }
        if !e.started { held := held + e.tokens; }
      }
      assert entries[..|entries|] == entries;
      s := Totals(rpm, tpm, held, active, |entries|);
    }

    method HeldRequests() returns (n: nat)
      ensures n == Total(entries, RpmHeld)
    {
      n := 0;
      for i := 0 to |entries|
        invariant n == Total(entries[..i], RpmHeld)
      {
        assert entries[..i + 1] == entries[..i] + [entries[i]];
        SnocTotal(entries[..i], entries[i], RpmHeld);
        if !entries[i].started { n := n + 1; }
      }
      assert entries[..|entries|] == entries;
    }

    method Check(at: nat, cost: Cost) returns (refusal: Option<Refusal>)
      modifies this
      ensures (Model(), refusal) == Quota.Check(old(Model()), at, cost)
    {
      var s := Snapshot(at);
      if !TotalFits(config, cost) { return Some(EstimateExceedsBudget); }
      if now < config.readyAt { return Some(StartupHold); }
      if s.active >= config.concurrency { return Some(Concurrency); }
      var held := HeldRequests();
      if config.rpm.Known? && s.rpmDebited + held >= config.rpm.capacity { return Some(Rpm); }
      if config.tpm.Known? && s.tpmDebited + s.tpmHeld + Tokens(cost) > config.tpm.capacity { return Some(Tpm); }
      if |entries| >= MAX_ENTRIES { return Some(LedgerCapacity); }
      if next == U64_MAX { return Some(IdentityExhausted); }
      return None;
    }

    method NextWake() returns (wake: Option<nat>)
      ensures wake == Quota.NextWake(Model())
    {
      if now < config.readyAt { return Some(config.readyAt); }
      wake := None;
      for i := 0 to |entries|
        invariant wake == NextExpiry(entries[..i], now)
      {
        assert entries[..i + 1][..i] == entries[..i];
        wake := Earliest(wake, Earliest(Upcoming(entries[i].rpmUntil, now), Upcoming(entries[i].tpmUntil, now)));
      }
      assert entries[..|entries|] == entries;
    }

    /** One bounded scan that projects the ledger to its next expiry without moving the clock there. */
    method CanBackfill(at: nat, head: Cost, deadline: nat, candidate: Cost) returns (ok: bool)
      modifies this
      ensures Model() == if config.accounting == Reserved then Quota.Advance(old(Model()), at) else old(Model())
      ensures ok == BackfillAllowed(Quota.Advance(old(Model()), at), head, deadline, candidate)
    {
      if config.accounting != Reserved { return false; }
      var refusal := Check(at, candidate);
      if refusal.Some? { return false; }
      var wake := NextWake();
      if wake.None? { return false; }
      ok := ProjectTo(wake.value, head, deadline, candidate);
    }

    method ActiveCount() returns (n: nat)
      ensures n == Total(entries, Active)
    {
      n := 0;
      for i := 0 to |entries|
        invariant n == Total(entries[..i], Active)
      {
        assert entries[..i + 1] == entries[..i] + [entries[i]];
        SnocTotal(entries[..i], entries[i], Active);
        if entries[i].active { n := n + 1; }
      }
      assert entries[..|entries|] == entries;
    }

    method ProjectTo(at: nat, head: Cost, deadline: nat, candidate: Cost) returns (ok: bool)
      ensures ok == Projects(Model(), at, head, deadline, candidate)
    {
      var active := ActiveCount();
      if at >= deadline || at >= now + WINDOW || active + 2 > config.concurrency
         || |entries| + 2 > MAX_ENTRIES || next + 2 > U64_MAX {
        return false;
      }
      if config.tpm.Known? && Tokens(candidate) == 0 && !candidate.Metadata? { return false; }
      ok := Project(at, head, candidate);
    }

    method Project(at: nat, head: Cost, candidate: Cost) returns (ok: bool)
      ensures ok <==>
        (&& (config.tpm.Known? ==> forall e :: e in entries ==> NoRecharge(e, at))
         && (config.rpm.Known? ==> Total(entries, RpmAt(at)) + 2 <= config.rpm.capacity)
         && (config.tpm.Known? ==>
               Total(entries, TpmAt(at)) + Tokens(head) + Tokens(candidate) <= config.tpm.capacity))
    {
      var rpmAt, tpmAt := 0, 0;
      for i := 0 to |entries|
        invariant rpmAt == Total(entries[..i], RpmAt(at)) && tpmAt == Total(entries[..i], TpmAt(at))
        invariant config.tpm.Known? ==> forall j :: 0 <= j < i ==> NoRecharge(entries[j], at)
      {
        var e := entries[i];
        if config.tpm.Known? && e.active && !e.metadata
           && (if e.started then !Live(e.tpmUntil, at) else e.tokens == 0) {
          assert e in entries && !NoRecharge(e, at);
          return false;
        }
        assert entries[..i + 1] == entries[..i] + [e];
        SnocTotal(entries[..i], e, RpmAt(at));
        SnocTotal(entries[..i], e, TpmAt(at));
        if !e.started || Live(e.rpmUntil, at) { rpmAt := rpmAt + 1; }
        if !e.started || Live(e.tpmUntil, at) { tpmAt := tpmAt + e.tokens; }
      }
      assert entries[..|entries|] == entries;
      ok := (config.rpm.Known? ==> rpmAt + 2 <= config.rpm.capacity)
         && (config.tpm.Known? ==> tpmAt + Tokens(head) + Tokens(candidate) <= config.tpm.capacity);
    }

    method Admit(at: nat, cost: Cost) returns (decision: Decision)
      modifies this
      ensures (Model(), decision) == Quota.Admit(old(Model()), at, cost)
    {
      var refusal := Check(at, cost);
      match refusal {
        case Some(EstimateExceedsBudget) => return TooLarge;
        case Some(Concurrency) => return Wait(None);
        case Some(IdentityExhausted) => return Wait(None);
        case Some(_) =>
          var wake := NextWake();
          return Wait(wake);
        case None =>
      }
      next := next + 1;
      entries := entries + [NewEntry(config, next, cost)];
      return Admitted(next);
    }

    /** The position of the first entry that `id` owns in the given stage. */
    method Position(id: nat, started: bool) returns (index: Option<nat>)
      ensures index == Find(entries, id, started)
    {
      for i := 0 to |entries|
        invariant forall j :: 0 <= j < i ==> !Owned(entries[j], id, started)
      {
        if Owned(entries[i], id, started) { return Some(i); }
      }
      return None;
    }

    method Start(at: nat, id: nat) returns (ok: bool)
      modifies this
      ensures (Model(), ok) == Quota.Start(old(Model()), at, id)
    {
      Advance(at);
      var index := Position(id, false);
      if index.None? { return false; }
      entries := entries[index.value := Begin(config, now, entries[index.value])];
      return true;
    }

    method Cancel(at: nat, id: nat) returns (ok: bool)
      modifies this
      ensures (Model(), ok) == Quota.Cancel(old(Model()), at, id)
    {
      Advance(at);
      var index := Position(id, false);
      if index.None? { return false; }
      entries := SwapRemove(entries, index.value);
      return true;
    }

    method Finish(at: nat, id: nat, usage: Option<nat>) returns (ok: bool)
      modifies this
      ensures (Model(), ok) == Quota.Finish(old(Model()), at, id, usage)
    {
      Advance(at);
      var index := Position(id, true);
      if index.None? { return false; }
      var e := SettledEntry(entries[index.value], usage);
      entries := entries[index.value := e];
      Advance(at);
      return true;
    }

    method SettledEntry(entry: Entry, usage: Option<nat>) returns (e: Entry)
      ensures e == Settle(config, now, entry, usage)
    {
      e := entry.(active := false);
      if !e.metadata && config.tpm.Known? && usage.Some? {
        if Live(e.tpmUntil, now) {
          if config.accounting == Actual { e := e.(tokens := usage.value); }
        } else if 0 < usage.value {
          e := e.(tokens := usage.value, tpmUntil := Some(now + WINDOW));
        }
      }
    }

    method IsActiveGeneration(id: nat) returns (found: bool)
      ensures found == Quota.IsActiveGeneration(Model(), id)
    {
      for i := 0 to |entries|
        invariant forall j :: 0 <= j < i ==> !(entries[j].id == id && entries[j].active && !entries[j].metadata)
      {
        if entries[i].id == id && entries[i].active && !entries[i].metadata {
          assert entries[i] in Model().entries;
          return true;
        }
      }
      return false;
    }
  }
}
