/** Which reservations are active in a ledger, and how each operation moves them. */
module LedgerStages {
  import opened Prelude
  import opened Quota
  import opened QuotaHistory

  /** An active reservation is held or started, and counts as metadata or as generation. */
  datatype Stage = Stage(started: bool, metadata: bool)

  function StageOf(s: seq<Entry>, id: nat): Option<Stage> {
    if s == [] then None
    else
      var e := s[|s| - 1];
      if e.id == id && e.active then Some(Stage(e.started, e.metadata)) else StageOf(s[..|s| - 1], id)
  }

  predicate Wellformed(l: State) {
    && Distinct(l.entries)
    && (forall i :: 0 <= i < |l.entries| ==>
        0 < l.entries[i].id <= l.next && (l.entries[i].started || l.entries[i].active))
  }

  function EntryStage(e: Entry): Option<Stage> { if e.active then Some(Stage(e.started, e.metadata)) else None }

  lemma {:induction false} StageAbsent(s: seq<Entry>, id: nat)
    requires forall i :: 0 <= i < |s| ==> s[i].id != id
    ensures StageOf(s, id).None?
  {
    if s != [] { StageAbsent(s[..|s| - 1], id); }
  }

  lemma {:induction false} StageAt(s: seq<Entry>, i: nat)
    requires Distinct(s) && i < |s|
    ensures StageOf(s, s[i].id) == EntryStage(s[i])
  {
    var n := |s| - 1;
    if i < n {
      StageAt(s[..n], i);
    } else {
      StageAbsent(s[..n], s[i].id);
    }
  }

  /** An active reservation is one of the entries. */
  lemma {:induction false} StageSource(s: seq<Entry>, id: nat) returns (i: nat)
    requires StageOf(s, id).Some?
    ensures i < |s| && s[i].id == id && EntryStage(s[i]) == StageOf(s, id)
  {
    var n := |s| - 1;
    if s[n].id == id && s[n].active { i := n; } else { i := StageSource(s[..n], id); }
  }

  lemma AdvanceStages(l: State, now: nat)
    requires Wellformed(l)
    ensures Wellformed(Advance(l, now))
    ensures forall id :: StageOf(Advance(l, now).entries, id) == StageOf(l.entries, id)
  {
    var a := Advance(l, now);
    RetainDistinct(l.entries, a.now);
    forall i | 0 <= i < |a.entries|
      ensures 0 < a.entries[i].id <= a.next && (a.entries[i].started || a.entries[i].active)
    {
      assert a.entries[i] in l.entries;
    }
    forall id ensures StageOf(a.entries, id) == StageOf(l.entries, id) {
      RetainStage(l.entries, a.now, id);
    }
  }

  lemma {:induction false} RetainStage(s: seq<Entry>, now: nat, id: nat)
    ensures StageOf(Retain(s, now), id) == StageOf(s, id)
  {
    if s != [] {
      var init, e := s[..|s| - 1], s[|s| - 1];
      RetainStage(init, now, id);
      assert Retained(e, now) ==> Retain(s, now)[..|Retain(init, now)|] == Retain(init, now);
    }
  }

  lemma AppendStages(s: seq<Entry>, e: Entry)
    ensures forall id :: StageOf(s + [e], id) == if id == e.id && e.active then EntryStage(e) else StageOf(s, id)
  {
    assert (s + [e])[..|s|] == s;
  }

  lemma UpdateStages(s: seq<Entry>, i: nat, f: Entry)
    requires Distinct(s) && i < |s| && f.id == s[i].id
    ensures Distinct(s[i := f])
    ensures forall id :: StageOf(s[i := f], id) == if id == f.id then EntryStage(f) else StageOf(s, id)
  {
    var t := s[i := f];
    forall id ensures StageOf(t, id) == if id == f.id then EntryStage(f) else StageOf(s, id) {
      UpdateStage(s, i, f, id);
    }
  }

  lemma UpdateStage(s: seq<Entry>, i: nat, f: Entry, id: nat)
    requires Distinct(s) && i < |s| && f.id == s[i].id
    ensures StageOf(s[i := f], id) == if id == f.id then EntryStage(f) else StageOf(s, id)
  {
    var t := s[i := f];
    if j :| 0 <= j < |s| && s[j].id == id {
      StageAt(s, j);
      StageAt(t, j);
    } else {
      StageAbsent(s, id);
      StageAbsent(t, id);
    }
  }

  lemma SwapRemoveStages(s: seq<Entry>, i: nat)
    requires Distinct(s) && i < |s|
    ensures Distinct(SwapRemove(s, i))
    ensures forall id :: StageOf(SwapRemove(s, i), id) == if id == s[i].id then None else StageOf(s, id)
  {
    var t := SwapRemove(s, i);
    SwapRemoveDistinct(s, i);
    forall id ensures StageOf(t, id) == if id == s[i].id then None else StageOf(s, id) {
      SwapRemoveStage(s, i, id);
    }
  }

  lemma SwapRemoveDistinct(s: seq<Entry>, i: nat)
    requires Distinct(s) && i < |s|
    ensures Distinct(SwapRemove(s, i))
  {
    var t := SwapRemove(s, i);
    assert forall j :: 0 <= j < |t| ==> t[j] == s[if j == i then |s| - 1 else j];
  }

  lemma SwapRemoveStage(s: seq<Entry>, i: nat, id: nat)
    requires Distinct(s) && i < |s| && Distinct(SwapRemove(s, i))
    ensures StageOf(SwapRemove(s, i), id) == if id == s[i].id then None else StageOf(s, id)
  {
    var t := SwapRemove(s, i);
    assert forall j :: 0 <= j < |t| ==> t[j] == s[if j == i then |s| - 1 else j];
    if id == s[i].id {
      StageAbsent(t, id);
    } else if j :| 0 <= j < |s| && s[j].id == id {
      StageAt(s, j);
      StageAt(t, if j == |s| - 1 then i else j);
    } else {
      StageAbsent(s, id);
      StageAbsent(t, id);
    }
  }

  /** A search succeeds exactly for an active reservation in that stage. */
  lemma FindStage(s: seq<Entry>, id: nat, started: bool)
    requires Distinct(s)
    ensures Find(s, id, started).Some? <==> StageOf(s, id).Some? && StageOf(s, id).value.started == started
  {
    var found := Find(s, id, started);
    if found.Some? {
      StageAt(s, found.value);
    } else if StageOf(s, id).Some? {
      var i := StageSource(s, id);
      assert !Owned(s[i], id, started);
    }
  }

  predicate Admits(l: State, now: nat, cost: Cost) { Check(l, now, cost).1.None? }

  lemma AdmitStages(l: State, now: nat, cost: Cost)
    requires Wellformed(l) && Admits(l, now, cost)
    ensures var (m, d) := Admit(l, now, cost);
      && Wellformed(m) && d == Admitted(l.next + 1) && StageOf(l.entries, l.next + 1).None?
      && forall id :: StageOf(m.entries, id) ==
           if id == l.next + 1 then Some(Stage(false, cost.Metadata?)) else StageOf(l.entries, id)
  {
    AdvanceStages(l, now);
    StageAbsent(l.entries, l.next + 1);
    AppendStages(Advance(l, now).entries, NewEntry(l.config, l.next + 1, cost));
  }

  lemma StartStages(l: State, now: nat, id: nat)
    requires Wellformed(l)
    ensures var (m, ok) := Start(l, now, id); var was := StageOf(l.entries, id);
      && Wellformed(m)
      && (ok <==> was.Some? && !was.value.started)
      && forall x :: StageOf(m.entries, x) ==
           if ok && x == id then Some(was.value.(started := true)) else StageOf(l.entries, x)
  {
    AdvanceStages(l, now);
    var a := Advance(l, now);
    FindStage(a.entries, id, false);
    var found := Find(a.entries, id, false);
    if found.Some? {
      StageAt(a.entries, found.value);
      UpdateStages(a.entries, found.value, Begin(a.config, a.now, a.entries[found.value]));
    }
  }

  lemma CancelStages(l: State, now: nat, id: nat)
    requires Wellformed(l)
    ensures var (m, ok) := Cancel(l, now, id); var was := StageOf(l.entries, id);
      && Wellformed(m)
      && (ok <==> was.Some? && !was.value.started)
      && forall x :: StageOf(m.entries, x) == if ok && x == id then None else StageOf(l.entries, x)
  {
    AdvanceStages(l, now);
    var a := Advance(l, now);
    FindStage(a.entries, id, false);
    var found := Find(a.entries, id, false);
    if found.Some? {
      SwapRemoveStages(a.entries, found.value);
    }
  }

  lemma FinishStages(l: State, now: nat, id: nat, usage: Option<nat>)
    requires Wellformed(l)
    ensures var (m, ok) := Finish(l, now, id, usage); var was := StageOf(l.entries, id);
      && Wellformed(m)
      && (ok <==> was.Some? && was.value.started)
      && forall x :: StageOf(m.entries, x) == if ok && x == id then None else StageOf(l.entries, x)
  {
    AdvanceStages(l, now);
    var a := Advance(l, now);
    FindStage(a.entries, id, true);
    var found := Find(a.entries, id, true);
    if found.Some? {
      SettleStages(a, found.value, usage);
      AdvanceStages(Settled(a, found.value, usage), now);
    }
  }

  function Settled(l: State, i: nat, usage: Option<nat>): State
    requires i < |l.entries|
  {
    l.(entries := l.entries[i := Settle(l.config, l.now, l.entries[i], usage)])
  }

  lemma SettleStages(l: State, i: nat, usage: Option<nat>)
    requires Wellformed(l) && i < |l.entries| && l.entries[i].started
    ensures Wellformed(Settled(l, i, usage))
    ensures forall x :: StageOf(Settled(l, i, usage).entries, x) ==
              if x == l.entries[i].id then None else StageOf(l.entries, x)
  {
    var f := Settle(l.config, l.now, l.entries[i], usage);
    assert f.id == l.entries[i].id && EntryStage(f).None?;
    UpdateStages(l.entries, i, f);
    forall x ensures StageOf(Settled(l, i, usage).entries, x) == if x == l.entries[i].id then None
        else StageOf(l.entries, x) {
      UpdateStage(l.entries, i, f, x);
    }
  }

  lemma GenerationStage(l: State, id: nat)
    requires Wellformed(l)
    ensures IsActiveGeneration(l, id) <==> StageOf(l.entries, id).Some? && !StageOf(l.entries, id).value.metadata
  {
    if e :| e in l.entries && e.id == id && e.active && !e.metadata {
      var i :| 0 <= i < |l.entries| && l.entries[i] == e;
      StageAt(l.entries, i);
    } else if StageOf(l.entries, id).Some? {
      var i := StageSource(l.entries, id);
      assert l.entries[i] in l.entries;
    }
  }
}
