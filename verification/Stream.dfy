/**
  The acceptor that decides whether a streamed Messages response was complete, and the grammar
  of the streams it accepts.  The JSON of an event is abstract: its kind, its block index, and
  whether the parts the acceptor inspects are as it demands.
 */
module Stream {
  import opened Prelude


  datatype Event =
    | Ping
    | MessageStart(empty: bool)
    | BlockStart(index: Option<nat>, text: bool)
    | BlockDelta(index: Option<nat>, text: bool)
    | BlockStop(index: Option<nat>)
    | MessageDelta(accepted: bool)
    | MessageStop
    | Other

  /** A call made to the acceptor; `failed` marks an event that carries a non-null error. */
  datatype Signal = Observed(event: Event, failed: bool) | Done | Invalidated

  datatype Acceptor = Acceptor(
    invalid: bool, stopped: bool, terminal: bool, text: bool, started: bool, open: bool, index: nat)

  const INITIAL: Acceptor := Acceptor(false, false, false, false, false, false, 0)

  predicate Complete(a: Acceptor) { !a.invalid && a.stopped && a.terminal && a.text }

  /** What one event does while no terminal marker and no error has been seen. */
  function Consume(a: Acceptor, e: Event): Acceptor {
    var b := a.(invalid := a.invalid || (a.stopped && !e.MessageStop?));
    match e
    case Ping => b
    case MessageStart(empty) => b.(invalid := b.invalid || a.started || !empty, started := true)
    case BlockStart(index, text) =>
      b.(invalid := b.invalid || !a.started || a.open || index != Some(a.index) || !text,
         open := true, text := a.text || text)
    case BlockDelta(index, text) =>
      b.(invalid := b.invalid || !a.started || !a.open || index != Some(a.index) || !text, text := a.text || text)
    case BlockStop(index) =>
      b.(invalid := b.invalid || !a.started || !a.open || index != Some(a.index),
         open := false, index := Min(a.index + 1, U64_MAX))
    case MessageDelta(accepted) => b.(invalid := b.invalid || !a.started || a.open || !accepted, stopped := accepted)
    case MessageStop => b.(invalid := b.invalid || !a.started || !a.stopped || a.open, terminal := true)
    case Other => b.(invalid := true)
  }

  function Step(a: Acceptor, s: Signal): Acceptor {
    match s
    case Observed(e, failed) => if a.terminal || failed then a.(invalid := true) else Consume(a, e)
    case Done => a.(invalid := a.invalid || a.terminal, terminal := true)
    case Invalidated => a.(invalid := true)
  }

  function Run(signals: seq<Signal>): Acceptor {
    if signals == [] then INITIAL else Step(Run(signals[..|signals| - 1]), signals[|signals| - 1])
  }

  // ---------------------------------------------------------------- the acceptor as an object

  class StreamCompletion {
    var invalid: bool
    var stopped: bool
    var terminal: bool
    var text: bool
    var messageStarted: bool
    var openBlock: bool
    var blockIndex: nat

    function Model(): Acceptor
      reads this
    {
      Acceptor(invalid, stopped, terminal, text, messageStarted, openBlock, blockIndex)
    }

    constructor ()
      ensures Model() == INITIAL
    {
      invalid, stopped, terminal, text := false, false, false, false;
      messageStarted, openBlock, blockIndex := false, false, 0;
    }

    method Invalidate()
      modifies this
      ensures Model() == Step(old(Model()), Invalidated)
    {
      invalid := true;
    }

    method Finished()
      modifies this
      ensures Model() == Step(old(Model()), Done)
    {
      if terminal { invalid := true; }
      terminal := true;
    }

    method Observe(event: Event, failed: bool)
      modifies this
      ensures Model() == Step(old(Model()), Observed(event, failed))
    {
      if terminal || failed {
        invalid := true;
        return;
      }
      if stopped && event != MessageStop { invalid := true; }
      match event
      case Ping =>
      case Other => invalid := true;
      case MessageStart(_) => ObserveMessage(event);
      case MessageDelta(_) => ObserveMessage(event);
      case MessageStop => ObserveMessage(event);
      case BlockStart(_, _) => ObserveBlock(event);
      case BlockDelta(_, _) => ObserveBlock(event);
      case BlockStop(_) => ObserveBlock(event);
    }

    /** The frame of a message; the stop check has been made. */
    method ObserveMessage(event: Event)
      requires event.MessageStart? || event.MessageDelta? || event.MessageStop?
      requires stopped && !event.MessageStop? ==> invalid
      modifies this
      ensures Model() == Consume(old(Model()), event)
    {
      match event
      case MessageStart(empty) =>
        invalid := invalid || messageStarted;
        messageStarted := true;
        if !empty { invalid := true; }
      case MessageDelta(accepted) =>
        invalid := invalid || !messageStarted || openBlock;
        stopped := accepted;
        invalid := invalid || !stopped;
      case MessageStop =>
        invalid := invalid || !messageStarted || !stopped || openBlock;
        terminal := true;
    }

    /** The blocks of a message; the stop check has been made. */
    method ObserveBlock(event: Event)
      requires event.BlockStart? || event.BlockDelta? || event.BlockStop?
      requires stopped ==> invalid
      modifies this
      ensures Model() == Consume(old(Model()), event)
    {
      match event
      case BlockStart(index, valid) =>
        invalid := invalid || !messageStarted || openBlock || index != Some(blockIndex);
        openBlock := true;
        text := text || valid;
        invalid := invalid || !valid;
      case BlockDelta(index, valid) =>
        invalid := invalid || !messageStarted || !openBlock || index != Some(blockIndex);
        text := text || valid;
        invalid := invalid || !valid;
      case BlockStop(index) =>
        invalid := invalid || !messageStarted || !openBlock || index != Some(blockIndex);
        openBlock := false;
        blockIndex := Min(blockIndex + 1, U64_MAX);
    }

    /** Feeding a whole stream accepts it exactly when the grammar does. */
    method Accepts(signals: seq<Signal>) returns (complete: bool)
      requires Model() == INITIAL
      modifies this
      ensures complete <==> Grammatical(signals)
    {
      var i := 0;
      while i < |signals|
        invariant i <= |signals| && Model() == Run(signals[..i])
      {
        assert signals[..i + 1] == signals[..i] + [signals[i]];
        RunOnce(signals[..i], signals[i]);
        match signals[i] {
          case Observed(e, failed) => Observe(e, failed);
          case Done => Finished();
          case Invalidated => Invalidate();
        }
        i := i + 1;
      }
      assert signals[..i] == signals;
      AcceptsExactlyTheGrammar(signals);
      complete := !invalid && stopped && terminal && text;
    }
  }

  // ---------------------------------------------------------------- the grammar

  /** The number the k-th block must carry. */
  function Number(k: nat): Option<nat> { Some(Min(k, U64_MAX)) }

  function Deltas(k: nat, n: nat): seq<Event> { seq(n, i => BlockDelta(Number(k), true)) }

  function Block(k: nat, n: nat): seq<Event> {
    [BlockStart(Number(k), true)] + Deltas(k, n) + [BlockStop(Number(k))]
  }

  /** Blocks numbered from zero, the k-th holding `deltas[k]` text deltas. */
  function Blocks(deltas: seq<nat>): seq<Event> {
    if deltas == [] then []
    else Blocks(deltas[..|deltas| - 1]) + Block(|deltas| - 1, deltas[|deltas| - 1])
  }

  function Document(deltas: seq<nat>): seq<Event> { [MessageStart(true)] + Blocks(deltas) }

  predicate Clean(signals: seq<Signal>) {
    forall i :: 0 <= i < |signals| ==> signals[i].Observed? && !signals[i].failed
  }

  /** The events of a clean stream without its pings. */
  function WithoutPings(signals: seq<Signal>): seq<Event>
    requires Clean(signals)
  {
    if signals == [] then []
    else
      var rest, e := WithoutPings(signals[..|signals| - 1]), signals[|signals| - 1].event;
      if e.Ping? then rest else rest + [e]
  }

  predicate Terminal(s: Signal) { s == Done || s == Observed(MessageStop, false) }

  ghost predicate IsDocument(events: seq<Event>) {
    exists deltas: seq<nat> :: deltas != [] && events == Document(deltas)
  }

  /** Pings and a document with at least one block, one accepted stop reason, one terminal marker. */
  ghost predicate Grammatical(signals: seq<Signal>) {
    var n := |signals|;
    && 2 <= n && Terminal(signals[n - 1]) && signals[n - 2] == Observed(MessageDelta(true), false)
    && Clean(signals[..n - 2]) && IsDocument(WithoutPings(signals[..n - 2]))
  }

  // ---------------------------------------------------------------- the invariant of a run

  /** How far into a document the events seen so far reach. */
  ghost predicate Reaches(events: seq<Event>, a: Acceptor, deltas: seq<nat>, n: nat) {
    && !a.invalid && !a.stopped && !a.terminal
    && a.index == Min(|deltas|, U64_MAX)
    && (a.text <==> a.open || deltas != [])
    && if !a.started then !a.open && deltas == [] && events == []
       else if !a.open then events == Document(deltas)
       else events == Begun(deltas, n)
  }

  ghost predicate Going(signals: seq<Signal>, a: Acceptor) {
    Clean(signals) && exists deltas, n :: Reaches(WithoutPings(signals), a, deltas, n)
  }

  predicate Open(a: Acceptor) { !a.invalid && !a.stopped && !a.terminal }

  /** A document whose next block has been opened and holds `n` deltas. */
  function Begun(deltas: seq<nat>, n: nat): seq<Event> {
    Document(deltas) + [BlockStart(Number(|deltas|), true)] + Deltas(|deltas|, n)
  }

  lemma BegunGrows(deltas: seq<nat>, n: nat)
    ensures Document(deltas) + [BlockStart(Number(|deltas|), true)] == Begun(deltas, 0)
    ensures Begun(deltas, n) + [BlockDelta(Number(|deltas|), true)] == Begun(deltas, n + 1)
  {
    assert Deltas(|deltas|, 0) == [];
    assert Deltas(|deltas|, n) + [BlockDelta(Number(|deltas|), true)] == Deltas(|deltas|, n + 1);
  }

  lemma BegunCloses(deltas: seq<nat>, n: nat)
    ensures Begun(deltas, n) + [BlockStop(Number(|deltas|))] == Document(deltas + [n])
  {
    assert (deltas + [n])[..|deltas|] == deltas;
  }

  lemma EventReaches(events: seq<Event>, a: Acceptor, deltas: seq<nat>, n: nat, e: Event)
    requires Reaches(events, a, deltas, n) && !e.Ping? && Open(Consume(a, e))
    ensures exists deltas', n' :: Reaches(events + [e], Consume(a, e), deltas', n')
  {
    var b := Consume(a, e);
    match e
    case MessageStart(_) =>
      assert events + [e] == Document([]);
      assert Reaches(events + [e], b, [], 0);
    case BlockStart(_, _) =>
      BegunGrows(deltas, 0);
      assert Reaches(events + [e], b, deltas, 0);
    case BlockDelta(_, _) =>
      BegunGrows(deltas, n);
      assert Reaches(events + [e], b, deltas, n + 1);
    case BlockStop(_) =>
      BegunCloses(deltas, n);
      assert Reaches(events + [e], b, deltas + [n], 0);
    case _ =>
  }

  /** An acceptor still open has seen a clean stream that is a prefix of a document. */
  lemma {:induction false} OpenIsGoing(signals: seq<Signal>)
    requires Open(Run(signals))
    ensures Going(signals, Run(signals))
    decreases |signals|
  {
    if signals == [] {
      assert WithoutPings(signals) == [];
      assert Reaches([], INITIAL, [], 0);
    } else {
      var rest, s := signals[..|signals| - 1], signals[|signals| - 1];
      assert signals == rest + [s];
      RunOnce(rest, s);
      StillOpen(Run(rest), s);
      OpenIsGoing(rest);
      GoingOn(rest, Run(rest), s);
    }
  }

  lemma StillOpen(a: Acceptor, s: Signal)
    requires Open(Step(a, s))
    ensures Open(a) && s.Observed? && !s.failed && Step(a, s) == Consume(a, s.event)
  {}

  lemma PingsSnoc(signals: seq<Signal>, s: Signal)
    requires Clean(signals) && s.Observed? && !s.failed
    ensures Clean(signals + [s])
    ensures var w := WithoutPings(signals);
      WithoutPings(signals + [s]) == if s.event.Ping? then w else w + [s.event]
  {
    assert (signals + [s])[..|signals|] == signals;
  }

  /** One more event keeps an open acceptor inside a document. */
  lemma GoingOn(rest: seq<Signal>, a: Acceptor, s: Signal)
    requires Going(rest, a) && s.Observed? && !s.failed && Open(a) && Open(Consume(a, s.event))
    ensures Going(rest + [s], Consume(a, s.event))
  {
    PingsSnoc(rest, s);
    var deltas, n :| Reaches(WithoutPings(rest), a, deltas, n);
    if s.event.Ping? {
      assert Reaches(WithoutPings(rest + [s]), Consume(a, s.event), deltas, n);
    } else {
      EventReaches(WithoutPings(rest), a, deltas, n, s.event);
    }
  }

  // ---------------------------------------------------------------- documents are accepted

  function RunEvents(events: seq<Event>): Acceptor {
    if events == [] then INITIAL else Consume(RunEvents(events[..|events| - 1]), events[|events| - 1])
  }

  predicate Inner(e: Event) { e.MessageStart? || e.BlockStart? || e.BlockDelta? || e.BlockStop? }

  predicate AllInner(events: seq<Event>) { forall i :: 0 <= i < |events| ==> Inner(events[i]) }

  lemma {:induction false} BlocksInner(deltas: seq<nat>)
    ensures AllInner(Blocks(deltas))
  {
    if deltas != [] { BlocksInner(deltas[..|deltas| - 1]); }
  }

  /** While nothing stops the stream, pings leave no trace. */
  lemma {:induction false} PingsVanish(signals: seq<Signal>)
    requires Clean(signals) && AllInner(WithoutPings(signals))
    ensures Run(signals) == RunEvents(WithoutPings(signals)) && !Run(signals).stopped && !Run(signals).terminal
    decreases |signals|
  {
    if signals != [] {
      var rest, s := signals[..|signals| - 1], signals[|signals| - 1];
      var w := WithoutPings(signals);
      if s.event.Ping? {
        PingsVanish(rest);
      } else {
        assert w[..|w| - 1] == WithoutPings(rest) && w[|w| - 1] == s.event;
        PingsVanish(rest);
      }
    }
  }

  /** Where a document with these blocks leaves the acceptor. */
  function Written(blocks: nat): Acceptor {
    Acceptor(false, false, false, 0 < blocks, true, false, Min(blocks, U64_MAX))
  }

  lemma RunSnoc(events: seq<Event>, e: Event)
    ensures RunEvents(events + [e]) == Consume(RunEvents(events), e)
  {
    assert (events + [e])[..|events|] == events;
  }

  lemma {:induction false} DeltasRun(events: seq<Event>, k: nat, n: nat)
    requires RunEvents(events) == Written(k)
    ensures RunEvents(events + [BlockStart(Number(k), true)] + Deltas(k, n)) == Written(k).(open := true, text := true)
    decreases n
  {
    var begun := events + [BlockStart(Number(k), true)];
    RunSnoc(events, BlockStart(Number(k), true));
    if n == 0 {
      assert begun + Deltas(k, 0) == begun;
    } else {
      DeltasRun(events, k, n - 1);
      assert begun + Deltas(k, n) == (begun + Deltas(k, n - 1)) + [BlockDelta(Number(k), true)];
      RunSnoc(begun + Deltas(k, n - 1), BlockDelta(Number(k), true));
    }
  }

  lemma {:induction false} DocumentRuns(deltas: seq<nat>)
    ensures RunEvents(Document(deltas)) == Written(|deltas|)
    decreases |deltas|
  {
    if deltas == [] {
      RunSnoc([], MessageStart(true));
      assert Document([]) == [] + [MessageStart(true)];
    } else {
      var rest, n := deltas[..|deltas| - 1], deltas[|deltas| - 1];
      assert deltas == rest + [n];
      DocumentRuns(rest);
      OneMoreBlock(rest, n);
    }
  }

  lemma OneMoreBlock(rest: seq<nat>, n: nat)
    requires RunEvents(Document(rest)) == Written(|rest|)
    ensures RunEvents(Document(rest + [n])) == Written(|rest| + 1)
  {
    DeltasRun(Document(rest), |rest|, n);
    BlockCloses(Document(rest) + [BlockStart(Number(|rest|), true)] + Deltas(|rest|, n), |rest|);
    DocumentSnoc(rest, n);
  }

  lemma DocumentSnoc(rest: seq<nat>, n: nat)
    ensures var k := |rest|;
      Document(rest + [n]) == (Document(rest) + [BlockStart(Number(k), true)] + Deltas(k, n)) + [BlockStop(Number(k))]
  {
    assert (rest + [n])[..|rest|] == rest;
  }

  lemma BlockCloses(inside: seq<Event>, k: nat)
    requires RunEvents(inside) == Written(k).(open := true, text := true)
    ensures RunEvents(inside + [BlockStop(Number(k))]) == Written(k + 1)
  {
    RunSnoc(inside, BlockStop(Number(k)));
  }

  // ---------------------------------------------------------------- the theorems

  lemma RunOnce(signals: seq<Signal>, s: Signal)
    ensures Run(signals + [s]) == Step(Run(signals), s)
  {
    assert (signals + [s])[..|signals|] == signals;
  }

  /** An acceptor stopped but not ended has just seen the stop reason, on an open one. */
  lemma StoppedOnce(a: Acceptor, s: Signal)
    requires var b := Step(a, s); !b.invalid && b.stopped && !b.terminal
    ensures s == Observed(MessageDelta(true), false) && Open(a) && a.started && !a.open && a.text == Step(a, s).text
  {
  }

  lemma CompletedOnce(a: Acceptor, s: Signal)
    requires Complete(Step(a, s))
    ensures Terminal(s) && !a.invalid && a.stopped && !a.terminal && a.text
  {
  }

  lemma AcceptedIsGrammatical(pre: seq<Signal>, delta: Signal, end: Signal)
    requires Complete(Step(Step(Run(pre), delta), end))
    ensures Terminal(end) && delta == Observed(MessageDelta(true), false)
    ensures Clean(pre) && IsDocument(WithoutPings(pre))
  {
    CompletedOnce(Step(Run(pre), delta), end);
    StoppedOnce(Run(pre), delta);
    OpenIsGoing(pre);
  }

  lemma GrammaticalIsAccepted(pre: seq<Signal>, end: Signal)
    requires Clean(pre) && IsDocument(WithoutPings(pre)) && Terminal(end)
    ensures Complete(Step(Step(Run(pre), Observed(MessageDelta(true), false)), end))
  {
    DocumentReaches(pre);
    var k: nat :| 0 < k && Run(pre) == Written(k);
  }

  lemma DocumentReaches(pre: seq<Signal>)
    requires Clean(pre) && IsDocument(WithoutPings(pre))
    ensures exists k: nat :: 0 < k && Run(pre) == Written(k)
  {
    var deltas: seq<nat> :| deltas != [] && WithoutPings(pre) == Document(deltas);
    DocumentRuns(deltas);
    BlocksInner(deltas);
    PingsVanish(pre);
    assert Run(pre) == Written(|deltas|);
  }

  lemma ShortIsIncomplete(signals: seq<Signal>)
    requires |signals| < 2
    ensures !Complete(Run(signals))
  {
    if signals != [] { assert signals[..0] == []; }
  }

  lemma LastTwo(pre: seq<Signal>, delta: Signal, end: Signal)
    ensures Run(pre + [delta] + [end]) == Step(Step(Run(pre), delta), end)
  {
    RunOnce(pre, delta);
    RunOnce(pre + [delta], end);
  }

  lemma LastTwoSplit(signals: seq<Signal>)
    requires 2 <= |signals|
    ensures var n := |signals|; signals == signals[..n - 2] + [signals[n - 2]] + [signals[n - 1]]
  {
  }

  /** The acceptor is exactly the grammar, for every sequence of calls. */
  lemma AcceptsExactlyTheGrammar(signals: seq<Signal>)
    ensures Complete(Run(signals)) <==> Grammatical(signals)
  {
    var n := |signals|;
    if n < 2 {
      ShortIsIncomplete(signals);
    } else {
      LastTwoSplit(signals);
      LastTwo(signals[..n - 2], signals[n - 2], signals[n - 1]);
      if Complete(Run(signals)) { AcceptedIsGrammatical(signals[..n - 2], signals[n - 2], signals[n - 1]); }
      if Grammatical(signals) { GrammaticalIsAccepted(signals[..n - 2], signals[n - 1]); }
    }
  }

  lemma InvalidOnce(signals: seq<Signal>, s: Signal)
    requires Run(signals).invalid
    ensures Run(signals + [s]).invalid
  {
    RunOnce(signals, s);
  }

  lemma {:induction false} StaysInvalid(signals: seq<Signal>, more: seq<Signal>)
    requires Run(signals).invalid
    ensures Run(signals + more).invalid
    decreases |more|
  {
    if more == [] {
      assert signals + more == signals;
    } else {
      var n := |more| - 1;
      StaysInvalid(signals, more[..n]);
      assert signals + more == (signals + more[..n]) + [more[n]];
      InvalidOnce(signals + more[..n], more[n]);
    }
  }

  /** Once invalid, a stream stays invalid, and outside the grammar, whatever follows. */
  lemma InvalidityIsPermanent(signals: seq<Signal>, more: seq<Signal>)
    requires Run(signals).invalid
    ensures Run(signals + more).invalid && !Grammatical(signals + more)
  {
    StaysInvalid(signals, more);
    AcceptsExactlyTheGrammar(signals + more);
  }
}
