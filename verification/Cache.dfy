/**
  The exact-response cache: single flight per key, a byte-permit budget that outlives
  eviction while a replay pins an entry, and one recorded outcome per examined response.

  Every section that holds the state mutex is one step.  Requests and stored entries keep
  their place in a sequence for ever, so the history of each can be spoken about; a digest
  key is known by number.
 */
module Cache {
  import opened Prelude

  const BUDGET_BYTES: nat := 4 * 1024 * 1024
  const ENTRY_BYTES: nat := 256 * 1024
  const MAX_ENTRIES: nat := 128

  type Key = nat
  type byte = b: nat | b < 256

  // ---------------------------------------------------------------- headers

  datatype Header = Header(name: string, value: seq<byte>)

  /** The accumulated header size, starting from `total`, as the capture limit is computed. */
  function FoldHeaders(headers: seq<Header>, total: nat): nat {
    if headers == [] then total
    else FoldHeaders(headers[1..], total + (|headers[0].name| + |headers[0].value| + 4))
  }

  function HeaderSize(h: Header): int { |h.name| + |h.value| + 4 }

  /** The stored size of a header map: the sum of its lines, plus the final blank line. */
  function StoredSize(headers: seq<Header>): int { SumBy(headers, HeaderSize) + 2 }

  lemma {:induction false} FoldIsStoredSize(headers: seq<Header>, total: nat)
    ensures FoldHeaders(headers, total) == SumBy(headers, HeaderSize) + total
    decreases |headers|
  {
    if headers != [] {
      assert headers == [headers[0]] + headers[1..];
      SumConcat([headers[0]], headers[1..], HeaderSize);
      assert SumBy([headers[0]], HeaderSize) == HeaderSize(headers[0])
          by { SumSnoc([], headers[0], HeaderSize); assert [] + [headers[0]] == [headers[0]]; }
      FoldIsStoredSize(headers[1..], total + (|headers[0].name| + |headers[0].value| + 4));
    }
  }

  // ---------------------------------------------------------------- state

  datatype Reason = BadStatus | CacheControl | UnsafeHeaders | Encoding | Representation | Size | IncompleteOrUnsafe

  datatype Lookup = Uncounted | Miss | Hit

  datatype Flight = Unclaimed | Waiting | Owner | Bypass

  datatype Phase =
    | Looking
    | Capturing(body: seq<byte>, limit: nat, headers: seq<Header>)
    | Examined
    | Dropped

  /**
    A request and, once its response is examined, its capture.  `observed` concatenates every
    chunk ever offered to the capture; `registered` is the notification epoch it last saw.
   */
  datatype Request = Request(
    key: Key, outcome: Lookup, flight: Flight, waited: bool, phase: Phase, examined: bool,
    capturePending: bool, observed: seq<byte>, registered: nat, parked: bool)

  /** A stored response: listed in the map, pinned by replays, or gone. */
  datatype Stored = Stored(key: Key, body: seq<byte>, retained: nat, inserted: nat, listed: bool, pins: nat,
      source: nat)

  datatype Fill = StoredBy(request: nat) | NotStored(request: nat, reason: Reason) | OverBudget(request: nat)

  datatype World = World(
    available: nat, entries: map<Key, nat>, stored: seq<Stored>, flights: set<Key>,
    waiters: nat, considered: nat, bypasses: nat, hits: nat, misses: nat,
    requests: seq<Request>, fills: seq<Fill>, epoch: nat, owed: nat)

  // ---------------------------------------------------------------- entries and permits

  predicate Alive(e: Stored) { e.listed || 0 < e.pins }

  /** Replaces a stored entry; permits return when nothing holds it any more. */
  function SetStored(w: World, i: nat, e: Stored): World
    requires i < |w.stored|
  {
    w.(stored := w.stored[i := e],
       available := if Alive(w.stored[i]) && !Alive(e) then w.available + e.retained else w.available)
  }

  function Unlist(w: World, i: nat): World
    requires i < |w.stored|
  {
    SetStored(w.(entries := w.entries - {w.stored[i].key}), i, w.stored[i].(listed := false))
  }

  function Pin(w: World, i: nat): World
    requires i < |w.stored|
  {
    SetStored(w, i, w.stored[i].(pins := w.stored[i].pins + 1))
  }

  function Unpin(w: World, i: nat): World
    requires i < |w.stored| && 0 < w.stored[i].pins
  {
    SetStored(w, i, w.stored[i].(pins := w.stored[i].pins - 1))
  }

  predicate Stale(e: Stored, now: nat, ttl: nat) { e.listed && ttl <= Monus(now, e.inserted) }

  /** Unlists the first `n` entries that have outlived their time. */
  function Prune(w: World, n: nat, now: nat, ttl: nat): (v: World)
    requires n <= |w.stored|
    ensures |v.stored| == |w.stored| && v.requests == w.requests
  {
    if n == 0 then w
    else
      var v := Prune(w, n - 1, now, ttl);
      if Stale(v.stored[n - 1], now, ttl) then Unlist(v, n - 1) else v
  }

  predicate IsOldest(w: World, i: nat) {
    i < |w.stored| && w.stored[i].listed &&
    forall j :: 0 <= j < |w.stored| && w.stored[j].listed ==> w.stored[i].inserted <= w.stored[j].inserted
  }

  /** Evictions until a whole entry's permits are available or nothing is listed any more. */
  predicate Honest(w: World, victims: seq<nat>)
    decreases |victims|
  {
    if ENTRY_BYTES <= w.available || w.entries == map[] then victims == []
    else victims != [] && IsOldest(w, victims[0]) && Honest(Unlist(w, victims[0]), victims[1..])
  }

  function EvictAll(w: World, victims: seq<nat>): (v: World)
    requires Honest(w, victims)
    ensures v.requests == w.requests
    decreases |victims|
  {
    if victims == [] then w else EvictAll(Unlist(w, victims[0]), victims[1..])
  }

  // ---------------------------------------------------------------- requests

  function SetRequest(w: World, r: nat, q: Request): World
    requires r < |w.requests|
  {
    w.(requests := w.requests[r := q])
  }

  function Leave(w: World, r: nat): World
    requires r < |w.requests|
  {
    var q := w.requests[r];
    if q.flight != Waiting then w
    else SetRequest(w.(waiters := Monus(w.waiters, 1)), r, q.(flight := Unclaimed, parked := false))
  }

  function Count(w: World, r: nat, hit: bool): World
    requires r < |w.requests|
  {
    var q := w.requests[r];
    if q.outcome.Uncounted? then
      if hit then SetRequest(w.(hits := w.hits + 1), r, q.(outcome := Hit))
      else SetRequest(w.(misses := w.misses + 1), r, q.(outcome := Miss))
    else if q.outcome.Miss? && hit then
      SetRequest(w.(misses := Monus(w.misses, 1), hits := w.hits + 1), r, q.(outcome := Hit))
    else w
  }

  /** The lookup under the lock: the flag says whether a replay was returned. */
  function LookIn(w: World, r: nat, now: nat, ttl: nat): (World, bool)
    requires r < |w.requests|
  {
    var p := Prune(w, |w.stored|, now, ttl);
    var key := w.requests[r].key;
    var hit := key in p.entries && p.entries[key] < |p.stored|;
    var c := Count(p, r, hit);
    if hit then (Pin(Leave(c, r), p.entries[key]), true) else (c, false)
  }

  /** One turn of the waiting loop, after registering for the notification. */
  function Turn(w: World, r: nat, now: nat, ttl: nat): World
    requires r < |w.requests|
  {
    var (l, hit) := LookIn(w, r, now, ttl);
    if hit then l
    else
      var q := l.requests[r];
      if q.flight == Owner || q.flight == Bypass then l
      else if q.key !in l.flights then
        var f := Leave(l, r);
        if |f.flights| < MAX_ENTRIES then
          SetRequest(f.(flights := f.flights + {q.key}), r, f.requests[r].(flight := Owner))
        else SetRequest(f, r, f.requests[r].(flight := Bypass))
      else if q.flight != Waiting then
        SetRequest(l.(waiters := l.waiters + 1), r, q.(flight := Waiting, waited := true, parked := true))
      else SetRequest(l, r, q.(parked := true))
  }

  // ---------------------------------------------------------------- captures

  /** Notes why request `r`, now in state `q`, is not stored. */
  function Record(w: World, r: nat, q: Request, reason: Reason): World
    requires r < |w.requests|
  {
    SetRequest(w.(fills := w.fills + [NotStored(r, reason)]), r, q.(capturePending := false))
  }

  /** The end of the headers: refuse, run out of budget, or reserve a whole entry and capture. */
  function Examine(w: World, r: nat, refusal: Option<Reason>, headers: seq<Header>, victims: seq<nat>): World
    requires r < |w.requests|
    requires refusal.None? && FoldHeaders(headers, 2) <= ENTRY_BYTES ==> Honest(w, victims)
  {
    var q := w.requests[r].(phase := Phase.Examined, examined := true);
    if refusal.Some? then Record(w, r, q, refusal.value)
    else if ENTRY_BYTES < FoldHeaders(headers, 2) then Record(w, r, q, Size)
    else ReserveEntry(EvictAll(w, victims), r, headers)
  }

  /** Takes a whole entry's permits for a capture, or notes that the budget is out. */
  function ReserveEntry(w: World, r: nat, headers: seq<Header>): World
    requires r < |w.requests| && FoldHeaders(headers, 2) <= ENTRY_BYTES
  {
    var q := w.requests[r].(phase := Phase.Examined, examined := true);
    if w.available < ENTRY_BYTES then SetRequest(w.(fills := w.fills + [OverBudget(r)]), r, q)
    else
      SetRequest(w.(available := w.available - ENTRY_BYTES), r,
                 q.(phase := Capturing([], ENTRY_BYTES - FoldHeaders(headers, 2), headers), capturePending := true))
  }

  function Observe(w: World, r: nat, bytes: seq<byte>): World
    requires r < |w.requests| && w.requests[r].phase.Capturing?
  {
    var q := w.requests[r].(observed := w.requests[r].observed + bytes);
    if Monus(q.phase.limit, |q.phase.body|) < |bytes| then
      if q.capturePending then Record(w, r, q, Size) else SetRequest(w, r, q)
    else SetRequest(w, r, q.(phase := q.phase.(body := q.phase.body + bytes)))
  }

  function ReleaseFlight(w: World, r: nat): World
    requires r < |w.requests|
  {
    var q := w.requests[r];
    match q.flight
    case Waiting => SetRequest(w.(waiters := Monus(w.waiters, 1)), r, q.(flight := Unclaimed, parked := false))
    case Owner => SetRequest(w.(flights := w.flights - {q.key}, owed := w.owed + 1), r, q.(flight := Unclaimed))
    case Unclaimed | Bypass => w
  }

  /** The permits a committed capture keeps for its entry. */
  function Retained(q: Request): nat
    requires q.phase.Capturing?
  {
    SumNonNegative(q.phase.headers, HeaderSize);
    |q.phase.body| + StoredSize(q.phase.headers)
  }

  /** Gives back what the entry will not use; the rest of the permit moves to the entry. */
  function SplitPermit(w: World, r: nat): World
    requires r < |w.requests| && w.requests[r].phase.Capturing? && Retained(w.requests[r]) <= ENTRY_BYTES
  {
    var q := w.requests[r];
    SetRequest(w.(available := w.available + (ENTRY_BYTES - Retained(q)), fills := w.fills + [StoredBy(r)]), r,
               q.(phase := Phase.Examined, capturePending := false))
  }

  /** Lists a new entry under `key`, displacing what was there. */
  function Insert(w: World, e: Stored): World {
    var u := if e.key in w.entries && w.entries[e.key] < |w.stored| then Unlist(w, w.entries[e.key]) else w;
    u.(entries := u.entries[e.key := |u.stored|], stored := u.stored + [e])
  }

  /** A committed capture: split the permit, store the entry, release the flight, owe the wake-up. */
  function Commit(w: World, r: nat, complete: bool, now: nat, victim: nat): World
    requires r < |w.requests| && w.requests[r].phase.Capturing? && Retained(w.requests[r]) <= ENTRY_BYTES
    requires MAX_ENTRIES <= |w.entries| && w.requests[r].key !in w.entries ==> IsOldest(w, victim)
  {
    var q := w.requests[r];
    if !complete || !q.capturePending then Drop(w, r)
    else
      var c := SplitPermit(w, r);
      var room := if MAX_ENTRIES <= |c.entries| && q.key !in c.entries then Unlist(c, victim) else c;
      var s := Insert(room, Stored(q.key, q.phase.body, Retained(q), now, true, 0, r));
      if s.requests[r].flight == Owner then ReleaseFlight(s, r)
      else s.(owed := s.owed + 1)
  }

  /** Dropping a request in any phase: record an unfinished capture, release flight and permit. */
  function Drop(w: World, r: nat): World
    requires r < |w.requests|
  {
    var q := w.requests[r];
    var a := if q.capturePending then Record(w, r, q, IncompleteOrUnsafe) else w;
    var b := ReleaseFlight(a, r);
    SetRequest(b.(available := if q.phase.Capturing? then b.available + ENTRY_BYTES else b.available), r,
               b.requests[r].(phase := Phase.Dropped))
  }
}
