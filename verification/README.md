# llmgw admission and protection core: model and proofs

llmgw is a gateway that puts requests to a language-model service through one shared quota. This
project models the parts of it that decide who may go ahead and what survives when something fails:

- the rolling quota ledger (requests and tokens per minute, concurrency, a startup hold),
- the admission queue that is driven over that ledger (first-in first-out inside a root, round robin
  between roots, an age and bypass barrier, deadlines, an alarm), with the recovery gate that follows
  a 429 answer, and the tickets and holds that own reservations,
- the circuit breaker with its generation-stamped attempts, bounded scope table and bounded waiters,
- the exact-response cache with single flight and a byte-permit budget, and the acceptor that decides
  whether a streamed answer was complete,
- the quoting of service definitions for macOS, Linux and Windows, against the parsers that undo it.

## How it is built

Each component has a value layer, a datatype for the state and a function for every section that the
program runs under its lock, and a class layer that does the same work in place with the program's own
loops. Every method of the class layer is proved equal to its function, so what is proved about the
functions holds of the methods. The theorems are about runs: sequences of steps of any length, in any
order, with any clock arguments, delays, usage reports and jitter.

| module | holds |
|---|---|
| `Quota`, `LedgerObject` | the ledger as values, and as an object |
| `QuotaHistory`, `QuotaExact`, `QuotaAnswers` | the ledger against its full, unpruned history, its answers in terms of what requests ask for, and the waiting times it gives |
| `Backfill`, `BackfillPolicy` | safety of the backfill projection, and of the queue policy that uses it |
| `Scheduler`, `QueueObject` | the queue as values, and as an object |
| `SchedulerWake`, `SchedulerFairness`, `SchedulerOrder`, `SchedulerBarrier` | the alarm, the starvation bound, the order of admission, the barrier |
| `SchedulerExact`, `AdmissionExact` | bypass counts, refusals, expiry and the cause of every alarm, exactly |
| `Admission`, `LedgerStages`, `Ownership`, `HoldObject` | tickets and holds, who owns each reservation |
| `AdmissionRuns` | every run of the protocol as a run of the ledger and of the queue |
| `RecoveryGate`, `RecoveryExact` | the 429 recovery protocol: what it keeps, and what each drive, answer and rejection does to it |
| `AdmissionWake` | waiting for admission: registering, driving, sleeping, notifying |
| `Circuit`, `CircuitSafety`, `CircuitHistory`, `CircuitObject` | the circuit breaker, and its answers as a function of its history |
| `Cache`, `CacheSafety`, `CacheRuns`, `CacheExact`, `CacheObject` | the exact cache: its invariants, and what looks, turns, captures and commits do |
| `Stream` | the stream acceptor and its grammar |
| `Text`, `Quoting`, `CommandLine`, `ServiceDefinition`, `ServiceArguments` | printers, parsers, whole definitions and the command lines read back from them |
| `Prelude` | options, saturating helpers, sums |

Time is a natural number of nanoseconds. A `Notify` is an epoch counter: a waiter registers by noting
the epoch, parks only on the state it then finds, and is woken when the epoch moves; a task that has
changed the state and not yet called `notify_waiters` is counted in `owed`.

An invariant with many clauses is stated as a quantifier over an enumeration of its clauses
(`CacheSafety.Holds`, `QuotaHistory.Holds`, `SchedulerFairness.Obeys`, `Backfill.Kept`,
`Admission.Upheld`), so that each proof unfolds the clauses it names and no others.

The modules named `...Exact` and `CircuitHistory` state what the program answers in terms that its own
functions do not use: the tokens a request asked for, the history of a scope, the chunks offered to a
capture, the requests passed over in the log of admissions.

Three findings differ from what one might expect of the program:

- The starvation bound needs no assumption about arrival timestamps.
- That a barrier protects the oldest request of all does need one. `retry` re-enters the queue with its
  original timestamp and a new sequence number (`product/src/admission/mod.rs:380-395`), and
  `SchedulerBarrier.RetryOutranksTheProtected` and `SchedulerBarrier.BarrierPassesSmallerNumber` are runs in
  which it fails. What holds of every run is that a new barrier is set on the least head by arrival
  (`BarrierIsSetOnLeastHead`), that a head which comes before the protected request was never bypassed or
  overtaken (`OlderHeadsAreUntouched`), and that a join takes the protected request its place as the oldest if
  and only if it is accepted with an earlier timestamp (`JoinKeepsOldestIff`, `OldestUntilEarlierJoin`).
- The executable is read back from the Linux definition exactly when its path has no newline, and the whole
  command line exactly when neither path has one; otherwise nothing is read back.
  `ServiceDefinition.LinuxExecutable` and `ServiceArguments.LinuxCommand` state both halves.

## Model

| member | source | states |
|---|---|---|
| `QuotaHistory.RpmWindow` | product/src/admission/quota.rs:186-213 | in every run, also with clock arguments out of order, every window (T - 60 s, T] of the full start history holds at most `rpm` starts |
| `QuotaHistory.NoStartBeforeHold` | product/src/admission/quota.rs:128-145 | in every run no request starts before the startup hold has passed |
| `QuotaHistory.PruningIsInvisible` | product/src/admission/quota.rs:154-179 | in every run the pruned ledger's active, held and debited totals equal those of the unpruned event history |
| `QuotaHistory.TpmBound` | product/src/admission/quota.rs:335-375 | in every run live debits plus held tokens exceed the limit by at most the recorded overshoot of late or in-window settlement |
| `QuotaHistory.CapacityBound` | product/src/admission/quota.rs:275-303 | in every run entries, active reservations and reservation numbers stay within their fixed bounds |
| `QuotaHistory.StepKeeps` | product/src/admission/quota.rs:275-375 | every ledger operation keeps entries, history and all three limits in agreement |
| `QuotaHistory.TotalsAgree` | product/src/admission/quota.rs:159-179 | entries that mirror a history weigh as much as it wherever dropped records weigh nothing |
| `QuotaExact.ReservationsHoldWhatWasAsked` | product/src/admission/quota.rs:43-52 | in every run an active reservation holds estimated input plus output tokens, and nothing for metadata and unmetered requests or without a token limit; an inactive entry is kept only while a debit counts |
| `QuotaExact.TokenWindow` | product/src/admission/quota.rs:183-213 | in every run under reserved accounting every window (T - 60 s, T] starts requests that asked for at most `tpm` tokens together |
| `QuotaExact.CheckIsExact` | product/src/admission/quota.rs:186-213 | in every run the test passes if and only if the history leaves room for the request and the tokens it asks for, and there is a place and a number left |
| `QuotaExact.RefusalsAreExact` | product/src/admission/quota.rs:186-213 | in every run a request is refused for the first limit in the program's order under which the history leaves no room, then for a full ledger, then for used-up numbers |
| `QuotaExact.DebitsAreExact` | product/src/admission/quota.rs:335-375 | in every run the live token debits are what the history counts: what was asked for in the sixty seconds from the start, what was used once settled under actual accounting, and late usage in the sixty seconds from the finish |
| `QuotaExact.OverBudgetIsExact` | product/src/admission/quota.rs:183-190 | in every run the answer is that the estimate exceeds the budget if and only if what is asked for is above a known limit |
| `QuotaExact.StartupHoldIsKept` | product/src/admission/quota.rs:136-145 | in every run of a new ledger with a known limit nothing starts before the startup time has passed |
| `QuotaExact.NewLedgerIsReady` | product/src/admission/quota.rs:136-145 | a new ledger refuses for the startup hold exactly when a limit is known and the startup time is not over |
| `QuotaAnswers.WaitingLessIsInVain` | product/src/admission/quota.rs:275-303 | a request told to wait is refused at every time before the one it is told, and at every time whatsoever when it is told none, as long as nothing else happens |
| `QuotaAnswers.WaitsForTime` | product/src/admission/quota.rs:214-224 | in every run the time a request is told lies ahead and ends the startup hold or a debit, and none is told when the running requests are what stands in the way |
| `QuotaAnswers.AnswersAreExact` | product/src/admission/quota.rs:275-303 | an admission answers too large exactly for more than the token limit and admits exactly what the test passes, under the next number |
| `Backfill.BackfillIsSafe` | product/src/admission/quota.rs:225-274 | from every reachable ledger, once a candidate passed the projection and was admitted, any late starts, cancels, finishes with any usage and further backfills that pass before the projected time leave the protected head admissible at the projected time, before its deadline |
| `Backfill.BackfillHappens` | product/src/admission/quota.rs:225-274 | a run reaches a ledger on which the projection lets a request ahead of a head that does not fit: ten tokens a minute, six spent, a head of eight and a candidate of two |
| `Backfill.ActsProtect` | product/src/admission/quota.rs:225-274 | what the projection promised the head survives every such sequence of actions |
| `BackfillPolicy.BackfilledHeadIsServed` | product/src/admission/queue.rs:255-270 | after the policy lets a request ahead of a barrier, whatever starts, cancels, settlements, joins, departures and policy drives follow in time, the protected request, unless served early or gone, is the first that a drive at or after the projected time admits, before its deadline |
| `BackfillPolicy.RoundsWait` | product/src/admission/queue.rs:255-296 | a policy drive before the projected time serves the protected request or keeps all it was promised |
| `LedgerObject.Ledger.Advance` | product/src/admission/quota.rs:154-158 | the in-place clock move and prune give the ledger whose totals the history theorems speak of |
| `LedgerObject.Ledger.Snapshot` | product/src/admission/quota.rs:159-179 | one pass of accumulators gives the five totals of the advanced ledger |
| `LedgerObject.Ledger.Check` | product/src/admission/quota.rs:186-213 | refuses for the first violated limit in the program's order and only then |
| `LedgerObject.Ledger.NextWake` | product/src/admission/quota.rs:214-224 | the end of the startup hold while it lasts, else the earliest expiry still ahead |
| `LedgerObject.Ledger.CanBackfill` | product/src/admission/quota.rs:225-274 | decides exactly the projection that `BackfillIsSafe` is about, and leaves the ledger's clock alone under actual accounting |
| `LedgerObject.Ledger.Project` | product/src/admission/quota.rs:246-274 | the loop's early return and sums mean: no entry can be recharged, and both limits have room for head and candidate at the projected time |
| `LedgerObject.Ledger.Admit` | product/src/admission/quota.rs:275-303 | reserves under the next number exactly when nothing refuses |
| `LedgerObject.Ledger.Start` | product/src/admission/quota.rs:304-321 | turns the held reservation into live debits, in place |
| `LedgerObject.Ledger.Cancel` | product/src/admission/quota.rs:322-334 | removes exactly the held reservation, by swapping the last entry in |
| `LedgerObject.Ledger.Finish` | product/src/admission/quota.rs:335-375 | settles usage in the window or afresh, then prunes |
| `LedgerObject.Ledger.IsActiveGeneration` | product/src/admission/quota.rs:123-127 | finds whether a reservation is active and not metadata |
| `LedgerStages.StartStages` | product/src/admission/quota.rs:304-321 | a start succeeds exactly for a held reservation, moves that one and no other |
| `LedgerStages.CancelStages` | product/src/admission/quota.rs:322-334 | a cancel succeeds exactly for a held reservation, ends that one and no other |
| `LedgerStages.FinishStages` | product/src/admission/quota.rs:335-375 | a finish succeeds exactly for a started reservation, ends that one and no other |
| `SchedulerWake.WakeIsLater` | product/src/admission/queue.rs:297-313 | the alarm lies strictly after the drive and is absent exactly when nobody waits |
| `SchedulerWake.WakeIsSound` | product/src/admission/queue.rs:216-313 | driving again at any time before the alarm admits nobody, expires nobody and changes neither barrier nor bypass counts |
| `SchedulerWake.DriveEnds` | product/src/admission/queue.rs:216-313 | every drive ends with nothing left to do and nobody past a deadline |
| `SchedulerExact.AlarmHasACause` | product/src/admission/queue.rs:297-313 | at the alarm of every drive a deadline passes, a head has waited five seconds, the cooldown ends, or the startup hold or a debit of the ledger does |
| `SchedulerExact.DriveLeavesOnlyTheHeld` | product/src/admission/queue.rs:240-276 | in every run a drive in a cooldown admits nobody, and after one leaves no head that may go - only the protected one under a barrier - unless the ledger refuses it or the gate has its probe out |
| `AdmissionExact.DrivesDecideExactly` | product/src/admission/queue.rs:216-235 | in every run a drive expires a waiting ticket if and only if its deadline has come, and otherwise grants it or leaves it in its line |
| `SchedulerExact.JoinsAreExact` | product/src/admission/queue.rs:142-172 | a join is accepted if and only if its root exists, it asks for no more than the token limit, fewer than 64 wait and a number is left, and then is last in its root, unbypassed; an unknown root is answered first, a cost over the limit next |
| `SchedulerExact.AtMostSixtyFourWait` | product/src/admission/queue.rs:142-172 | in every run at most 64 requests wait |
| `Scheduler.FitsAdmits` | product/src/admission/queue.rs:285-296 | a selected head is always admitted: the branch marked unreachable is never reached |
| `Scheduler.GrantShrinks` | product/src/admission/queue.rs:277-296 | every admission takes one waiter away, so a drive terminates |
| `SchedulerFairness.StarvationBound` | product/src/admission/queue.rs:240-296 | in every run, whatever the timestamps, a request is overtaken at most eight times by newer requests while it heads its root without fitting |
| `SchedulerExact.BypassesAreExact` | product/src/admission/queue.rs:277-284 | in every run a waiting request's bypass count is the number of admissions of others, up to 255, while it headed its root without fitting |
| `SchedulerOrder.FifoWithinRoot` | product/src/admission/queue.rs:277-296 | in every run admissions of one root follow the order of joining |
| `SchedulerOrder.RoundRobinProgress` | product/src/admission/queue.rs:240-246 | in every run, without a barrier, a root whose head fits is passed over fewer times in a row than there are roots |
| `SchedulerOrder.PassedOverComesNearer` | product/src/admission/queue.rs:240-246 | each selection that passes a fitting root over brings it strictly nearer the cursor |
| `SchedulerBarrier.BarrierStandsUntilItsRequestLeaves` | product/src/admission/queue.rs:186-215 | in every run, through any further joins, departures, expiries, settlements and drives, as long as the request a barrier protects is in line the barrier stands and nobody is admitted |
| `SchedulerBarrier.BarrierAdmitsItsRequest` | product/src/admission/queue.rs:240-296 | in every run an admission made under a barrier is that of the very request it protects, by sequence number |
| `SchedulerBarrier.BarrierIsOldest` | product/src/admission/queue.rs:186-215 | in every run with non-decreasing timestamps the barrier protects a waiting head that is the oldest of all, by sequence number and by arrival |
| `SchedulerBarrier.BarrierIsSetOnLeastHead` | product/src/admission/queue.rs:186-215 | in every run, whatever the timestamps, a new barrier is set only by a drive or a departure, on the least head by arrival time and sequence number, and only when some head was bypassed eight times or waited five seconds |
| `SchedulerBarrier.UrgencyRaisesBarrier` | product/src/admission/queue.rs:186-215 | in every run a drive that leaves a head bypassed eight times or waiting for five seconds leaves a barrier |
| `SchedulerBarrier.OlderHeadsAreUntouched` | product/src/admission/queue.rs:277-284 | in every run, whatever the timestamps, a head that comes before the protected request was never bypassed or overtaken |
| `SchedulerBarrier.LeastHeadIsOldest` | product/src/admission/queue.rs:186-215 | a protected least head is the oldest of all requests, not only of all heads, when no line has an earlier timestamp behind its head |
| `SchedulerBarrier.JoinKeepsOldestIff` | product/src/admission/mod.rs:380-395 | in every run a join under a barrier leaves the protected request the oldest of all if and only if it is refused or carries no earlier timestamp |
| `SchedulerBarrier.OldestUntilEarlierJoin` | product/src/admission/mod.rs:380-395 | in every run a protected request that is the oldest of all remains so while it is in line and no join carries an earlier timestamp |
| `SchedulerBarrier.RetryOutranksTheProtected` | product/src/admission/mod.rs:380-395 | a run with a retry behind a standing barrier, after which an older request than the protected one waits |
| `SchedulerBarrier.BarrierPassesSmallerNumber` | product/src/admission/queue.rs:186-215 | a run in which a barrier is set on the second sequence number while the first one waits |
| `QueueObject.AdmissionQueue.Drive` | product/src/admission/queue.rs:216-313 | the loop over heads, barrier, cursor, bypasses and cells computes the drive that the theorems speak of, and its alarm |
| `QueueObject.AdmissionQueue.Protect` | product/src/admission/queue.rs:186-215 | keeps a standing barrier, else puts one on the oldest head once any head is urgent |
| `QueueObject.AdmissionQueue.Enqueue` | product/src/admission/queue.rs:142-172 | refuses an unknown root, a cost over the whole budget and a full queue, in that order, else appends |
| `QueueObject.AdmissionQueue.Abandon` | product/src/admission/queue.rs:173-185 | takes a ticket out of its line, or gives its untaken reservation and probe back |
| `QueueObject.AdmissionQueue.ArmRecovery` | product/src/admission/queue.rs:78-87 | a new generation without probe that never weakens the gate or the cooldown |
| `QueueObject.AdmissionQueue.Throttle` | product/src/admission/queue.rs:88-125 | one backoff per generation, and strengthening by stale rejections |
| `QueueObject.AdmissionQueue.Accepted` | product/src/admission/queue.rs:126-134 | clears the gate only for its probe, generation and time |
| `QueueObject.AdmissionQueue.ReleaseProbe` | product/src/admission/queue.rs:135-141 | frees the probe position of that reservation only |
| `Ownership.ApplyKeeps` | product/src/admission/mod.rs:213-488 | every step under the queue lock keeps ownership, queue lines, gate and backoff history consistent |
| `Ownership.OwnershipConserved` | product/src/admission/mod.rs:213-279 | in every run the active reservations are the disjoint union of those in untaken cells and those of live holds |
| `Ownership.DropAlwaysSettles` | product/src/admission/mod.rs:470-488 | in every run dropping a hold succeeds in its finish or cancel and ends exactly its own reservation |
| `Ownership.NothingStranded` | product/src/admission/mod.rs:345-363 | once every ticket and hold is gone, no slot, cell, line or probe is left over |
| `AdmissionRuns.RunIsLedgerRun` | product/src/admission/mod.rs:213-488 | every run of the protocol is a run of ledger operations that ends in its ledger |
| `AdmissionRuns.RunIsQueueRun` | product/src/admission/mod.rs:213-488 | every run of the protocol is a run of queue steps that ends in its queue |
| `AdmissionRuns.HoldsAreRecorded` | product/src/admission/mod.rs:403-417 | in every run of the protocol a live hold is a running record of that history, started exactly when the hold is |
| `AdmissionRuns.RequestsPerMinute` | product/src/admission/mod.rs:403-417 | in every run of the protocol every window (T - 60 s, T] holds at most `rpm` starts |
| `AdmissionRuns.TokensPerMinute` | product/src/admission/mod.rs:470-488 | in every run of the protocol live and held tokens exceed the limit only by recorded overshoot |
| `AdmissionRuns.NobodyStarves` | product/src/admission/mod.rs:213-279 | in every run of the protocol a request is overtaken at most eight times by newer ones while it heads its root without fitting |
| `HoldObject.HoldHandle.Start` | product/src/admission/mod.rs:403-417 | the last gate check and the debit, with the generation noted |
| `HoldObject.HoldHandle.Headers` | product/src/admission/mod.rs:418-450 | server delay, exhaustion hint and status in the program's order |
| `HoldObject.HoldHandle.Rejected` | product/src/admission/mod.rs:451-465 | charges a recognized rejection at most once and always frees the probe |
| `HoldObject.HoldHandle.Release` | product/src/admission/mod.rs:470-488 | finish or cancel as the hold stands, then free the probe |
| `RecoveryGate.GatedStart` | product/src/admission/queue.rs:67-77 | in every run a hold starts if and only if the cooldown is over and it is the probe, or metadata behind a generation-only gate, or there is no gate |
| `RecoveryGate.GateClearsOnlyByProbe` | product/src/admission/queue.rs:126-134 | in every run a gate clears only by a 200 for the probe that started as the probe under the current generation; until then generation-only stays |
| `RecoveryGate.ProbeIsActive` | product/src/admission/queue.rs:285-296 | in every run the probe is an active reservation that a ticket or hold owns, of the generation kind where the gate asks for it |
| `RecoveryGate.CooldownNeverShrinks` | product/src/admission/queue.rs:78-87 | over every run the cooldown deadline never moves back |
| `RecoveryGate.OneBackoffPerGeneration` | product/src/admission/queue.rs:88-125 | in every run each generation is charged at most one backoff, however many rejections it gets |
| `RecoveryGate.StageMovesOnlyByBackoff` | product/src/admission/queue.rs:88-134 | the no-hint stage moves only by such a charged backoff, by one table entry, or to zero when the gate clears |
| `RecoveryExact.DriveChoosesProbe` | product/src/admission/queue.rs:285-296 | in every run a drive behind an armed gate that admits a request the gate asks for found no probe out and leaves the reservation in that request's cell as the probe |
| `RecoveryExact.AdmittedCanStart` | product/src/admission/mod.rs:213-279 | in every run a ticket that a drive granted can be taken and started at the time of that drive, gate or no gate |
| `RecoveryExact.StartNotesGeneration` | product/src/admission/mod.rs:403-417 | in every run a hold that starts notes the gate's generation of that time, once |
| `RecoveryExact.GateClearsExactly` | product/src/admission/queue.rs:126-134 | in every run an armed gate is clear after a step if and only if the step is a 200, without a new hint, for the probe of the current generation after the cooldown |
| `RecoveryExact.HeadersAreExact` | product/src/admission/mod.rs:418-450 | in every run response headers move the cooldown exactly as far as a server delay on a 429 and a hint ask; a hint arms a gate without a probe, generation-only for a generation request; without one a 200 clears gate and backoff exactly for the probe of the current generation after the cooldown, other answers free the probe position, and nothing else of the queue changes |
| `RecoveryExact.RejectionsAreExact` | product/src/admission/queue.rs:88-125 | in every run a counted rejection of the current generation arms the gate, generation-only for a generation request, and backs off by the table; a stale one of a generation request makes an armed gate generation-only; any other only frees the probe position; nothing else of the queue changes |
| `RecoveryExact.GenerationProvesGeneration` | product/src/admission/queue.rs:88-134 | in every run, after a generation request reported exhaustion, the 200 that clears the gate however many steps later is a generation request's |
| `AdmissionWake.NoLostAdmission` | product/src/admission/mod.rs:213-279 | in every interleaving a sleeping waiter's notification has fired or is owed, or its result is not ready and either its alarm is due or no drive before the alarm would do anything |
| `AdmissionWake.SilentLater` | product/src/admission/mod.rs:287-294 | moving the ledger's clock without a notification hides nothing from sleepers |
| `AdmissionWake.SameLengthSameCells` | product/src/admission/mod.rs:244-256 | a drive that leaves the queue as long as it was has written no result, so comparing lengths misses no result |
| `CircuitSafety.GenerationsAgree` | product/src/circuit.rs:256-318 | in every run a half-open scope has exactly one live unresolved attempt of its generation, an open one none, and `in_flight` is the number of live tracked attempts |
| `CircuitSafety.EvictionIsHarmless` | product/src/circuit.rs:256-290 | in every run the table is bounded and no step takes away a scope with live attempts or a gate that is not closed |
| `CircuitSafety.StaleResultsChangeNothing` | product/src/circuit.rs:336-386 | in every run the result or loss of an attempt of another generation or scope leaves everything of a scope but its count |
| `CircuitSafety.HalfOpenIsNotStranded` | product/src/circuit.rs:389-413 | in every run a half-open scope has an attempt whose completion, failure or loss takes it out of that state |
| `CircuitSafety.NeverPanics` | product/src/circuit.rs:336-413 | the lookups of active entries and the decrements cannot fail under the invariant every run keeps |
| `CircuitSafety.NoLostWakeup` | product/src/circuit.rs:213-243 | in every interleaving a parked waiter's scope is half open, or its notification has fired or is owed |
| `CircuitSafety.WaitersBounded` | product/src/circuit.rs:205-243 | in every run the waiter count is the number of slot holders and at most 64 |
| `CircuitSafety.OpeningLasts` | product/src/circuit.rs:354-381 | in every run the opening after k openings since the last current completion lasts the longer of the failure's delay and the k-th backoff |
| `CircuitSafety.ApplyKeeps` | product/src/circuit.rs:213-413 | every step keeps table, backoff history and waiters consistent |
| `CircuitHistory.TrippedScopeRefuses` | product/src/circuit.rs:67-76 | in every run a scope that its history tripped at `s` for `L` refuses a start before `s + L` with the time that is left and adds no attempt, and lets one at or after it through as the only attempt of a half-open scope |
| `CircuitHistory.ProbingScopeRefuses` | product/src/circuit.rs:289-299 | in every run a scope whose probe is out refuses every start |
| `CircuitHistory.CalmScopeLetsThrough` | product/src/circuit.rs:256-318 | in every run a scope that its history left closed lets every start through, closed |
| `CircuitHistory.FullTableRunsUntracked` | product/src/circuit.rs:256-288 | in every run a new scope runs untracked when the table is full of scopes that cannot be forgotten |
| `CircuitHistory.FailureOpensExactly` | product/src/circuit.rs:354-381 | in every run a failure that counts opens its scope if and only if it is a failed probe or the third in a row with gaps of at most sixty seconds, for its own delay or the backoff its openings have reached, whichever is longer |
| `CircuitHistory.ForgetsTheLeastRecent` | product/src/circuit.rs:262-276 | in every run what a full table forgets is closed, without attempts, and by its history the least recently used of those |
| `CircuitHistory.LooksAreExact` | product/src/circuit.rs:213-243 | in every run a waiting caller parks exactly while its scope's probe is out and it has one of the 64 slots or finds one free; otherwise it is told how long the scope stays open, or goes on |
| `CircuitObject.Breaker.Oldest` | product/src/circuit.rs:262-276 | the scan finds a least recently touched evictable scope, or there is none |
| `CircuitObject.Breaker.Start` | product/src/circuit.rs:256-318 | refuses, runs untracked or lets through, in place, as the table function says, with an honest victim |
| `CircuitObject.AttemptHandle.Resolve` | product/src/circuit.rs:336-386 | settles a current result once and wakes exactly when it was the half-open probe |
| `CircuitObject.AttemptHandle.Release` | product/src/circuit.rs:389-413 | reopens a lost probe's scope, counts down, and wakes exactly then |
| `CacheRuns.BytesConserved` | product/src/cache.rs:403-435 | in every run free permits, 256 KiB per live capture and the bytes of every listed or pinned entry add up to 4 MiB, with at most 128 entries |
| `CacheRuns.SingleFlight` | product/src/cache.rs:309-343 | in every run the flights are exactly the keys of live owners, at most 128, with one owner per key |
| `CacheRuns.CountsAreExact` | product/src/cache.rs:266-307 | in every run waiters, hits and misses are the numbers of requests in that state, and considered adds up |
| `CacheRuns.ExactlyOneFill` | product/src/cache.rs:345-476 | in every run an examined response has exactly one recorded outcome, or its capture is still open |
| `CacheRuns.StoredBodyIsComplete` | product/src/cache.rs:517-556 | in every run a stored body is the concatenation of every chunk its capture was offered, never part of it, and lies under the key of the request it was captured for |
| `CacheRuns.NoUnderflow` | product/src/cache.rs:479-556 | in every run no unsigned subtraction underflows in any step that can be taken |
| `CacheRuns.NoLostWakeup` | product/src/cache.rs:309-343 | in every interleaving a parked waiter's key is in flight, or its notification has fired or is owed |
| `CacheRuns.ApplyKeeps` | product/src/cache.rs:266-556 | every step keeps bytes, index, flights, counts, outcomes and wake-ups consistent |
| `CacheExact.LooksAreExact` | product/src/cache.rs:266-299 | in every run a look is a hit if and only if an entry younger than the time to live is listed under the request's key, and pins exactly one such entry, captured for a request with the same key |
| `CacheExact.TurnsAreExact` | product/src/cache.rs:309-343 | in every run a turn without a hit makes the request the owner of a key not in flight while fewer than 128 are, bypasses at 128, and parks it when the key is owned |
| `CacheExact.ChunksAreExact` | product/src/cache.rs:517-528 | in every run a pending capture stays pending if and only if all it was offered fits a whole entry beside its headers |
| `CacheExact.BudgetIsExact` | product/src/cache.rs:403-435 | in every run an acceptable response is captured if and only if free permits and unpinned listed entries make up a whole entry, and nothing is evicted while free permits do |
| `CacheExact.EvictionIsByAge` | product/src/cache.rs:501-515 | in every run an evicted entry was inserted no later than any entry that stays listed |
| `CacheExact.CommitsAreExact` | product/src/cache.rs:529-556 | in every run committing a complete pending capture lists exactly what it observed under the request's own key with the time of the commit, displaces only that key's entry or, at 128 keys, one oldest entry, gives up the flight it owned and owes one notification |
| `CacheExact.UnfinishedListsNothing` | product/src/cache.rs:479-499 | in every run an incomplete or abandoned capture lists nothing and gives its whole permit back |
| `CacheExact.ExaminationsAreRecorded` | product/src/cache.rs:345-456 | in every run an examined response records the reason it was refused for, in the program's order |
| `CacheExact.FlightsHaveLiveOwners` | product/src/cache.rs:479-499 | in every run a key is in flight if and only if a request that is not gone owns it |
| `CacheSafety.EvictionsBounded` | product/src/cache.rs:417-435 | the eviction loop takes at most one round per listed entry |
| `Cache.FoldIsStoredSize` | product/src/transport/headers.rs:21-27 | the header size the capture limit subtracts is the stored size the commit adds |
| `CacheObject.ExactCache.Acquire` | product/src/cache.rs:417-435 | the loop evicts oldest entries until a whole entry fits or nothing is listed, and terminates |
| `CacheObject.ExactCache.Evict` | product/src/cache.rs:501-515 | takes out a least recently inserted entry, or reports that nothing is listed |
| `CacheObject.ExactCache.Oldest` | product/src/cache.rs:501-515 | the scan finds a listed entry inserted no later than any other, or there is none |
| `CacheObject.ExactCache.Retain` | product/src/cache.rs:266-269 | unlists exactly the entries that have outlived their time |
| `CacheObject.ExactCache.Lookup` | product/src/cache.rs:266-299 | the lookup, counting a request once, with the hit pinned |
| `CacheObject.ExactCache.TakeTurn` | product/src/cache.rs:309-343 | one turn of the waiting loop: replay, owner, bypass or parked |
| `CacheObject.ExactCache.Capture` | product/src/cache.rs:345-456 | refusal, size, budget or capture, with the permit taken |
| `CacheObject.ExactCache.ObserveChunk` | product/src/cache.rs:517-528 | keeps a whole chunk or none of it, and then never stores |
| `CacheObject.ExactCache.CommitCapture` | product/src/cache.rs:529-556 | splits the permit, makes room, stores and releases the flight, or drops |
| `CacheObject.ExactCache.Discard` | product/src/cache.rs:479-499 | what dropping a request in any phase does |
| `CacheObject.SizeOf` | product/src/cache.rs:403-413 | the loop over headers gives the folded header size |
| `Stream.AcceptsExactlyTheGrammar` | product/src/cache.rs:886-1004 | for every sequence of calls, complete holds exactly for pings and a document with blocks numbered 0, 1, 2, ... of text deltas, one accepted stop reason, and one terminal marker as the last event |
| `Stream.InvalidityIsPermanent` | product/src/cache.rs:874-890 | an invalid stream stays invalid and outside the grammar whatever follows |
| `Stream.StreamCompletion.Observe` | product/src/cache.rs:938-1004 | the flag updates of one Messages event |
| `Stream.StreamCompletion.Finished` | product/src/cache.rs:877-882 | a second terminal marker invalidates |
| `Stream.StreamCompletion.Accepts` | product/src/cache.rs:861-890 | a new acceptor fed a whole stream answers whether the grammar generates it |
| `Quoting.SystemdRoundTrip` | product/src/autostart/mod.rs:1186-1203 | for every path and every text after it, parsing the printed argument gives the path |
| `Quoting.SystemdIsPrefixFree` | product/src/autostart/mod.rs:1619-1635 | printed arguments with anything after them agree only for one path and one rest |
| `Quoting.CutScanFails` | product/src/autostart/mod.rs:1186-1203 | a printed argument cut before its closing quote is refused |
| `Quoting.PrintSystemdArg` | product/src/autostart/mod.rs:1619-1635 | the printing loop gives text that parses back whatever follows |
| `Quoting.ReadFirstArgument` | product/src/autostart/mod.rs:1186-1203 | the escaped-flag loop computes the parser the round trip is about |
| `Quoting.XmlRoundTrip` | product/src/autostart/mod.rs:1155-1162 | the five replacements in a row undo the escaping of every string |
| `Quoting.OneStage` | product/src/autostart/mod.rs:1155-1162 | each replacement undoes one character as long as ampersands are still escaped |
| `Quoting.PrintXml` | product/src/autostart/mod.rs:1575-1588 | the printing loop gives text without angle brackets that unescapes to the value |
| `CommandLine.WindowsRoundTrip` | product/src/autostart/mod.rs:1647-1668 | the C runtime rules, with or without quote doubling, read the path and go on as they would after it |
| `CommandLine.SeparatedRoundTrip` | product/src/autostart/mod.rs:1647-1668 | before a separator or the end the argument is the path |
| `CommandLine.PrintArgument` | product/src/autostart/mod.rs:1647-1668 | the pending-backslash loop gives text the C runtime reads as the path |
| `ServiceDefinition.MacosExecutable` | product/src/autostart/mod.rs:1590-1617 | the executable comes back from the macOS definition for every label, path and configuration |
| `ServiceDefinition.WindowsExecutable` | product/src/autostart/mod.rs:1670-1702 | the executable comes back from the Windows definition for every label, path, configuration and user |
| `ServiceDefinition.TaskArgumentsRead` | product/src/autostart/mod.rs:1670-1677 | the task's unescaped argument line gives the configuration path under the C runtime rules |
| `ServiceDefinition.LinuxExecutable` | product/src/autostart/mod.rs:1169-1203 | the executable comes back from the Linux definition exactly when its path has no newline, and otherwise nothing does |
| `ServiceArguments.LinuxCommand` | product/src/autostart/mod.rs:1637-1645 | the words of the unit file's start line are the executable, `--config`, the configuration path and `run` exactly when neither path has a newline, and otherwise the line is refused |
| `ServiceArguments.MacosCommand` | product/src/autostart/mod.rs:1590-1617 | the strings of the property list's array are exactly the executable, `--config`, the configuration path and `run`, for every label and path |
| `ServiceArguments.StringsRead` | product/src/autostart/mod.rs:1590-1617 | string elements written one after another are read back all of them and in order |

## Left out

- The FIFO policy of the queue, which only the benchmark harness selects; the backfill policy, also the harness's, is modelled on values and not in the queue's class.
- Wrap-around of `u64` generations and saturation of `Duration`: both are taken as unbounded; reservation-number and sequence exhaustion and the saturating `u8` bypass count are modelled.
- Diagnostics and display counters (reservation diagnostics, cleanups, starts, stores, evictions, coalesced), status strings and `blocked_reason`: plain counters and text.
- Result cells are entries of a map under the ticket's sequence number, not shared cells, so aliasing of a cell is not captured.
- In the class layer a request, its capture and its replay live in sequences of the cache object; permits are a number, so an owned permit being moved is captured only by the byte equation.
- Permits are returned by replays without the state lock; the model makes each such return its own step and the capture's eviction loop one step, so a return in the middle of that loop is not interleaved.
- Where several cached entries or scopes are equally old, the program's hash order picks one; the model allows any of them.
- SHA-256 framing of keys and scopes: a key is an opaque number.
- JSON and header predicates (`bypass_reason`, `eligible`, `complete_json`, refusal rules of `capture`): their results are inputs.
- The ChatCompletions and Responses branches of the stream acceptor: flat checks without block structure.
- `Retry-After`, `Date` and exhaustion-header parsing: delays and hints are inputs.
- The clock and random jitter are inputs; tasks, sockets, worker supervision, signals, configuration, control and metrics are not part of this model.
- Manager commands, XML event reading and file installation of the autostart module are not part of this model; the label is taken to have no newline on Linux, as its construction from a fixed prefix and a hash gives it.
