# Relay delivery protocol: verified model

Relay accepts events, stores one delivery per event, and hands deliveries to workers under leased, fenced
claims. This project models that protocol in Dafny and proves what it promises: the store, its two adapters,
the retry engine, the worker, admission, dispatch, intake and recovery. `dafny verify dfyconfig.toml` checks
everything, in a few minutes and with no other options.

## How the pieces fit

- `Domain`, `Policy`: the values of `src/model.ts` and the truth table of `src/deliveryPolicy.ts`.
- `Ledger`: the protocol itself. A `Row` is all that is kept about one delivery, a `Change` is what an
  operation does to it, `Apply` is one store call with its reply. `Runs` strings calls together in any order,
  by any number of workers, operators and intake calls. `Fencing`, `History`, `Leases` and `Recovery` prove
  the protocol's laws about runs.
- `MemoryPersistence`: the in-memory adapter as a class over mutable maps. Each method is proved to make
  exactly one ledger step. `Tables` and `Simulation`: the SQL rows, CHECK constraints and statements, written
  from the SQL, and a relation under which tables and ledger simulate each other, step by step and over whole
  runs. `Clocks`: what the different clocks of the two adapters do to their runs. `DeadLetters`: the operator
  actions as what they are in SQL, two statements with anything in between, and the proof that every such
  interleaving is a run of single calls. So the laws about runs hold of both adapters.
- `Engine`: the retry loop with its clock, schedule and result, and its agreement with the stored records.
- `Replies`: what the store hands out is what it holds, in both adapters, and every claim it holds has its bearer.
- `DeliveryWorker`: one worker, its engine, renewal loop and cancellation racing over one claim, with store
  calls that lose requests or replies or reach the store after the worker has moved on. `Fleet`: all workers
  on one store, with the claims that the store handed out. `Exits`: their exits, read off their stories.
  `Retries`: the engine's delays, kept by every later claim. `Heartbeats`: renewal loops that come in time.
  `AttemptSlots`: engine loops around the permits.
- `Admission`, `Supervisor`: semaphores, counters, queue, permits and fibers, as state machines whose every
  interleaving is covered and as classes whose methods are the atomic steps. `Overloads`: the two together with
  the store, sharing one overload report. `Deliveries`: store, queue, dispatcher and workers as one machine.
- `EventIntake`, `IntakeCalls`: event acceptance on the adapters, and cut into its steps with everything in
  between. `Reconciler`, `ReconcilerPasses`: the same for recovery passes, on the whole process.
- `Stories`: sequences of moves, shared by the state machines.

Inputs from outside are parameters: clock readings, identifiers, random fractions, backoff delays, answers of
the destination, the SHA-256 digest, and which candidates a SQL claim picks. Assumptions that the code relies
on are preconditions, collected in `Ledger.Lawful`: identifiers made at intake are fresh, and attempt records
satisfy their schema. Lease and limits are positive, as `src/configuration.ts` checks. Nothing is assumed of the
order of two clocks: theorems about whole runs say where they need the store's own clock not to go back, and those
that compare the adapters say for which acceptances they hold.

## Main results

- Fencing is non-interference: from any run, all steps made with stale tokens can be deleted
  (`Fencing.StaleWorkersDoNotInterfere`).
- Every run of the tables is a run of the ledger, with equal due times and replies and no assumption on clocks
  (`Simulation.SqlRunsAreLedgerRuns`, `Simulation.AdaptersReplyAlike`), two-statement operators included
  (`DeadLetters.PlaysAreLedgerRuns`). Memory and tables can make each other's runs
  (`Clocks.MemoryRunsAreSqlRuns`, `Clocks.SqlRunsAreMemoryRuns`) exactly up to the first acceptance that is ahead
  of the database clock (`Clocks.FirstAheadParts`). Each dead-letter epoch has one winner
  (`DeadLetters.EveryPlayHasOneWinnerPerEpoch`).
- In every story of real workers ordinals are exact (`Fleet.FleetOrdinalsAreExact`), an exit gives up the claim
  (`Fleet.ExitGivesUpTheClaim`), a commit is not undone (`Fleet.CommittedStateIsNotUndone`), and success leaves
  exactly the engine's attempts and result in the store (`Fleet.SuccessIsTheEnginesResult`), as its destination
  answered (`Fleet.SuccessTellsTheAnswers`).
- A caller is told of success or failure exactly when the story of the worker says so (`Exits.ResultsAreExact`).
- A claim in a reply is the claim the store holds, in both adapters (`Replies.RenewedClaimsAreHeld`,
  `Replies.TableRepliesAreHeld`), leads to its destination (`Replies.ClaimsGoToTheirDestination`), and every claim in
  the store has its bearer (`Replies.EveryClaimHasABearer`).
- Nothing is stranded and nothing is early (`Recovery.AnyPassesCover`, `Recovery.PassesCoverTheQueue`,
  `Leases.NoEarlyReclaim`), from the engine's decision to the next claim by anyone
  (`Retries.WorkersNeverRetryEarly`); a worker whose heartbeats come in time keeps its claim in every story
  (`Heartbeats.TimelyWorkersKeepTheirClaim`).
- The retry loop ends within its budget with whole-millisecond delays that honour Retry-After
  (`Engine.RunDeliveryWithRetry`, `Engine.ScheduledDelay`, `Engine.RetryAfterIsHonoured`), each decision following
  exactly from answer, clock and draw (`Engine.DecisionIsExact`).
- Permits and jobs are conserved, nobody deadlocks, everybody gets out (`Admission.EveryoneGetsOut`,
  `AttemptSlots.SleepersHoldNothing`, `Supervisor.EveryJobIsInOnePlace`).
- Store, queue and workers as one machine: every offered claim reaches its end by real workers
  (`Deliveries.EveryAcceptedJobSettles`, `Deliveries.WorkersStayWithin`), a result says what is in the store
  (`Deliveries.ResultsTellTheTruth`), no current claim is forgotten (`Deliveries.NoClaimIsForgotten`), and a
  finished recovery pass leaves none behind (`ReconcilerPasses.FinishedPassesLeaveNothing`).
- Intake is idempotent in every interleaving (`IntakeCalls.EachKeyIsOfferedOnce`,
  `IntakeCalls.AcknowledgementsAgree`), with the exact condition under which an accepted call fails
  (`IntakeCalls.CallFailsExactlyWhen`).

## What the proofs found

- **One counter, two meanings.** `overload` is exported as `reject` and also called for offers that the full
  dispatch queue dropped, once their claims are released. Such a report names the global admission limit
  without asking for a permit. An offer ends in it if and only if it found the queue full and its claim still
  current when it was given back, whatever permits are held (`Overloads.ReportsFollowTheQueue`). So a rejection can
  name the limit while every one of its permits is free (`Overloads.FullQueueWithFreePermits`); the report is true
  of the permits exactly when none is free (`Overloads.ReportIsTrueExactlyWhenNoneIsFree`). Rejections by `admit`
  are always true (`Admission.RejectionsAreForced`). The counter counts both (`Overloads.RejectedCountsBoth`).
- **Replay after repair.** A SQL replay reports the delivery's current route, memory the first one. For an event
  with one delivery the answers are equal if and only if the route is still the first
  (`Simulation.ReplaysAgreeOnTheRoute`), and there is a run on which they differ
  (`Simulation.ReplaysDifferAfterRepair`). If a plain save gave the event another delivery, a SQL replay may
  also read that one (`Simulation.ReplaysAgreeExactly`); no service makes such a save.
- **Due time at acceptance.** The memory adapter stores the caller's acceptance time as the due time; the SQL
  adapter takes the column default, the database clock, and the caller is another machine. The stored
  due times, and later the reported lags, are equal exactly when the two readings are
  (`Simulation.AcceptanceDueTimes`, `Clocks.LagsAgree`). If the acceptance time is not
  ahead of the store's clock, both are past, and nothing but the lag can tell (`Clocks.StepStaysAlike`); that is the
  exact condition (`Clocks.AlikeExactlyWhenNotAhead`). If it is ahead, the adapters disagree on the delivery exactly
  while `now + lease <= later < acceptedAtMillis`: the tables give it to the next claim, memory hides it
  (`Clocks.AheadIsHidden`, with an input in `Clocks.ReclaimsDiffer`).
- **Renewal guards.** SQL tests `state = 'Pending'`, memory does not. The guards agree exactly on rows that
  hold claims only while Pending (`Simulation.RenewGuardsNeedTheInvariant`), which every run keeps.
- **CHECK constraints.** `dead_letter_reason IN (...)` is unknown, not false, for NULL, so the constraints admit
  a dead letter without a reason that `rowToDelivery` cannot decode (`Tables.ChecksAdmitUndecodable`), and in the
  same way an attempt with one trace identifier without the other (`Tables.ChecksAdmitHalfTraces`). No
  statement writes either (`Tables.ExecuteKeepsConstraints`).
- **Identifier reuse.** Intake restarts a delivery's generation at 1, so reusing an identifier for the same
  worker is the one way a stale token becomes current again (`Fencing.StaleRevivesOnlyByReuse`).
- **The clamp.** Limiting a delay to the remaining window never produces a scheduled retry
  (`Engine.ClampNeverSchedules`), so recorded delays are whole milliseconds.
- **A failed release after an acceptance.** A call can fail although its event was accepted, namely if and only if
  the queue was full at its offer and its claim was no longer current at its release
  (`IntakeCalls.CallFailsExactlyWhen`). For every capacity, every first submission and every other worker there is
  a story that ends so: the lease runs out before the release, and the other worker claims
  (`IntakeCalls.CallsCanFail`). Every repetition is told of the acceptance (`IntakeCalls.AcknowledgementsAgree`).

## Model

| member | source | states |
|---|---|---|
| Ledger.AcceptedExactlyWhenEnabled | src/adapters/memoryPersistence.ts:99-353 | A targeted call succeeds if and only if the delivery exists and the change is enabled in its row; a schema-valid attempt never meets "no terminal delivery state" |
| Ledger.StepsAreChanges | src/adapters/memoryPersistence.ts:99-353 | Whatever the operation, an existing delivery either stays as it is or makes exactly the one enabled change that the operation names for it |
| Ledger.ChangeKeepsRowValid | src/adapters/memoryPersistence.ts:61-71 | Claims exist only on Pending deliveries and carry the current generation, after every change |
| Ledger.IdentityIsFixed | src/adapters/memoryPersistence.ts:99-353 | No operation changes a delivery's identifier, event or destination, lowers its generation, drops its route or rewrites its history |
| Ledger.NewRows | src/adapters/memoryPersistence.ts:72-82 | Deliveries enter only by save, savePending or a first acceptance, without history, with the claim and the due time each of them gives |
| Ledger.ApplyKeepsValid | src/adapters/memoryPersistence.ts:72-483 | The store invariant over rows, insertion order and intake decisions is kept by every operation |
| Runs.FinalIsValid | src/adapters/memoryPersistence.ts:72-483 | The invariant holds after every run, however calls interleave |
| Runs.DeliveryIsFoldOfItsLog | src/adapters/memoryPersistence.ts:99-353 | A delivery is exactly the fold of its log of changes, each enabled when it happened |
| Runs.DeliveriesPersist | src/adapters/memoryPersistence.ts:72-82 | Deliveries are never forgotten or renamed, and history only grows, along any run |
| Fencing.HeldOrStale | src/adapters/memoryPersistence.ts:269-276 | After any change a held token is still held or stale, never anything else |
| Fencing.StaleForever | src/adapters/memoryPersistence.ts:61-71 | A token once released, superseded or cleared is never current again in any continuation |
| Fencing.CurrentUntilStale | src/adapters/memoryPersistence.ts:61-71 | A token that was current is current or stale at every later point of the run |
| Fencing.StaleIsInert | src/adapters/memoryPersistence.ts:99-117 | Any fenced call with a stale token answers ClaimLost and leaves the whole store equal |
| Fencing.StaleWorkersDoNotInterfere | src/adapters/memoryPersistence.ts:295-353 | From any run, every step made with a token stale by then can be deleted: the rest is a legal run with the same final store and the same replies to everyone else, the deleted steps were answered ClaimLost, and no stale step is left |
| Fencing.DeadTokensCanBeDeleted | src/adapters/memoryPersistence.ts:61-71 | In particular all steps of any set of tokens can be deleted from the point on where they are stale |
| Fencing.StaleRevivesOnlyByReuse | src/adapters/memoryPersistence.ts:434-439 | Without fresh identifiers, a stale token becomes current if and only if an intake reuses the identifier for its owner at generation 1 |
| History.OrdinalsAreExact | src/deliveryWorker.ts:87-103 | Over any run in which recorders number from their claim, ordinals are exactly 1..n in order, generations never decrease along them, and the holder's next ordinal is n + 1 |
| History.DuplicateOrdinalIsUnreachable | src/adapters/memoryPersistence.ts:118-142 | Workers that number from their claim never meet the duplicate-ordinal error, nor the one about a missing terminal state |
| History.FoldFacts | src/deliveryPolicy.ts:8-51 | The state is determined by the last decisive log entry, and the history is the attempts the log recorded |
| History.CountLaw | src/adapters/memoryPersistence.ts:125-149 | Closing entries minus reopenings is 0 while Pending and 1 otherwise, for every possible log of a delivery that began Pending |
| History.HistoryExplainsState | src/deliveryPolicy.ts:8-51 | The same three laws for every delivery of every run |
| History.ClosingEntryDecides | src/adapters/memoryPersistence.ts:135-149 | After a closing attempt nothing follows in the log until an operator acts, and until then the delivery is unclaimed in that attempt's state |
| History.SettledIsFrozen | src/adapters/memoryPersistence.ts:162-244 | Delivered, Rejected and Terminated are absorbing: no part of such a row ever changes |
| History.DeadLettersWaitForOperators | src/adapters/memoryPersistence.ts:162-244 | Only an operator action on that delivery moves a dead letter, to Pending or Terminated, keeping its history |
| Leases.RunningLeaseIsExclusive | src/adapters/memoryPersistence.ts:255-266 | While a lease runs, no claim, operator action or other token's change is enabled |
| Leases.DiligentHolderKeepsClaim | src/deliveryWorker.ts:201-214 | If every gap, and the wait before the first renewal, is shorter than the lease, all renewals succeed, the claim runs a lease from the latest one, and nobody else obtains the delivery |
| Leases.SilentHolderCanLoseClaim | src/adapters/memoryPersistence.ts:257-266 | The bound is tight: a due delivery can be taken exactly when a full lease has passed |
| Leases.ExpiryIsBounded | src/adapters/memoryPersistence.ts:301-311 | With one lease duration, no claim outlives the latest clock reading by more than the lease |
| Leases.ExpiryNeverMovesBack | src/adapters/memoryPersistence.ts:301-311 | With one lease duration and a nondecreasing clock, the expiry of one claim never decreases |
| Leases.DueTimeIsKept | src/adapters/memoryPersistence.ts:125-132 | Only recordings, retries and repairs move a delivery's due time |
| Leases.NoEarlyReclaim | src/adapters/memoryPersistence.ts:125-132 | After a recorded retry, no claim by anyone, across restarts, comes before the completion plus the delay that the record carries |
| Retries.RecordedIsDueAfterDelay | src/model.ts:376-396 | An accepted attempt to which the retry schedule gave a delay leaves the delivery settled, or due at exactly its completion plus that delay, both on the engine's clock |
| Retries.NoEarlyClaim | src/adapters/memoryPersistence.ts:125-132 | After it, no claim by anyone comes before that completion plus that delay, unless an operator acts or another attempt is recorded first; said in the engine's clock and delay and in no field of the record |
| Retries.WorkersNeverRetryEarly | src/deliveryWorker.ts:87-103 | The same in every story of workers that play engines, whether the worker hears of the acceptance, goes on, crashes or is superseded |
| Recovery.PendingBecomesClaimable | src/adapters/memoryPersistence.ts:255-268 | A Pending delivery is eligible exactly from the finite time max(due time, lease expiry) on |
| Recovery.SelectionIsOffered | src/adapters/memoryPersistence.ts:254-266 | What one pass selects is distinct, eligible and within the limit |
| Recovery.QueueIsInOrder | src/adapters/memoryPersistence.ts:254-266 | What waits is taken in the order of insertion |
| Recovery.PassesCoverTheQueue | src/adapters/memoryPersistence.ts:245-294 | Repeated claims at one clock reading take disjoint batches in order, and k of them take everything waiting once k * limit reaches the number waiting |
| Recovery.DueDeliveryIsClaimed | src/adapters/memoryPersistence.ts:245-294 | Every due Pending delivery is claimed within as many passes as cover the queue |
| Recovery.AnyPassesCover | src/adapters/postgres/deliveryRepository.ts:982-997 | In whatever order claims take candidates, k of them take min(k * limit, n) of the n eligible deliveries, each once, and leave exactly the others eligible |
| Recovery.SelectionIsGreedy | src/adapters/memoryPersistence.ts:255-266 | The memory adapter's own selection takes as many as it may |
| MemoryPersistence.Store.constructor | src/adapters/memoryPersistence.ts:376-399 | The maps start as the empty ledger |
| MemoryPersistence.Store.Save | src/adapters/memoryPersistence.ts:72-82 | The maps change by exactly the ledger's save |
| MemoryPersistence.Store.RecordAttempt | src/adapters/memoryPersistence.ts:99-151 | The maps and the reply are exactly the ledger's recording, with all three errors |
| MemoryPersistence.Store.RetryDeadLetter | src/adapters/memoryPersistence.ts:162-186 | Exactly the ledger's retry |
| MemoryPersistence.Store.RepairDeadLetter | src/adapters/memoryPersistence.ts:187-219 | Exactly the ledger's repair, including the destination mismatch |
| MemoryPersistence.Store.TerminateDeadLetter | src/adapters/memoryPersistence.ts:220-244 | Exactly the ledger's termination |
| MemoryPersistence.Store.ClaimPending | src/adapters/memoryPersistence.ts:245-294 | The in-place loop claims exactly the first eligible deliveries in insertion order, each with generation + 1 and its next ordinal, and returns one entry for each |
| MemoryPersistence.Store.RenewClaim | src/adapters/memoryPersistence.ts:295-313 | Exactly the ledger's renewal, and the claim in the reply is the one the maps hold afterwards |
| MemoryPersistence.Store.CompleteClaim | src/adapters/memoryPersistence.ts:314-339 | Exactly the ledger's completion |
| MemoryPersistence.Store.ReleaseClaim | src/adapters/memoryPersistence.ts:340-353 | Exactly the ledger's release, which does not look at the expiry |
| MemoryPersistence.Store.Accept | src/adapters/memoryPersistence.ts:401-446 | Exactly the ledger's acceptance: accepted, replayed or conflicting |
| MemoryPersistence.Store.SavePending | src/adapters/memoryPersistence.ts:448-483 | Exactly the ledger's direct save with a first claim |
| Tables.StateRoundTrip | src/adapters/postgres/deliveryRepository.ts:152-217 | A row holds the columns of a state if and only if it decodes to that state |
| Tables.AttemptRoundTrip | src/adapters/postgres/deliveryRepository.ts:339-371 | Decoding an encoded attempt gives the attempt back |
| Tables.ChecksAdmitUndecodable | src/adapters/postgres/migrations.ts:283-304 | A row that passes every CHECK decodes unless it is a dead letter without a reason |
| Simulation.ChecksAreTheInvariant | src/adapters/postgres/migrations.ts:84-126 | Of a row that keeps a delivery, the CHECK constraints say exactly the invariant of the memory store, with times from the epoch on, positive versions, and a route whole or absent |
| Tables.ChecksAdmitHalfTraces | src/adapters/postgres/migrations.ts:247-256 | An attempt row that passes every CHECK is a valid record unless it has one trace identifier without the other |
| Tables.WellFormedAttemptsPass | src/adapters/postgres/migrations.ts:182-258 | A record that passes the schema passes every CHECK of its table |
| Tables.UpdatesKeepChecks | src/adapters/postgres/migrations.ts:109-126 | Every guarded update leaves a row that passes the final CHECK constraints and decodes |
| Tables.ExecuteKeepsConstraints | src/adapters/postgres/migrations.ts:267-306 | Every operation keeps every row of the three tables within its CHECK constraints and decodable, ingestion keys unique, and references resolved |
| Simulation.GuardsAgree | src/adapters/postgres/deliveryRepository.ts:801-1109 | Every WHERE clause selects a related row exactly when the memory guard passes |
| Simulation.RenewGuardsNeedTheInvariant | src/adapters/postgres/deliveryRepository.ts:1059-1064 | Without the invariant, the renewal guards agree exactly where an owned row is Pending |
| Simulation.UpdatesAgree | src/adapters/postgres/deliveryRepository.ts:801-1109 | Every SET clause writes what the memory adapter's step makes of the row |
| Simulation.RecordingAgrees | src/adapters/postgres/deliveryRepository.ts:862-890 | The primary key refuses an ordinal exactly when the history has it, and otherwise the INSERT keeps table and history related |
| Simulation.NextOrdinalsAgree | src/adapters/postgres/deliveryRepository.ts:1027-1039 | COALESCE(MAX(ordinal) + 1, 1) over the table is the memory adapter's next ordinal |
| Simulation.CandidatesAreEligible | src/adapters/postgres/deliveryRepository.ts:983-993 | A row is a candidate exactly when the delivery is eligible |
| Simulation.CandidatesAreTheEligibleSet | src/adapters/postgres/deliveryRepository.ts:982-997 | The candidates of a claim statement are the eligible deliveries, so the covering law holds for its order too |
| Simulation.TargetedSimulates | src/adapters/postgres/deliveryRepository.ts:801-1109 | Record, renew, complete, release, retry, repair and terminate give equal replies and related stores, where the reply to a renewal is decoded from the updated row |
| Simulation.ClaimSimulates | src/adapters/postgres/deliveryRepository.ts:970-1042 | Claiming the same deliveries gives related stores and the same batch, lags included |
| Simulation.ReplayAgrees | src/adapters/postgres/intakeStore.ts:156-214 | A known key changes neither store; for an event with one delivery the SQL answer is the memory answer with the delivery's current route |
| Simulation.ReplaysAgreeExactly | src/adapters/postgres/intakeStore.ts:156-214 | On any store, the full answers to a known key are equal if and only if the delivery the tables read has a route (conflict), or is the accepted one with its first route (replay) |
| Simulation.ReplaysAgreeOnTheRoute | src/adapters/postgres/intakeStore.ts:203-214 | For an event with one delivery, the replies are equal if and only if the route is still the first |
| Simulation.RepairedReplaysDiffer | src/adapters/postgres/deliveryRepository.ts:939-955 | After any repair to another route the two replays differ |
| Simulation.ReplaysDifferAfterRepair | src/adapters/postgres/intakeStore.ts:203-214 | A run of both adapters from empty stores on which they differ |
| Simulation.AcceptanceAgrees | src/adapters/postgres/intakeStore.ts:80-154 | A first acceptance, whatever its acceptance time, gives equal replies and related stores, the delivery being due at the database clock |
| Simulation.AcceptanceDueTimes | src/adapters/postgres/migrations.ts:148-150 | With any other due time the reply is the same and the stores are not related: they are if and only if the due time is the database clock |
| Simulation.SavePendingAgrees | src/adapters/postgres/intakeStore.ts:227-309 | A direct save gives equal replies and related stores |
| Simulation.SaveAgrees | src/adapters/postgres/deliveryRepository.ts:751-769 | A plain save for a stored event, conflicting or not, gives equal replies and related stores |
| Simulation.StepSimulates | src/adapters/postgres/deliveryRepository.ts:747-1112 | Every operation permitted on the tables is lawful for the ledger, with related results and, replays of events with several deliveries aside, the same reply |
| Simulation.SqlRunsAreLedgerRuns | src/adapters/postgres/deliveryRepository.ts:747-1112 | Every SQL run, whatever its clock and the acceptance times, is a ledger run with related stores and the same replies |
| Simulation.LedgerRunsAreSqlRuns | src/adapters/postgres/intakeStore.ts:80-154 | Every ledger run whose new deliveries are due at the clock reading of their acceptance is a SQL run with related stores and the same replies |
| Simulation.EventsAreUndivided | src/adapters/postgres/intakeStore.ts:80-154 | Only a plain save can give an event a second delivery |
| Simulation.AdaptersReplyAlike | src/adapters/postgres/intakeStore.ts:80-309 | So on the runs that services make, the tables reply to every call as the ledger does, but for the route of a replay |
| Replies.HandedClaimsAreHeld | src/adapters/memoryPersistence.ts:269-294 | In every run, a claimed delivery that a call hands out is what the store holds then: delivery, event, route, next ordinal, the claim for the owner and the lease that were asked, and its lag |
| Replies.NewClaimsAreHandedOut | src/adapters/memoryPersistence.ts:269-294 | And a claim that a call leaves in the store bears the token that was there before, or is handed out in the reply |
| Replies.RenewedClaimsAreHeld | src/adapters/memoryPersistence.ts:295-313 | In every run, the claim in the answer to a renewal is the claim of the row, with the token presented and the lease asked for |
| Replies.WorkersHoldWhatTheyHeard | src/deliveryWorker.ts:147-159 | A worker whose renewal succeeds holds from then on exactly the claim that the store holds; otherwise it keeps its own |
| Replies.TableRepliesAreHeld | src/adapters/postgres/deliveryRepository.ts:970-1068 | In every SQL run, a claim in a reply, renewals included, is what the claim columns of its row decode to afterwards, and so is a route |
| Replies.EveryClaimHasABearer | src/deliverySupervisor.ts:171-245 | In every story of workers each claim in the store is borne by a worker, or by a claimed delivery that was handed out and still waits for one |
| Replies.RoutesLeadToTheDestination | src/adapters/memoryPersistence.ts:187-219 | In every run, a route leads to the destination of its delivery, repairs included |
| Replies.ClaimsGoToTheirDestination | src/deliverySupervisor.ts:112-123 | So a claimed delivery is sent to its own destination, and the configured one is only for those without a route |
| Clocks.StepStaysAlike | src/adapters/memoryPersistence.ts:401-446 | The same lawful call keeps two stores that differ in past due times only alike, with the same reply up to lags, if it is not a first acceptance ahead of the clock |
| Clocks.AlikeExactlyWhenNotAhead | src/adapters/memoryPersistence.ts:439 | A first acceptance in memory and in the tables leaves the stores alike if and only if its time is not ahead of the store clock |
| Clocks.AheadIsHidden | src/adapters/memoryPersistence.ts:255-268 | After an acceptance at `now` with a lease, the tables offer the delivery from `now + lease` on, memory from the later of that and the acceptance time: they disagree exactly in between |
| Clocks.HiddenUntilDue | src/adapters/memoryPersistence.ts:255-268 | In every continuation without a recording or an operator, no claim takes a new delivery before its due time |
| Clocks.ReclaimsDiffer | src/adapters/postgres/migrations.ts:148-150 | An input on which the tables give a delivery to another worker while memory does not |
| Clocks.LagsAgree | src/adapters/postgres/deliveryRepository.ts:1025-1026 | For a delivery that may be claimed in both, the full entries, lag included, are equal if and only if the due times are |
| Clocks.MemoryRunsAreSqlRuns | src/adapters/memoryPersistence.ts:72-483 | Every run of the memory adapter without acceptances ahead of the clock can be made on the tables, with matching stores and replies |
| Clocks.SqlRunsAreMemoryRuns | src/adapters/postgres/intakeStore.ts:80-309 | And every such run of the tables can be made in memory |
| Clocks.FirstAheadParts | src/adapters/memoryPersistence.ts:439 | Right after each step, memory and tables are alike if and only if no acceptance was ahead: the first one parts them |
| DeadLetters.OthersLeaveDeadLetters | src/adapters/postgres/deliveryRepository.ts:801-1109 | No statement but an operator's touches a dead letter, and none moves a delivery to another destination |
| DeadLetters.OperatorsRewriteOneRow | src/adapters/postgres/deliveryRepository.ts:906-969 | An operator's update changes at most its own row, not the destination, the events or any attempt, and succeeds only on a dead letter |
| DeadLetters.OutcomeIsTheState | src/adapters/postgres/deliveryRepository.ts:950-954 | After a passed check the update succeeds if and only if the delivery is a dead letter then |
| DeadLetters.EveryPlayHasOneWinnerPerEpoch | src/adapters/postgres/deliveryRepository.ts:594-653 | In every interleaving of two-statement operators with everything else, exactly one operator ends each dead-letter epoch |
| DeadLetters.LosersLearnTheState | src/adapters/postgres/deliveryRepository.ts:569-653 | An operator wins exactly when the delivery is still a dead letter; a loser is told NotDeadLettered and changes nothing; within its own epoch it loses exactly if somebody else won |
| DeadLetters.RefusedCheckIsTheOperation | src/adapters/postgres/deliveryRepository.ts:569-593 | A first statement that refuses is the whole operation, with its error |
| DeadLetters.ActIsTheOperation | src/adapters/postgres/deliveryRepository.ts:594-653 | After a passed check the second statement is the whole operation, in store and reply, as if both happened then |
| DeadLetters.PlaysAreSqlRuns | src/adapters/postgres/deliveryRepository.ts:569-653 | Every interleaving of two-statement operators with everything else is a run of single calls with the same store and the same answers |
| DeadLetters.PlaysAreLedgerRuns | src/adapters/postgres/deliveryRepository.ts:569-653 | So the run laws hold of the tables while operators are between their statements |
| Engine.RunDeliveryWithRetry | src/deliveryEngine.ts:200-301 | The loop ends within maxAttempts rounds at the first round it may not go on after; its history is the attempts so far and its result comes from the last |
| Engine.HistoryShape | src/deliveryEngine.ts:79-109 | Consecutive ordinals, a scheduled retry after each attempt but the last, Terminal exactly on a final outcome, and tag, status and last outcome of the result from the last attempt |
| Engine.JitterIsBounded | src/deliveryEngine.ts:153-164 | Full jitter is the number of whole milliseconds in the drawn fraction of the backoff, no more and no less, and at most the backoff |
| Engine.ClampNeverSchedules | src/deliveryEngine.ts:177-196 | A retry is scheduled exactly when one is left and the unclamped delay ends inside the window, and then the delay is the unclamped one |
| Engine.ScheduledDelay | src/deliveryEngine.ts:165-196 | A scheduled delay is exactly the longer of the jitter and the wait the destination asked for: at most maxDelay, or that wait. One retry is left, and decision time plus delay is before the deadline |
| Engine.RequestedIsAskedFor | src/model.ts:202-219 | The wait an answer requests is exactly the time asked for, in seconds or as a date, minus the time of its classification, and none if that has passed |
| Engine.DecisionIsExact | src/deliveryEngine.ts:153-196 | The decision after a round, from its answer, clock and draw alone: a retry after exactly this delay, Exhausted or Terminal, each exactly when |
| Engine.NoEarlyNextAttempt | src/deliveryEngine.ts:283-294 | In recorded milliseconds, the next in-process attempt starts no earlier than completion plus delay |
| Engine.StatusesAreDivided | src/model.ts:221-266 | Exactly which statuses are delivered, retried and for which reason, rejected or a protocol failure, that every outcome keeps its status, and that only a 429 asks for a delay |
| Engine.RetryAfterIsHonoured | src/model.ts:202-219 | After a 429 whose header asks to wait, in seconds or until a date, the next attempt starts no earlier than asked; no retry is delayed beyond both maxDelay and the wait asked for |
| Engine.AttemptsAreWellFormed | src/model.ts:315-396 | Every attempt of every engine run, under any consistent trace, makes a record that passes the schema with its patterns and its filter |
| Engine.RecordsTellTheirRounds | src/model.ts:376-396 | Every record tells its round: ordinal, token, trace, both readings of the loop's clock, the outcome and status of the answer, whether it is tried again and after how long |
| Engine.ResultAndRecordAgree | src/deliveryPolicy.ts:8-51 | The state from the result equals the state from the record of the last attempt, and is the one the last answer leads to |
| Engine.EngineRunCommits | src/deliveryWorker.ts:87-159 | If renewals always come in time, however many and whenever, the store accepts every attempt of an engine run and ends in the state of its result, which the last answer determines, unclaimed, with exactly these attempts added |
| Engine.RenewedRunCommits | src/deliveryWorker.ts:87-159 | However many renewals come between them, once the store has accepted all attempts of an engine run the delivery is in the state of the engine's result, which the last answer determines, unclaimed, with exactly these attempts added |
| DeliveryWorker.EngineScripts | src/deliveryWorker.ts:105-135 | Every plausible engine run, under any span, is a script a worker can play, with storable attempts numbered from its claim and a trace whose identifiers are both valid or both absent |
| DeliveryWorker.CorrelationIsExact | src/deliveryWorker.ts:171-175 | A span is recorded with both identifiers exactly if both have the right form, and otherwise with neither |
| DeliveryWorker.RenewalKeepsToken | src/deliveryWorker.ts:147-159 | The claim that a worker takes over from the answer to its renewal bears the token it presented, and it hears of one exactly if the call succeeded |
| DeliveryWorker.LateCallsAreApplied | src/deliveryWorker.ts:201-263 | An attempt or a heartbeat that was under way when the race was decided may reach the store at any later time, and is applied then |
| DeliveryWorker.StoreStep | src/deliveryWorker.ts:161-263 | Whatever others do to the store, a token stays held or becomes stale for good, and its ordinal, its recorded attempts and the delivery's log so far stay |
| DeliveryWorker.AcceptedRecording | src/deliveryWorker.ts:87-103 | An accepted recording adds exactly this attempt to those of its token and to the log, advances the ordinal by one, and gives the claim up if it is the last |
| DeliveryWorker.OwnRelease | src/deliveryWorker.ts:246-254 | After an answered release, successful or not, the token is not current |
| DeliveryWorker.TurnKeepsSound | src/deliveryWorker.ts:161-263 | Every turn of engine, renewal loop, cancellation, race and release keeps the worker invariant: recorded attempts are exactly those its engine made so far |
| DeliveryWorker.BystanderStaysSound | src/deliveryWorker.ts:161-263 | No step of anyone else disturbs it |
| Fleet.NewTokensAreNew | src/adapters/memoryPersistence.ts:269-276 | A claim the store hands out bears a token that no worker and no earlier claim bears |
| Fleet.MovesKeepOrderly | src/deliveryWorker.ts:161-263 | Any turn of any worker, any start of a worker and any other call keeps every worker sound and all tokens apart |
| Fleet.StoriesAreOrderly | src/deliveryWorker.ts:161-263 | The same in every interleaving from an empty store, lost, unanswered and late calls included |
| Fleet.FleetOrdinalsAreExact | src/deliveryWorker.ts:182-187 | In every story ordinals are exactly 1..n, nothing assumed of any worker, and neither the duplicate-ordinal error nor the one about a missing terminal state ever occurs |
| Fleet.RecordsAlwaysFit | src/model.ts:315-396 | The record of whatever attempt a worker makes next passes the schema |
| Fleet.ExitGivesUpTheClaim | src/deliveryWorker.ts:176-263 | However a worker exits, its token is not current then or ever later, unless its release got no answer |
| Fleet.ClosedIsStale | src/adapters/memoryPersistence.ts:144-149 | A token whose closing attempt is in the store is stale, whatever its bearer heard |
| Fleet.CommittedStateIsNotUndone | src/deliveryWorker.ts:207-254 | Once a closing attempt of a worker is in the store, no later renewal, failure, release or late call of it changes the store, and until an operator acts the delivery is unclaimed in that attempt's state |
| Fleet.SuccessIsCommitted | src/deliveryWorker.ts:216-219 | A worker that reports success has in the store exactly its engine's attempts, the last of them closing; its token is stale, and unless an operator acted since, the delivery is unclaimed in that attempt's state |
| Fleet.SuccessIsTheEnginesResult | src/deliveryWorker.ts:105-135 | And the delivery is in the state of the engine's result, with exactly the result's attempts recorded |
| Fleet.SuccessTellsTheAnswers | src/deliveryWorker.ts:105-135 | And each of these attempts tells its round, as to clock, answer and delay, and the state is the one the last answer leads to |
| Exits.StoriesExplain | src/deliveryWorker.ts:161-263 | In every story the turns taken and what came of them determine where each worker is: every branch of its life has its condition, both ways |
| Exits.ExitsAreExact | src/deliveryWorker.ts:201-263 | A worker reports success exactly if the attempt that closes the delivery was accepted and answered and its race went to the engine; it releases its claim exactly if its first renewal failed, or the race went to a missed heartbeat, a request to stop or an engine that could not record |
| Heartbeats.TimelyWorkersKeepTheirClaim | src/deliveryWorker.ts:201-214 | In every story, a worker whose heartbeats are answered and come less than a lease apart, in time for the next step of anyone, still holds its claim, a lease from its latest heartbeat, and none has failed |
| Heartbeats.TimelyBeatSucceeds | src/deliveryWorker.ts:147-159 | So it does not leave the race by a lost claim, and its next answered heartbeat in time succeeds |
| Admission.MovesKeepSound | src/deliveryAdmission.ts:65-193 | Every step of every caller, and every reported drop, keeps free permits plus holders equal to each limit, counts equal to the tasks inside, the parts equal to the total, and no zero entries |
| Admission.StoriesAreSound | src/deliveryAdmission.ts:65-193 | The same in every interleaving |
| Admission.CountsStayWithinLimits | src/deliveryAdmission.ts:92-108 | Counts never exceed the permits held, those never exceed the limits, parts sum to the total, and an entry exists exactly for a destination with a task inside |
| Admission.AllPermitsComeBack | src/deliveryAdmission.ts:120-128 | With no caller under way, every permit is free and nothing is counted |
| Admission.BlockedExactlyWhenAllHeld | src/deliveryAdmission.ts:175-184 | A caller gets no permit exactly when all permits of that limit are held, callers on their way in or out included |
| Admission.SomeoneCanMove | src/deliveryAdmission.ts:110-130 | No deadlock: while anyone is under way some caller can make its next step; callers of admit never wait |
| Admission.EveryoneGetsOut | src/deliveryAdmission.ts:110-130 | A story with n arrivals has at most 8n moves of callers, and where it cannot go on everyone is out and every permit is back |
| Admission.RejectionsAreForced | src/deliveryAdmission.ts:186-191 | A rejection by `admit` names a limit whose permits were all held at the step that turned the caller away |
| Admission.RejectionsAreCounted | src/deliveryAdmission.ts:132-138 | The counter counts every caller turned away and every reported drop, once each, and nothing else |
| Admission.CoursesFit | src/deliveryAdmission.ts:110-149 | In every story where a caller is tells what happened to it since it came: no task runs twice, or after a rejection |
| Admission.DeparturesAreExact | src/deliveryAdmission.ts:110-193 | Whoever leaves has had exactly one fate: its task ran, or it was turned away and is counted now, or it gave way while it waited |
| Admission.WaitersAreNeverTurnedAway | src/deliveryAdmission.ts:110-130 | Callers of `withCapacity` wait as long as it takes: in no story is one of them turned away |
| Admission.DropsTellTheTruth | src/deliveryAdmission.ts:219 | A reported drop names the global limit and touches only the counter; all its permits are held if and only if none is free |
| Overloads.PartsAreTold | src/deliverySupervisor.ts:156-169 | Admission and dispatch side by side each live a story of their own, so their laws hold of the two together |
| Overloads.RejectedCountsBoth | src/deliverySupervisor.ts:228-237 | The counter is the callers `admit` turned away plus the dropped offers whose release succeeded |
| Overloads.ReportsFollowTheQueue | src/deliverySupervisor.ts:215-237 | In every interleaving with the store, an offer ends in a report of the global admission limit if and only if it found the queue full and its claim still current when it was given back |
| Overloads.ReportIsTrueExactlyWhenNoneIsFree | src/deliveryAdmission.ts:132-149 | Such a report moves only the counter, and all permits are held then if and only if none is free |
| Overloads.FullQueueWithFreePermits | src/deliverySupervisor.ts:228-237 | For all limits and every submission there is a story that ends in such a report while every global permit is free |
| Admission.SumAfter | src/deliveryAdmission.ts:151-160 | Adjusting one destination moves the sum over all destinations by the same amount |
| Admission.Gate.SemaphoreFor | src/deliveryAdmission.ts:65-90 | The registry creates a semaphore with all permits once, and the step keeps the balance |
| Admission.Gate.TakeDestination | src/deliveryAdmission.ts:175-177 | A permit is granted exactly when not all are held; otherwise the caller waits or is turned away by the destination limit |
| Admission.Gate.TakeGlobal | src/deliveryAdmission.ts:177-184 | The same for the global limit, with the destination permit in hand |
| Admission.Gate.Count | src/deliveryAdmission.ts:92-108 | The counter update keeps the balance and stays within both limits |
| Admission.Gate.Reject | src/deliveryAdmission.ts:132-149 | The overload reports the capacity of the limit it names and is counted, for a caller turned away and for an offer without a ticket |
| Admission.Gate.RejectOffer | src/deliveryAdmission.ts:219 | The exported `reject` counts and reports an offer and moves nothing else |
| Admission.Gate.AdmitGlobally | src/deliveryAdmission.ts:176-184 | Admitted or refused globally, the destination permit goes back |
| Admission.Gate.Admit | src/deliveryAdmission.ts:165-193 | An uninterrupted call goes through exactly when both limits have room, and leaves permits and counts as it found them; otherwise the overload names the limit without room, with its capacity, and is counted |
| Supervisor.MovesKeepSound | src/deliverySupervisor.ts:138-245 | Accepted jobs are started, held, pulled and queued ones in order, permits balance, serial numbers count every offer, started jobs are on a fiber or settled |
| Supervisor.EveryJobIsInOnePlace | src/deliverySupervisor.ts:138-245 | An offered job is in exactly one of queue, chunk, dispatcher, fiber, settled, being given back, given back; at most capacity fibers run; jobs start in the order they were taken |
| Supervisor.DropsExactlyWhenFull | src/deliverySupervisor.ts:215-237 | The queue refuses an offer exactly when it is full |
| Supervisor.ResultsAreFinal | src/deliveryWorker.ts:261-263 | A job's result is delivered once and never changes |
| Supervisor.EveryAcceptedJobSettles | src/deliverySupervisor.ts:171-198 | For any fibers that settle: at most seven moves per offer; where no move is left, every accepted job is settled, every refused claim was given back and every permit is free |
| Supervisor.ReleaseSucceedsExactlyWhenCurrent | src/deliverySupervisor.ts:228-233 | The release of a refused offer succeeds exactly when its token is still current, expired or not |
| Supervisor.RefusedClaimIsFree | src/deliverySupervisor.ts:228-237 | After a refused offer's answered release the token is never current again, and the delivery waits unclaimed, claimable when due |
| Supervisor.Dispatcher.OfferClaimed | src/deliverySupervisor.ts:200-245 | With room, the job is appended and store and counter untouched; without, the store makes exactly the release, and if that succeeds the rejection is counted and names the global admission limit |
| Supervisor.Dispatcher.EnqueueClaimed | src/deliverySupervisor.ts:326-337 | The same, rejection counted, without telling the caller of an overload |
| AttemptSlots.SleepersHoldNothing | src/deliveryEngine.ts:283-294 | In every story of engine loops around the permits, a worker that records or sleeps holds none; permits are held by attempts under way only, and all are free when there is none |
| AttemptSlots.AttemptsRanInside | src/deliveryEngine.ts:200-301 | In every story an engine records and sleeps only after an attempt that ran with both permits, and not after one that was interrupted |
| AttemptSlots.LivesAreExact | src/deliveryEngine.ts:200-301 | A loop records each attempt once and sleeps once after each but the last, asks for the permits of its own destination every time, and is done exactly when a recording ended it or it was stopped while it waited |
| AttemptSlots.AttemptsGoOn | src/deliveryWorker.ts:105-136 | Whatever sleeps, some attempt under way can make its next step |
| Supervisor.Dispatcher.Fork | src/deliverySupervisor.ts:183-188 | The held job moves to a fiber together with the permit |
| Supervisor.Dispatcher.ReleasePermit | src/deliverySupervisor.ts:185-187 | A finished fiber returns its permit, so fewer than capacity run |
| Supervisor.Dispatcher.Dispatch | src/deliverySupervisor.ts:195-198 | On its own the dispatcher starts exactly as many jobs in line as there are permits for |
| Deliveries.MovesKeepOrderly | src/deliverySupervisor.ts:171-245 | Every move of store, queue, dispatcher, workers and other processes keeps each job one claim, in hand until started, with one worker of its own, its result the exit of that worker |
| Deliveries.StoriesAreOrderly | src/deliverySupervisor.ts:171-245 | The same in every interleaving: a claim offered here is taken up at most once |
| Deliveries.PartsAreTold | src/deliverySupervisor.ts:171-245 | The fleet and the line in it live stories of their own, so the laws of `Fleet` and `Supervisor` hold of the two together |
| Deliveries.StartIsNeverRefused | src/deliverySupervisor.ts:171-193 | When the dispatcher can start a job, its claim is in hand and nobody has begun it |
| Deliveries.TurnsAreUsedUp | src/deliveryWorker.ts:161-263 | Every turn of a worker but a heartbeat that succeeds and a request to stop brings it closer to its exit, lost and late calls included |
| Deliveries.WorkersStayWithin | src/deliveryEngine.ts:69-301 | In every story each worker takes at most budget plus four such turns |
| Deliveries.EnginesStayWithin | src/deliveryEngine.ts:69-301 | The scripts that engines play are within a budget of `maxAttempts` |
| Deliveries.WorkerCanMove | src/deliveryWorker.ts:161-263 | A worker that has not left can take such a turn without the network losing anything that its engine did not foresee: under its claim it can record, with a stale token its next heartbeat tells it |
| Deliveries.EveryAcceptedJobSettles | src/deliverySupervisor.ts:171-245 | With real workers: at most seven moves of the line per offer, and when nothing is left that must happen, every accepted job has the exit of its worker as its result, every refused one was given back, every permit is free |
| Deliveries.ResultsTellTheTruth | src/deliveryWorker.ts:201-263 | A result of success means the whole session of the worker in the store, closed by its last attempt; after a failure the token is stale, unless its release got no answer |
| Deliveries.ResultIsTheExit | src/deliveryWorker.ts:261-263 | A job's result is the exit of the worker that took it up, which has left |
| Exits.ResultsAreExact | src/deliveryWorker.ts:216-263 | What the caller is told of a job: success if and only if its worker won with everything recorded, failure if and only if the first renewal failed, or the race went to a missed heartbeat, a request to stop or an engine that could not record |
| Deliveries.NoClaimIsForgotten | src/deliverySupervisor.ts:200-264 | At every time an offered claim is in the line, with a worker under way or about to be given back, or is stale, or its release got no answer |
| EventIntake.NormalizedIsInjective | src/eventIntake.ts:53-58 | Different submissions never share a fingerprint text |
| EventIntake.NormalizedHasFourLines | src/eventIntake.ts:53-58 | The text has four lines: version, kind, invoice and amount |
| EventIntake.DigitsDenote | src/eventIntake.ts:57 | The amount is written in decimal: the digits denote it, without leading zeros |
| EventIntake.FingerprintsTellSubmissionsApart | src/eventIntake.ts:59-63 | Unless the digest collides, fingerprints are equal exactly for equal submissions |
| EventIntake.DecisionsPersist | src/adapters/memoryPersistence.ts:404-413 | The first decision for a key is never rewritten |
| EventIntake.RepeatedCallsAgree | src/adapters/memoryPersistence.ts:404-413 | After any steps in between, a second call changes nothing, repeats event, delivery and acceptance time for the same fingerprint, and reports the first event for a different one |
| EventIntake.AnswersAreExact | src/eventIntake.ts:146-151 | What a call is told, exactly: a new key, a repetition with the same fingerprint, or a conflict with the first event |
| EventIntake.EachKeyIsAcceptedOnce | src/adapters/memoryPersistence.ts:401-446 | Each key is accepted at most once, and exactly once if its decision was made in the run |
| EventIntake.OneDeliveryForEachKey | src/adapters/memoryPersistence.ts:420-444 | The deliveries intake created equal the distinct keys, one for each |
| EventIntake.FirstAcceptance | src/eventIntake.ts:109-133 | A submission under a new key is stored as this event with this amount, this delivery with its route, due at the acceptance, claimed for the caller at generation 1, and remembered with the digest of its text |
| EventIntake.Accept | src/eventIntake.ts:83-153 | Uninterrupted: a known key touches neither store nor queue and is answered with the first decision or the conflict; for a new one the whole new store is spelled out (event, delivery with route and due time, decision, nothing else), it is offered once, its delivery keeps its first claim exactly if the queue had room, and a drop is counted as a rejection |
| IntakeCalls.EachKeyIsOfferedOnce | src/eventIntake.ts:135-144 | With anything between its steps, each key is offered to the queue at most once, and exactly once as soon as its accepted call has come to the offer |
| IntakeCalls.AcknowledgementsAgree | src/eventIntake.ts:146-151 | Any two calls with one key, in any interleaving: acknowledged ones were told the same event, delivery and time and had the same fingerprint, conflicts name that event, and a call that failed on its release was accepted all the same |
| IntakeCalls.CallsFollowTheirSubmission | src/eventIntake.ts:83-153 | In every interleaving each call is told what the store knew of its key when it was submitted: a new key is acknowledged with the submission's own identifiers and time, a known one as a repetition of the first or a conflict with it |
| IntakeCalls.LineIsTold | src/deliverySupervisor.ts:200-245 | Queue and dispatcher live a story of their own in it, with one offer for each accepted call and one return for each refused offer, so the laws of `Supervisor` hold of intake |
| IntakeCalls.ReleaseFailsExactlyWhenLost | src/deliverySupervisor.ts:228-233 | In every reachable state, the release of a refused offer ends its call with a lost claim if the token is not current then, and acknowledges the acceptance otherwise |
| IntakeCalls.CallFailsExactlyWhen | src/eventIntake.ts:135-144 | A call has failed although its event was accepted if and only if it found the queue full at its offer and its claim lost at its release |
| IntakeCalls.CallsCanFail | src/eventIntake.ts:135-144 | For every capacity, submission and other worker, a story that ends in such a failure |
| Reconciler.ResumeAll | src/reconciler.ts:106-131 | Every claimed delivery is offered once, and exactly those without room in the queue are unclaimed again |
| Reconciler.ReconcileOnce | src/reconciler.ts:72-136 | One pass claims what the store selects and leaves no claim without a queued job; the others are counted as rejections |
| ReconcilerPasses.PassesAreOrderly | src/reconciler.ts:106-131 | In every interleaving with store, dispatcher, workers and other processes, one pass at a time offers what it claimed in order, once each, with at most the concurrency unresolved, nobody else takes it up, and it finishes only when every entry is resolved |
| ReconcilerPasses.OfferIsNeverRefused | src/reconciler.ts:106-131 | The next entry can always be offered: it is in hand and was not offered before |
| ReconcilerPasses.ClaimsOfPassesAreKept | src/reconciler.ts:72-136 | At every time each claim of a pass waits for its turn, or was offered and is looked after, or is stale, or its release got no answer |
| ReconcilerPasses.FinishedPassesLeaveNothing | src/reconciler.ts:72-136 | When a pass has finished, none of its claims is current, but those whose release got no answer |
| ReconcilerPasses.EveryBatchHasItsPass | src/reconciler.ts:72-136 | The batches claimed are those of the finished passes, in order, and of the one under way: no pass is forgotten |
| ReconcilerPasses.PassesNeverDeadlock | src/reconciler.ts:72-136 | A pass under way can offer, resolve or finish whenever nothing else has to happen in the process |

## Left out

- HTTP server and client, admin CLI, authorization, metrics, logs, tracing and the event stream: observation and wiring. Of tracing only the two identifiers of an attempt are kept.
- findById, findStatus, listDeadLetters: reads of the same maps and tables, with library sorting.
- Library semantics (semaphores, schedules, racing, deferreds, streams): stated as step rules. A semaphore's queue discipline is not modelled, so progress is shown and fairness is not.
- Fiber interruption at shutdown and crash finalizers: a crash is a worker that takes no more turns.
- Engine.RunDeliveryWithRetry: backoff is any delay up to maxDelay and the exponential formula is not modelled; floating point is replaced by reals; the attempt timeout is one of the answers a round may get, so no wall-clock bound on an attempt is claimed; the remaining window is read before capacity is granted, so waiting for permits is not covered by it.
- Fleet.ExitGivesUpTheClaim: does not cover a release that got no answer; the lease then runs out (Recovery.PendingBecomesClaimable).
- Fleet.MovesKeepOrderly: takes for granted that a claim handed out is started at most once; Deliveries.StoriesAreOrderly proves it of this process. `completeClaim` may be called by anyone, as nobody does.
- Deliveries.MovesKeepOrderly: whoever is handed a claim offers it at most once, as IntakeCalls.EachKeyIsOfferedOnce and ReconcilerPasses.OfferIsNeverRefused show of intake and recovery.
- Deliveries.EveryAcceptedJobSettles: successful heartbeats and requests to stop are not counted, and nothing is said of how long a turn takes.
- Admission.Gate.Admit, EventIntake.Accept, Reconciler.ResumeAll, Reconciler.ReconcileOnce: whole calls that nothing interleaves with. The interleavings are the subject of Admission, IntakeCalls and ReconcilerPasses.
- ReconcilerPasses.PassesAreOrderly: the polling schedule is not modelled.
- deliverTo beyond its offer: decoding, admission around a direct delivery and waiting for the result only combine members above.
- Tables: `ORDER BY`, `LIMIT` and `SKIP LOCKED` pick an arbitrary set of candidates, and a replay reads an arbitrary delivery of its event; one clock reading per statement; a statement is atomic; of identifier patterns only trace identifiers and fingerprints are modelled.
- Simulation.StepSimulates: compares batches for the same chosen deliveries, since the adapters choose in different orders; Simulation.ReplaysAgreeExactly says when the field it leaves out agrees.
- SHA-256, identifier generation, Date.parse, URL parsing and integer width: opaque values or unbounded integers.
- Configuration parsing, incident analyst, readiness, promise sender, transitionDeliveryState: unused by or outside the delivery paths.
