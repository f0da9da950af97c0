# Verified models of the platform's durable protocols

The platform keeps its promises by protocols that are split over several database transactions with
external calls in between, and that must survive crashes, lease takeover and replay. This project models
those protocols in Dafny and proves what they promise.

## How the models are built

Each protocol has a value-level state (`Db`) and one function per unit of work (`...Tx`), which either
commits a new database together with an answer or raises and thereby rolls everything back. A `World` adds
what lives outside the database: the local phase of every call in flight, what the external party has
received, and history variables that only record what happened. `Op` lists the steps, `Step` takes one, and
`Run` folds any sequence of them, so a statement about `Run(..., ops)` is a statement about every
interleaving of any number of callers, with crashes (which drop a local phase), expired leases, retries and
stale workers. The main results are such statements; each rests on an invariant that every step keeps.

Beside each protocol stands a class that does the same units of work statement by statement on its own
tables, with a rollback where the source relies on one. Its methods are proved equal to the `...Tx`
functions, so the theorems about the functions are theorems about these methods.

The modules named `...Outcomes` say in plain terms what the steps do: which facts about the rows, the calls in
flight and the history decide, and what is there afterwards. They do not use the helper functions by which the
steps are defined, so each of them is a second description that the steps are proved to meet.

| file | modules | what it models |
|---|---|---|
| `Send.dfy`, `SendOutcomes.dfy`, `SendKeys.dfy`, `SendWorkflow.dfy` | external send | reserve and claim, adapter call, complete or quarantine |
| `Intake.dfy`, `IntakeOutcomes.dfy`, `IntakeRepository.dfy`, `Circuit.dfy`, `Budget.dfy`, `Preflight.dfy` | public intake | leased reservation, three transactions, circuit breaker, budget, bounded outbox, projection |
| `MonitoringBatch.dfy`, `MonitoringOutcomes.dfy`, `MonitoringWorker.dfy`, `CounterpartyChanges.dfy` | monitoring batch | paging, claims with counted attempts, once-only recording |
| `Jobs.dfy`, `JobOutcomes.dfy`, `JobRunner.dfy` | job queue | fenced claims, attempt numbers, outcome events |
| `Outbox.dfy`, `OutboxOutcomes.dfy`, `OutboxStore.dfy` | outbox | selection order, the in-memory reference against the table, dispatch |
| `RepeatOrders.dfy`, `RepeatOrderRuns.dfy`, `RepeatOrderOutcomes.dfy`, `RepeatOrderService.dfy`, `Calendar.dfy`, `Money.dfy` | repeat orders | overlapping plan and order commands, revenue, cadence arithmetic, rounded totals |
| `Activation.dfy`, `ActivationOutcomes.dfy`, `ActivationGates.dfy` | provider activation | compare-and-set kill switch, replicas with cached bindings and ceilings |
| `Search.dfy` | search | deduplicated search, bounded runs over several sources |
| `Migrations.dfy` | migrations | the ledger, applying, extending and adopting |
| `AiRuntime.dfy`, `Idempotency.dfy` | AI calls, idempotency table | at most one external call per key; write-once records |

## Assumptions

- UUIDs are fresh: request ids, worker ids of `execute`, idempotency tokens of the AI wrapper and activation
  times are given at most once (a step that would reuse one does nothing). `Activation.ReactivationRevivesIff`
  says what reuse of an activation token would do.
- SHA-256 is injective, so a hash is modelled as what is hashed. The one hash that joins its parts with
  newlines is looked at closely in `SendKeys`: it is faithful for action ids without newlines.
- A job worker has one claim in flight, and job workers have names of their own; the name that the runner
  takes when none is given is `worker`, for every process. The other protocols put no bound on the claims of
  a worker.
- The receipts of the message channel are shared by all processes and outlive every crash. The adapter keeps
  them in a dictionary of its process (`max.py:66`), so `Send.AtMostOneEffect` and `Send.CrashRecovery` hold
  across processes only as far as the channel itself deduplicates by the key.
- Clocks are arbitrary, except that the circuit-breaker bounds compare times on a nondecreasing clock.
- A unit of work is one atomic step; `for update skip locked` is an arbitrary choice among eligible rows. The
  repeat-order commands read their plan and orders without locks, so each of them is two steps, its reads and
  its writes, with any steps of other commands between the two.
- Dates of repeat-order plans are in one time zone, that of the database session: `scheduled_for` is a
  `timestamptz`, so an offset given by a caller is lost when the plan is stored.
- The database sorts text ids by code point.

## What the proofs found

- **Circuit breaker.** A window-long interval holds at most `2 * limit - 2` admitted submissions for a limit
  of at least 2, and one for a limit of 1; `Circuit.BoundIsAttained` shows that this cannot be lowered.
- **Cadence.** A month step is not monotone: 30 January 23:00 precedes 31 January 01:00, but a month later
  the order is reversed (`Calendar.MonotonicityFails`). `Calendar.StepIsMonotoneIff` gives the exact condition.
- **Outbox.** The table's claim skips events that have not occurred yet, the reference does not; and the
  reference reports a collision when an event is appended again after its publication, the table does not.
  `Outbox.ClaimsAgreeIff` and `Outbox.AppendsAgreeIff` say exactly when the two agree.
- **Activation ceilings.** The database keeps eight decimals of the ceilings. With more, the activating
  replica of the gate that caches its ceilings decides some requests differently from the canonical state
  (`Activation.CeilingsCanDiffer`), until its next `provider()` call; `Activation.CeilingsAgreeIff` is exact.
- **Stored quantities.** The database keeps eight decimals of a line's quantity, so an order can be
  reloaded with another total than it was validated with (`OrderTotals.ReloadMovesTotal`), and revenue is
  booked over what is kept. `OrderTotals.ReloadKeepsTotalIff` and `RepeatOrderRuns.BooksValidatedTotalIff` are
  exact; at most eight decimals are always enough. A draft whose validated lines are not sorted by id, or have
  more decimals, cannot be confirmed by the same validation (`RepeatOrderRuns.UnchangedValidationConfirmsIff`).
- **Overlapping confirmations.** Of two confirmations of one order that overlap, the second passes the save
  of the order, which is confirmed by then with the same lines; what stops it is the key of the revenue entry,
  before the revision of the plan is compared (`RepeatOrderRuns.OverlappingCommandsCollide`). Other overlapping
  changes of a plan are stopped by the revision at the latest. `RepeatOrderRuns.CommitsIffCurrent` is exact.
- **Dangling keys.** A key that was used by a plan command and is then used, with the same request hash, by
  an order command is reported as a reference to a missing order, and conversely
  (`RepeatOrderRuns.DanglingKeyIff`).
- **Search.** Searching again in the results changes hits whose tax or registration id consists of blanks
  only (`Search.SearchingAgain`). A run that reports COMPLETE may have cut the answer of its last source
  short (`SearchRun.CompleteMeansAllHeard`).
- **Request hash.** Two action ids can share a request hash exactly when one of them, followed by a newline,
  begins the other (`SendKeys.HashConfusion`).

## Model

| member | source | states |
|---|---|---|
| `SendKeys.HashConfusion` | src/shema_platform/application/commercial_execution.py:45-51 | two action ids can share a request hash under some key exactly when one, followed by a newline, begins the other |
| `SendKeys.HashDeterminesRequest` | src/shema_platform/application/commercial_execution.py:45-51 | for newline-free action ids the hash determines action and body |
| `SendKeys.ReferencesAreDistinct` | src/shema_platform/application/commercial_execution.py:54-59 | receipt ids are never taken for pending references; references, effect keys and receipts each name one action |
| `Send.AtMostOneEffect` | src/shema_platform/application/commercial_execution.py:147-316 | over every interleaving an action leaves the platform at most once |
| `Send.SentMeansDelivered` | src/shema_platform/platform/postgres_repositories.py:1059-1101 | SENT implies a receipt on file for a message that left, and exactly its own sent event; without SENT there is none |
| `Send.CompletedRecordIsTrue` | src/shema_platform/application/commercial_execution.py:164-316 | a completed idempotency record names the receipt of its own SENT action, whose message carried the body of the request |
| `Send.AnswersAgree` | src/shema_platform/application/commercial_execution.py:164-316 | all callers that were answered for one action got the same receipt and had asked for the one body that left |
| `Send.TerminalIsAbsorbing` | src/shema_platform/platform/postgres_repositories.py:943-1101 | a SENT or FAILED action is never changed again, whatever stale workers do |
| `Send.CompletionOutcome` | src/shema_platform/platform/postgres_repositories.py:1059-1101 | what a completion writes: answer and record if the action is SENT already, these with row and event while the worker's lease is live, and otherwise nothing |
| `Send.LeaseExcludes` | src/shema_platform/platform/postgres_repositories.py:943-1017 | while a lease is live only its holder can move the action, and nobody else can claim it |
| `Send.UndisturbedSend` | src/shema_platform/application/commercial_execution.py:147-316 | an undisturbed call ends in SENT with one answer and at most one new effect |
| `Send.FailedExactlyWhenQuarantined` | src/shema_platform/application/commercial_execution.py:61-145 | an action is FAILED exactly when one quarantine record that is not stale names it, with its unknown-effect event, and there is never a second |
| `Send.CrashRecovery` | src/shema_platform/application/commercial_execution.py:147-316 | after a crash behind the adapter the same request completes once the lease has run out, and still only one message has left |
| `Send.DeliverKeepsReceipts` | src/shema_platform/adapters/communication/max.py:96-124 | a delivery writes at most one receipt per action and never changes one |
| `SendOutcomes.MessagesAreFaithful` | src/shema_platform/application/communication.py:45-74 | over every run, each message that has left, and that of each receipt, carries the channel and the contact of the row of its action and a body that the owner of the action gave in an allowed call; that row is complete |
| `SendOutcomes.AnswersAreTheOwners` | src/shema_platform/application/commercial_execution.py:164-186 | whoever was answered: the owner of the action has made this call, and was allowed to |
| `SendOutcomes.EventsAreTrue` | src/shema_platform/platform/postgres_repositories.py:1059-1101 | events carry the identity and the channel of the row of their action |
| `SendOutcomes.AddressIsImmutable` | src/shema_platform/platform/postgres_repositories.py:943-1101 | owner, identity, contact, channel and evidence of a row never change |
| `SendOutcomes.BeginOutcome` | src/shema_platform/application/commercial_execution.py:164-222 | exactly when a call is answered from its key, claims its action (and then what it writes), or changes nothing, over every run |
| `SendOutcomes.CallOutcome` | src/shema_platform/application/communication.py:45-90 | exactly when the message of a call leaves, is answered from the receipt of an earlier one, or the call ends |
| `SendOutcomes.QuarantineOutcome` | src/shema_platform/application/commercial_execution.py:61-145 | an unknown outcome is always quarantined; the action fails exactly while the lease is live |
| `SendOutcomes.GatewayOutcome` | src/shema_platform/application/communication.py:45-74 | exactly which messages the gateway lets through to the channel, and what the channel then answers |
| `SendOutcomes.AdmissionErrors` | src/shema_platform/application/commercial_execution.py:164-222 | exactly when a call is refused for which reason, over any tables |
| `SendOutcomes.CompletionErrors` | src/shema_platform/platform/postgres_repositories.py:1059-1101 | exactly when a completion is rolled back for which reason, over any tables |
| `SendWorkflow.MaxAdapter.Send` | src/shema_platform/adapters/communication/max.py:96-124 | the adapter answers and stores as the deduplicating channel does: same key and message, same receipt; same key and other message, an error |
| `SendWorkflow.CommercialActionSendWorkflow.ClaimForSend` | src/shema_platform/platform/postgres_repositories.py:943-1017 | which actions can be claimed, with which error otherwise, and what the claim writes |
| `SendWorkflow.CommercialActionSendWorkflow.Admit` | src/shema_platform/application/commercial_execution.py:164-222 | the first unit of work: replay, reservation and claim, or nothing at all |
| `SendWorkflow.CommercialActionSendWorkflow.Complete` | src/shema_platform/application/commercial_execution.py:242-316 | the second unit of work: completion of record, action and event, or nothing at all |
| `SendWorkflow.CommercialActionSendWorkflow.QuarantineUnknownEffect` | src/shema_platform/application/commercial_execution.py:61-145 | the quarantine unit of work: FAILED only by the lease holder, quarantine record and event either way |
| `SendWorkflow.CommercialActionSendWorkflow.Deliver` | src/shema_platform/application/commercial_execution.py:224-316 | behind the claim: a reply is completed, a lost reply is quarantined whether or not the message left, a rejected message changes nothing |
| `SendWorkflow.CommercialActionSendWorkflow.Execute` | src/shema_platform/application/commercial_execution.py:147-316 | an uninterrupted call, also one whose adapter loses the outcome, does what the protocol steps do to tables and channel, and answers exactly when they do |
| `Idempotency.HistoryExtends` | src/shema_platform/foundation/idempotency.py:26-53 | over every history of calls, records stay, hashes and done results are written once; an empty or pending reference is not done |
| `Idempotency.CompletionIsFinalIff` | src/shema_platform/foundation/idempotency.py:37-53 | a completion is final, whatever follows, exactly when what it answers is done; with an empty or pending reference the next completion overwrites it |
| `Idempotency.LifeOfAKey` | src/shema_platform/foundation/idempotency.py:26-53 | what reserving and completing answer and write before and after the first reservation of a key, with the same and with another hash |
| `Idempotency.IdempotencyStore.Reserve` | src/shema_platform/foundation/idempotency.py:26-35 | what a reservation answers and writes, and that a conflict writes nothing |
| `Idempotency.IdempotencyStore.Complete` | src/shema_platform/foundation/idempotency.py:37-53 | what a completion answers and writes, also with an open reference, and that a conflict writes nothing |
| `Circuit.AdmissionsSpaced` | src/shema_platform/platform/public_intake_postgres.py:82-150 | what the row remembers of all admissions, for any nondecreasing arrivals: the open window, and admissions a window apart |
| `Circuit.CounterWithinLimit` | src/shema_platform/platform/public_intake_postgres.py:82-150 | the counter never exceeds the limit |
| `Circuit.CircuitBound` | src/shema_platform/platform/public_intake_postgres.py:82-150 | any window-long half-open interval holds at most 2*limit-2 admissions (one when the limit is 1) |
| `Circuit.BoundIsAttained` | src/shema_platform/platform/public_intake_postgres.py:82-150 | for every limit of at least 2 some traffic reaches that bound |
| `Budget.SlotCountsGrants` | src/shema_platform/platform/public_intake_postgres.py:560-604 | the counter of a slot is the number of uses granted in its window, and stays within the limit |
| `Budget.BudgetBound` | src/shema_platform/platform/public_intake_postgres.py:560-604 | in any window-long interval a client is granted at most twice its limit, in whatever order the uses come; at most its limit if the window is one second |
| `Budget.BudgetIsAttained` | src/shema_platform/platform/public_intake_postgres.py:560-604 | for every limit and every window of at least two seconds some uses reach that bound |
| `Preflight.FollowUpsAgreeIff` | src/shema_platform/application/public_intake.py:464-499 | for any snapshot the two orders of tests choose the same follow-up exactly when the provider flag does not come with a decision of its own kind |
| `Preflight.FollowUpsAgree` | src/shema_platform/application/public_preflight.py:113-262 | every snapshot a preflight can return, also from a cache, gives the same follow-up on both sides |
| `Preflight.PreflightIsExplained` | src/shema_platform/application/public_preflight.py:113-262 | whatever was asked before, every flag of a snapshot has its cause in the query, or in an earlier heard one with its cache key while that is fresh, and every cause its flag; the flags determine the decision; a preflight gives up only without budget |
| `Intake.CompletedExactlyWhenCommitted` | src/shema_platform/platform/public_intake_postgres.py:172-283 | a reservation is completed exactly when its request exists, with the same request id and payload; a key has one request id |
| `Intake.RequestIsWriteOnce` | src/shema_platform/platform/public_intake_postgres.py:362-430 | a committed request is never replaced; only its projection marker is added, once |
| `Intake.AnswersAgree` | src/shema_platform/application/public_intake.py:275-514 | all clients answered under one key got the same request and had submitted its payload |
| `Intake.TakeoverDisplaces` | src/shema_platform/platform/public_intake_postgres.py:190-215 | taking over an expired reservation displaces its owner |
| `Intake.DisplacedForever` | src/shema_platform/platform/public_intake_postgres.py:246-283 | a displaced owner never commits anything afterwards |
| `Intake.DisplacedOutcome` | src/shema_platform/application/public_intake.py:415-463 | the commit of a displaced owner changes nothing, and answers only from a request committed meanwhile with its payload |
| `Intake.DeadBranches` | src/shema_platform/application/public_intake.py:295-322 | the branches for a missing request, an unacquirable reservation, a duplicate id and an event without request are unreachable |
| `Intake.BacklogBound` | src/shema_platform/platform/public_intake_postgres.py:152-170 | in every reachable state at most maxPending+1 intake events are unpublished |
| `Intake.BacklogBoundIsAttained` | src/shema_platform/application/public_intake.py:429-499 | for every capacity of at most 2^128, submissions with keys and client names that the edge accepts leave maxPending+1 events unpublished |
| `Intake.AdmissionBound` | src/shema_platform/application/public_intake.py:357-362 | over every run on a nondecreasing clock, window-long intervals hold at most the circuit capacity of admitted submissions |
| `IntakeOutcomes.SubmissionBound` | src/shema_platform/application/public_intake.py:382-388 | over every run, at most the limit of submissions of one client come past the check within one aligned window, and at most twice the limit within any window-long interval |
| `IntakeOutcomes.ReserveOutcome` | src/shema_platform/platform/public_intake_postgres.py:172-244 | exactly when a submission takes the reservation of its key, is answered from it, or changes nothing |
| `IntakeOutcomes.CheckOutcome` | src/shema_platform/application/public_intake.py:355-388 | exactly when a submission comes past the check: circuit not tripped, room in the outbox, no request under its key, and fewer than the limit of its client in this window, counted from the history |
| `IntakeOutcomes.CommitOutcome` | src/shema_platform/application/public_intake.py:415-499 | exactly when a screened submission is stored, and every table afterwards, events included |
| `IntakeOutcomes.ProjectionOutcome` | src/shema_platform/platform/public_intake_postgres.py:804-973 | a projection leaves the context and exactly the notifications owed, with snapshot and severity, and keeps those that were there |
| `IntakeOutcomes.MarkOutcome` | src/shema_platform/platform/public_intake_postgres.py:547-558 | the marker of a projected request is written unless it is there |
| `IntakeOutcomes.ClaimOutcome` | src/shema_platform/platform/public_intake_postgres.py:466-521 | which events can be claimed, and the lease and attempt number they get |
| `IntakeOutcomes.PublishOutcome` | src/shema_platform/platform/public_intake_postgres.py:523-545 | a dispatcher publishes exactly while its lease is live, with the marker of a notifying request |
| `IntakeOutcomes.SubmissionErrors` | src/shema_platform/application/public_intake.py:295-463 | exactly when a submission is turned away for which reason at each of its three transactions |
| `Intake.NotificationsAreExact` | src/shema_platform/platform/public_intake_postgres.py:804-973 | however often a request is projected, its notifications are the same fixed set of at most two |
| `Intake.PublishedMeansProjected` | src/shema_platform/platform/public_intake_postgres.py:1031-1079 | a published notifying event implies that its request is projected, marked and notified |
| `Intake.EventsMatchNotices` | src/shema_platform/application/public_intake.py:464-499 | with producible snapshots, the follow-up events of submit and the notifications of the projection are of the same kinds |
| `Intake.UndisturbedSubmission` | src/shema_platform/application/public_intake.py:275-514 | an undisturbed submission commits, also over the reservation of a crashed one: stored, answered, projected and notified |
| `Intake.ReserveKeepsTables` | src/shema_platform/platform/public_intake_postgres.py:172-244 | a reservation keeps completed reservations and stored requests in step |
| `Intake.CommitKeepsTables` | src/shema_platform/application/public_intake.py:415-463 | a commit keeps completed reservations and stored requests in step |
| `Intake.ProjectKeepsShema` | src/shema_platform/platform/public_intake_postgres.py:804-973 | one more projection of a stored request leaves exactly the notifications it is owed |
| `IntakeRepository.PublicIntakeRepository.ReserveIdempotency` | src/shema_platform/platform/public_intake_postgres.py:172-244 | the conditional upsert and its answers, error by error |
| `IntakeRepository.PublicIntakeRepository.ConsumeGlobalCircuit` | src/shema_platform/platform/public_intake_postgres.py:82-150 | the in-place update of the circuit row is the admission function of Circuit |
| `IntakeRepository.PublicIntakeRepository.ConsumeBudget` | src/shema_platform/platform/public_intake_postgres.py:560-604 | the in-place update of the rate table is the function of Budget |
| `IntakeRepository.PublicIntakeRepository.Check` | src/shema_platform/application/public_intake.py:357-388 | the second unit of work: circuit, capacity, existing request, budget, or nothing at all |
| `IntakeRepository.PublicIntakeRepository.CommitRequest` | src/shema_platform/application/public_intake.py:415-499 | the third unit of work: request, events and completion, or nothing at all |
| `IntakeRepository.PublicIntakeRepository.AppendEvents` | src/shema_platform/application/public_intake.py:436-499 | the events of a new request, appended in order, leave existing ones alone |
| `IntakeRepository.PublicIntakeRepository.CompleteIdempotency` | src/shema_platform/platform/public_intake_postgres.py:246-283 | completion is fenced by the request id and idempotent for its owner |
| `IntakeRepository.PublicIntakeRepository.MarkProjected` | src/shema_platform/platform/public_intake_postgres.py:547-558 | the projection marker is written once |
| `IntakeRepository.PublicIntakeRepository.MarkOutboxPublished` | src/shema_platform/platform/public_intake_postgres.py:523-545 | only the holder of a live lease publishes, and an event is published once |
| `IntakeRepository.PublicIntakeRepository.Publish` | src/shema_platform/platform/public_intake_postgres.py:1059-1070 | marker and publication commit together or not at all |
| `IntakeRepository.PublicIntakeRepository.ClaimPending` | src/shema_platform/platform/public_intake_postgres.py:466-521 | claiming the selected rows is a run of claim steps |
| `IntakeRepository.PublicRequestProjection.Project` | src/shema_platform/platform/public_intake_postgres.py:804-973 | the statement-by-statement projection is the upsert and insert-if-absent of the protocol |
| `IntakeRepository.PublicIntakeOutboxDispatcher.DispatchPending` | src/shema_platform/platform/public_intake_postgres.py:1031-1079 | wherever the dispatch loop stops, the tables are where a run of the protocol leaves them; what it counts are the notifying events |
| `IntakeRepository.PublicIntakeService.Submit` | src/shema_platform/application/public_intake.py:275-334 | an uninterrupted submission leaves repository and projection where the protocol leaves them, and answers exactly when the protocol does |
| `IntakeRepository.PublicIntakeService.SubmitReserved` | src/shema_platform/application/public_intake.py:336-514 | the same for the part behind the reservation, with a failing preflight and a failing projection |
| `MonitoringBatch.ObservationBound` | src/shema_platform/application/counterparty_monitoring_worker.py:275-336 | across all workers, crashes and reclaims the provider is asked at most maxAttempts times per monitor |
| `MonitoringBatch.OneRecording` | src/shema_platform/application/counterparty_monitoring.py:466-584 | at most one snapshot is recorded per monitor of the batch, stored, and as the provider answered it |
| `MonitoringBatch.CompletedMeansRecorded` | src/shema_platform/application/counterparty_monitoring_worker.py:296-307 | a COMPLETED item has its recorded observation |
| `MonitoringBatch.TerminalItemStays` | src/shema_platform/platform/counterparty_monitoring_batch_postgres.py:201-287 | COMPLETED and FAILED items are never touched again |
| `MonitoringBatch.CompletedBatchIsFinished` | src/shema_platform/platform/counterparty_monitoring_batch_postgres.py:312-351 | a COMPLETED batch is wholly collected and all its items are terminal |
| `MonitoringBatch.CompletedBatchStays` | src/shema_platform/platform/counterparty_monitoring_batch_postgres.py:312-351 | a COMPLETED batch stays COMPLETED with the same completion time and items |
| `MonitoringBatch.PagesHoldExactlyTheDue` | src/shema_platform/platform/counterparty_monitoring_batch_postgres.py:83-141 | for a fixed schedule the pages hold every initially due monitor exactly once, in order, and nothing else |
| `MonitoringBatch.PageTakesTheFirst` | src/shema_platform/platform/counterparty_monitoring_batch_postgres.py:93-103 | a page is the first ids in ascending order, as many as there are up to the limit |
| `MonitoringBatch.RecordsExactlyIfRecordable` | src/shema_platform/application/counterparty_monitoring.py:478-584 | exactly when an observation is recorded or found recorded |
| `MonitoringOutcomes.UndisturbedItem` | src/shema_platform/application/counterparty_monitoring_worker.py:275-385 | an undisturbed item ends COMPLETED, RETRYABLE or FAILED, each exactly when; a retry waits for its backoff, and so does the next check of the monitor; with everything that is written |
| `MonitoringOutcomes.FailureOutcome` | src/shema_platform/application/counterparty_monitoring_worker.py:360-400 | a failure settles the item exactly while its lease is live: RETRYABLE, until `now` plus the doubled backoff up to the maximum, if and only if it is retryable and not the last attempt, else FAILED |
| `MonitoringOutcomes.RetryWaits` | src/shema_platform/platform/counterparty_monitoring_batch_postgres.py:143-199 | over every run without a claim at its time, a RETRYABLE item is left alone; a claim before its time changes nothing and one at it takes the item |
| `MonitoringOutcomes.ClaimOutcome` | src/shema_platform/platform/counterparty_monitoring_batch_postgres.py:143-199 | exactly which items can be claimed, and what a claim writes |
| `MonitoringOutcomes.RecordOutcome` | src/shema_platform/application/counterparty_monitoring.py:466-584 | exactly when an answer is recorded, found recorded or rejected, and what is written |
| `MonitoringOutcomes.CompletionOutcome` | src/shema_platform/platform/counterparty_monitoring_batch_postgres.py:201-232 | a recorded claim completes its item exactly while its lease is live |
| `MonitoringOutcomes.PageOutcome` | src/shema_platform/platform/counterparty_monitoring_batch_postgres.py:83-141 | which monitors a page adds, as what items, and the cursor, status and completeness of the batch afterwards |
| `MonitoringOutcomes.FinalOutcome` | src/shema_platform/platform/counterparty_monitoring_batch_postgres.py:312-351 | the batch is done exactly if it is collected and no item waits, runs or is to be retried; it keeps its first completion time |
| `MonitoringOutcomes.SettlementErrors` | src/shema_platform/application/counterparty_monitoring.py:466-584 | exactly when a settlement or a recording is rejected for which reason |
| `MonitoringWorker.CounterpartyMonitoringBatchRepository.MaterializeDueItems` | src/shema_platform/platform/counterparty_monitoring_batch_postgres.py:83-141 | the page loop inserts absent items only and moves cursor, status and completeness as the protocol says |
| `MonitoringWorker.CounterpartyMonitoringBatchRepository.ClaimItems` | src/shema_platform/platform/counterparty_monitoring_batch_postgres.py:143-199 | the claim loop is a run of claim steps and returns exactly the claims of the claimable rows |
| `MonitoringWorker.CounterpartyMonitoringBatchRepository.CompleteItem` | src/shema_platform/platform/counterparty_monitoring_batch_postgres.py:201-232 | completion by the lease holder only |
| `MonitoringWorker.CounterpartyMonitoringBatchRepository.RecordFailure` | src/shema_platform/application/counterparty_monitoring_worker.py:360-400 | failure transition and monitor error together or not at all |
| `MonitoringWorker.CounterpartyMonitoringBatchRepository.RecordObservation` | src/shema_platform/application/counterparty_monitoring.py:466-584 | the once-only recording: reservation, snapshot, monitor and completion, or nothing at all |
| `MonitoringWorker.CounterpartyMonitoringBatchRepository.FinalizeBatch` | src/shema_platform/platform/counterparty_monitoring_batch_postgres.py:312-351 | COMPLETED exactly when collected with nothing unfinished, keeping the first completion time |
| `MonitoringWorker.CounterpartyMonitoringWorker.ProcessItem` | src/shema_platform/application/counterparty_monitoring_worker.py:275-336 | processing an item, with every failure path, is a run of protocol steps |
| `MonitoringWorker.RunOnce` | src/shema_platform/application/counterparty_monitoring_worker.py:197-255 | one uninterrupted cycle is a run of protocol steps, and reports the final batch |
| `MonitoringWorker.RunUntilQuiescent` | src/shema_platform/application/counterparty_monitoring_worker.py:257-273 | the loop stops at the first cycle that completes the batch or claims nothing, and never exceeds its number of cycles |
| `MonitoringWorker.CyclesKeepTheBounds` | src/shema_platform/application/counterparty_monitoring_worker.py:197-336 | after any number of cycles the protocol's invariant and the bound on questions to the provider hold |
| `MonitoringWorker.QueryPage` | src/shema_platform/platform/counterparty_monitoring_batch_postgres.py:93-103 | the ordered, limited query returns exactly the page of the protocol |
| `CounterpartyChanges.Detect` | src/shema_platform/application/counterparty_monitoring.py:224-252 | the loop finds exactly the shared fields that differ, and their severity |
| `CounterpartyChanges.ChangesAreComplete` | src/shema_platform/application/counterparty_monitoring.py:224-236 | applying the changes gives the later payload exactly when both have the same fields |
| `CounterpartyChanges.HistoryRetells` | src/shema_platform/application/counterparty_monitoring.py:224-236 | the change events of a monitor, applied in order, lead from its first payload to its last |
| `CounterpartyChanges.SeverityOutcome` | src/shema_platform/application/counterparty_monitoring.py:224-252 | exactly which fields have changed, and which of the four severities that has, by the two payloads |
| `Jobs.BackoffDoublesToMaximum` | src/shema_platform/foundation/recovery.py:21-24 | the delay starts at the initial one, doubles per attempt up to the maximum, and stays there |
| `JobOutcomes.BackoffIsKept` | src/shema_platform/application/job_runner.py:176-224 | after a retryable failure of attempt n at time t every later claim of the job comes at t plus min(initial * 2^(n-1), maximum) or after, over every run whose claims of the job are in the order of their times |
| `JobOutcomes.RetryWaits` | src/shema_platform/platform/postgres_repositories.py:688-739 | until its time no claim takes a job that waits and nothing changes it, over every run; a claim at its time takes it |
| `JobOutcomes.FailureOutcome` | src/shema_platform/application/job_runner.py:176-224 | exactly when a failure is written, what it makes of the row, and that its event carries the time of the retry |
| `JobOutcomes.CompletionOutcome` | src/shema_platform/application/job_runner.py:226-278 | exactly when a completion is written, with its event |
| `JobOutcomes.ClaimOutcome` | src/shema_platform/platform/postgres_repositories.py:688-739 | exactly which jobs can be claimed, and what a claim writes |
| `JobOutcomes.RenewOutcome` | src/shema_platform/platform/postgres_repositories.py:741-773 | a live lease is renewed, and no other |
| `JobOutcomes.EnqueueOutcome` | src/shema_platform/platform/postgres_repositories.py:638-672 | what is enqueued is new under id and key, or there already |
| `JobOutcomes.OutcomeErrors` | src/shema_platform/application/job_runner.py:176-278 | exactly when an outcome is rejected for which reason |
| `Jobs.AttemptsIncrease` | src/shema_platform/platform/postgres_repositories.py:688-739 | every claim of a job has a larger attempt number than all before it |
| `Jobs.OwnerKnowsTheAttempt` | src/shema_platform/platform/postgres_repositories.py:688-739 | the attempt of a running row is that of its owner in flight |
| `Jobs.TerminalStays` | src/shema_platform/platform/postgres_repositories.py:775-845 | succeeded and failed are absorbing |
| `Jobs.OutcomeEvents` | src/shema_platform/application/job_runner.py:176-278 | succeeded exactly when there is one job.completed event, failed exactly when there is one job.failed event, under the last attempt |
| `Jobs.RetryEventBound` | src/shema_platform/application/job_runner.py:186-205 | at most maxAttempts-1 job.retry_scheduled events per job |
| `Jobs.OutcomeCommitsExactlyIfHeld` | src/shema_platform/application/job_runner.py:176-278 | no event id ever collides: an outcome commits exactly while the lease is held, with one new event |
| `Jobs.CrashRecovery` | src/shema_platform/platform/postgres_repositories.py:688-845 | an expired job is reclaimed under the next attempt; the former worker is rejected, the new one completes |
| `Jobs.KeyNamesOneJob` | db/migrations/0006_job_execution.sql:11 | over every run an idempotency key names one job, and a job keeps its key |
| `JobRunner.JobRepository.Enqueue` | src/shema_platform/platform/postgres_repositories.py:638-672 | enqueueing again returns the same job or reports a collision; a key that another job has is rejected |
| `JobRunner.JobRepository.ClaimNext` | src/shema_platform/platform/postgres_repositories.py:688-739 | what a claim writes, attempt number included |
| `JobRunner.JobRepository.Renew` | src/shema_platform/platform/postgres_repositories.py:741-773 | only a live owner renews |
| `JobRunner.JobRepository.Complete` | src/shema_platform/application/job_runner.py:226-278 | row and event together or not at all |
| `JobRunner.JobRepository.RecordFailure` | src/shema_platform/application/job_runner.py:176-224 | row and event together or not at all, with the retry decision of the claim |
| `JobRunner.JobHandlerContext.RenewLease` | src/shema_platform/application/job_runner.py:33-39 | renewing replaces the record the handler holds |
| `JobRunner.JobRunner.RunNext` | src/shema_platform/application/job_runner.py:107-165 | claim, renewals and outcome are a run of protocol steps |
| `Outbox.FirstCard` | src/shema_platform/foundation/outbox.py:66-101 | a selection has as many events as there are eligible ones, up to the limit |
| `Outbox.ClaimsAgreeIff` | src/shema_platform/platform/postgres_repositories.py:459-511 | reference and table select the same events exactly when all eligible events have occurred or at least the limit have; then they stay in agreement |
| `Outbox.MarksAgree` | src/shema_platform/platform/postgres_repositories.py:513-550 | publication is accepted by both or by none, with the same answer |
| `Outbox.AppendsAgreeIff` | src/shema_platform/platform/postgres_repositories.py:393-439 | appends agree exactly when a published event is not appended again |
| `Outbox.HistoriesAgree` | src/shema_platform/foundation/outbox.py:52-132 | on every history whose claims see only past events the two stay in agreement |
| `Outbox.LeasesNeverOverlap` | src/shema_platform/foundation/outbox.py:66-101 | two leases of one event never overlap, whatever the clocks |
| `Outbox.PublishedOnceAndHandedOver` | src/shema_platform/application/outbox_dispatcher.py:40-90 | an event is published at most once, and only after it was handed over as appended |
| `Outbox.EntryIsWriteOnce` | src/shema_platform/foundation/outbox.py:103-132 | an appended event is never altered and publication is final |
| `Outbox.TableReachable` | src/shema_platform/platform/postgres_repositories.py:459-550 | whatever eligible rows the claims take, the table always agrees with a reachable store of the reference |
| `Outbox.SelectedIsChoosable` | src/shema_platform/platform/postgres_repositories.py:459-511 | what the query selects when no row is locked is one of the choices of a claim |
| `Outbox.TableLeasesNeverOverlap` | src/shema_platform/platform/postgres_repositories.py:459-511 | over every run of dispatchers on the table, whatever locked rows they skip and whatever their clocks, two leases of one event never overlap |
| `Outbox.TablePublishesOnce` | src/shema_platform/platform/postgres_repositories.py:513-550 | on the table, too, an event is published at most once, and only after it was handed over as appended, whatever rows the claims take |
| `Outbox.RowIsWriteOnce` | src/shema_platform/platform/postgres_repositories.py:393-550 | an appended row is never altered and its time of publication is written once |
| `OutboxOutcomes.ClaimOutcome` | src/shema_platform/foundation/outbox.py:66-101 | a claim leases the first free events in the order of occurrence and id, as many as there are up to the limit, and leaves all others alone |
| `OutboxOutcomes.SqlClaimOutcome` | src/shema_platform/platform/postgres_repositories.py:459-511 | the same on the table, among the rows that have occurred |
| `OutboxOutcomes.ChoiceOutcome` | src/shema_platform/platform/postgres_repositories.py:459-511 | which rows a claim may take when others are locked |
| `OutboxOutcomes.AppendOutcome` | src/shema_platform/foundation/outbox.py:52-59 | exactly when an append is accepted on either side, and what it writes |
| `OutboxOutcomes.PublishOutcome` | src/shema_platform/foundation/outbox.py:103-132 | only the holder of a live lease publishes, on either side, and what that writes |
| `OutboxOutcomes.PublishErrors` | src/shema_platform/foundation/outbox.py:103-132 | exactly when the reference rejects a publication for which reason |
| `OutboxStore.OutboxStore.AppendEvent` | src/shema_platform/foundation/outbox.py:52-59 | appending is idempotent for the same event and reports any other |
| `OutboxStore.OutboxStore.ClaimPending` | src/shema_platform/foundation/outbox.py:66-101 | the loop leases exactly the first eligible events in order and leaves all others alone |
| `OutboxStore.OutboxStore.MarkPublished` | src/shema_platform/foundation/outbox.py:103-132 | only the holder of a live lease publishes |
| `OutboxStore.OutboxDispatcher.DispatchPending` | src/shema_platform/application/outbox_dispatcher.py:40-90 | wherever the loop stops, store and publisher are where a run of the protocol leaves them; the counter counts publications |
| `Amounts.RoundIsNearest` | src/shema_platform/domain/money.py:24-28 | the rounded amount is the nearest, and of two equally near ones the one further from zero |
| `Amounts.RoundIsOdd` | src/shema_platform/domain/money.py:24-28 | rounding is symmetric around zero |
| `OrderTotals.ComputeTotal` | src/shema_platform/domain/order.py:59-63 | the accumulating loop computes the sum of the rounded lines or reports differing currencies |
| `OrderTotals.TotalIsClose` | src/shema_platform/domain/order.py:59-63 | the total of n lines is within half a cent per line of the exact sum |
| `OrderTotals.BoundIsAttained` | src/shema_platform/domain/order.py:59-63 | that bound is attained for every n |
| `OrderTotals.TotalPermutes` | src/shema_platform/domain/order.py:59-63 | the order of the lines does not matter, not even for the error |
| `Amounts.KeepsEightDecimals` | db/migrations/0004_commercial_execution.sql:44 | the quantity column keeps exactly the values of at most eight decimals, and keeps again what it has kept |
| `OrderTotals.ReloadKeepsTotalIff` | src/shema_platform/platform/postgres_repositories.py:1215-1232 | the total survives insertion and reloading exactly when the line totals over the kept quantities add up to those over the given ones, or there is no total |
| `OrderTotals.EightDecimalsKeepTotal` | src/shema_platform/platform/postgres_repositories.py:1215-1232 | with quantities of at most eight decimals the lines are kept as they are and the total survives |
| `OrderTotals.ReloadMovesTotal` | db/migrations/0004_commercial_execution.sql:44 | an order over 1.40 that is reloaded as one over 1.00, and a quantity that cannot be inserted |
| `OrderTotals.StoredFormIff` | src/shema_platform/platform/postgres_repositories.py:1215-1232 | inserting and reloading gives the same lines exactly when they are sorted by line id with quantities of at most eight decimals |
| `OrderTotals.ReloadedStays` | src/shema_platform/platform/postgres_repositories.py:1335-1339 | saving an order again leaves its lines as they were |
| `Amounts.MoneyOutcome` | src/shema_platform/domain/money.py:30-43 | amounts of one currency add up, and only those; a positive quantity multiplies, to the nearest cent, and only such a one |
| `Economics.ComputeSummary` | src/shema_platform/domain/economics.py:51-70 | the accumulating loop computes revenue and costs or reports a foreign currency |
| `Economics.SummaryIsAdditive` | src/shema_platform/domain/economics.py:51-70 | a joint summary exists exactly when both parts have one, and is their sum |
| `Economics.SummaryPermutes` | src/shema_platform/domain/economics.py:51-70 | the order of the entries does not matter |
| `Economics.SummaryIff` | src/shema_platform/domain/economics.py:51-70 | there is a summary exactly if all entries are in the currency |
| `Economics.EntryMoves` | src/shema_platform/domain/economics.py:60-68 | for each kind of entry which of the two sums it moves, and by how much |
| `Calendar.StepIsLater` | src/shema_platform/domain/repeat_order.py:31-44 | every cadence step is later by at least a day |
| `Calendar.MonthStep` | src/shema_platform/domain/repeat_order.py:40-44 | a month step advances the month index by the interval and keeps the day if the month has it |
| `Calendar.StepIsMonotoneIff` | src/shema_platform/domain/repeat_order.py:31-44 | a step keeps the order of two instants exactly unless both overshoot one month with reversed times of day |
| `Calendar.MonotonicityFails` | src/shema_platform/domain/repeat_order.py:40-44 | a concrete pair of instants whose order a month step reverses |
| `Calendar.DatesAreMonotone` | src/shema_platform/domain/repeat_order.py:31-44 | dates, and instants in order of time of day, always keep their order |
| `Calendar.DayStepsCompose` | src/shema_platform/domain/repeat_order.py:35-38 | k day or week steps are one step of k intervals |
| `Calendar.MonthSteps` | src/shema_platform/domain/repeat_order.py:40-44 | after k month steps the day is the least of the starting day and the lengths of all months visited |
| `Calendar.MonthStepsComposeIff` | src/shema_platform/domain/repeat_order.py:40-44 | k month steps are one step of k intervals exactly when no month on the way is too short |
| `Calendar.MonthStepsCompose` | src/shema_platform/domain/repeat_order.py:40-44 | up to day 28 they always are |
| `Calendar.StepCounts` | src/shema_platform/domain/repeat_order.py:35-38 | a day or week step moves the number of the day, in closed form, on by the interval or seven times the interval |
| `Calendar.NumbersOrder` | src/shema_platform/domain/repeat_order.py:35-38 | different dates have different numbers, in the order of the dates |
| `Calendar.WeekIsSevenDays` | src/shema_platform/domain/repeat_order.py:37-38 | a week step of interval n is 7 * n steps of one day |
| `RepeatOrderRuns.PendingInOnePlan` | src/shema_platform/application/repeat_order.py:184-284 | a pending order is a draft repeat order of that plan and pending in no other |
| `RepeatOrderRuns.DraftExactlyWhilePending` | src/shema_platform/application/repeat_order.py:286-395 | a repeat order is a draft exactly while its plan has it pending |
| `RepeatOrderRuns.ExactlyOneRevenueEntry` | src/shema_platform/application/repeat_order.py:349-362 | a draft has no revenue entry, a confirmed repeat order exactly one, over the total of the lines that are kept, which are its validated lines reloaded |
| `RepeatOrderRuns.BooksValidatedTotalIff` | src/shema_platform/application/repeat_order.py:349-362 | the booked amount is the total that was validated exactly when keeping eight decimals does not change the sum |
| `RepeatOrderRuns.RevenueIsConserved` | src/shema_platform/application/repeat_order.py:349-362 | the ledger adds up to the totals of the confirmed repeat orders as they are kept, each once |
| `RepeatOrderRuns.ValidatedRevenueIsConserved` | src/shema_platform/application/repeat_order.py:349-362 | and to the totals that were validated, when these have quantities of at most eight decimals |
| `RepeatOrderRuns.UnchangedValidationConfirmsIff` | src/shema_platform/application/repeat_order.py:324-333 | a draft confirmed with the validation it was created with commits exactly when the lines are in stored form and in one currency |
| `RepeatOrderRuns.RevisionAndDate` | src/shema_platform/platform/postgres_repositories.py:1437-1540 | the revision is one plus the saved changes; the date is the date last given moved on by skips and active confirmations since |
| `RepeatOrderRuns.LineageIsImmutable` | src/shema_platform/platform/postgres_repositories.py:1473-1490 | source, owner, identity and cadence never change; revisions never fall; cancelled stays cancelled |
| `RepeatOrderRuns.KeysAreWriteOnce` | src/shema_platform/application/repeat_order.py:611-648 | a key is written once, and a command repeated under it changes nothing however much happened in between |
| `RepeatOrderRuns.CommitsIffCurrent` | src/shema_platform/platform/postgres_repositories.py:1437-1540 | a command that holds its key commits exactly when its plan is still as it was read and its own checks pass; any other writes nothing, and the plan has changed exactly when its revision has |
| `RepeatOrderRuns.ConfirmationOutcome` | src/shema_platform/application/repeat_order.py:336-370 | the exact outcome of a confirmation that holds its key, of an order that has a total, after whatever happened since it read: commit if the plan is as read, else a duplicate entry, a rejected status or a revision conflict, as the order is confirmed, further on or still a draft |
| `RepeatOrderRuns.OverlappingCommandsExclude` | src/shema_platform/platform/postgres_repositories.py:1437-1540 | of two commands that have read one plan, the second changes nothing once the first has committed |
| `RepeatOrderRuns.OverlappingCommandsCollide` | src/shema_platform/platform/postgres_repositories.py:1473-1477 | the second change of a plan raises the revision conflict, the second confirmation of an order the duplicate revenue entry |
| `RepeatOrderRuns.RacingRequestIsAnswered` | src/shema_platform/application/repeat_order.py:229-240 | of two processes that create for one request, the second answers with what the first created |
| `RepeatOrderRuns.OrderReadLater` | src/shema_platform/application/repeat_order.py:301-315 | a confirmation that reads its order later than its plan finds it there, no draft exactly when the plan has moved on from it, and otherwise as it was when the plan was read |
| `RepeatOrderRuns.SourceIsImmutable` | src/shema_platform/application/repeat_order.py:207-213 | the source order of a plan is there, completed, and never changes |
| `RepeatOrderRuns.DeadBranches` | src/shema_platform/application/repeat_order.py:184-395 | no command finds the source of a plan missing or not completed; a confirmation that reads plan and order together finds the order there and a draft; no writing part finds its plan or order missing, its lineage or lines changed, and only pause, resume, skip, cancel and edit are ever rejected by the plan |
| `RepeatOrderRuns.DanglingKeyIff` | src/shema_platform/application/repeat_order.py:611-648 | a command finds a dangling key exactly when the key is on file for the same request and names no id of the kind it answers with, that is, when a command of the other kind used it |
| `RepeatOrderRuns.DanglingKeyIsReachable` | src/shema_platform/application/repeat_order.py:631-648 | a key that created a plan and is then used to ask for an order does so |
| `RepeatOrderRuns.TransitionKeepsPlan` | src/shema_platform/domain/repeat_order.py:88-122 | every permitted transition keeps the plan in step with its history and leaves the pending order alone |
| `RepeatOrderOutcomes.OrdersWereApproved` | src/shema_platform/application/repeat_order.py:226-260 | every order on file is one of another workflow, or was proposed under a validation that was approved, asked for by the plan's owner who was admitted; its lines are those of the validation as they are kept |
| `RepeatOrderOutcomes.RevenueWasApproved` | src/shema_platform/application/repeat_order.py:328-362 | every revenue entry stems from a confirmation under a validation that was approved with exactly the lines of the order, asked for by the plan's owner who was admitted |
| `RepeatOrderOutcomes.PlansWereAsked` | src/shema_platform/application/repeat_order.py:121-155 | every plan was asked for by its owner, who was admitted, with this source and cadence |
| `RepeatOrderOutcomes.OnlyTheOwnerChanges` | src/shema_platform/application/repeat_order.py:493-559 | a plan is changed by its owner only, in a call that was admitted |
| `RepeatOrderOutcomes.ReadingOutcome` | src/shema_platform/application/repeat_order.py:115-512 | exactly when a command goes on to write and what it takes along, or is answered from its key |
| `RepeatOrderOutcomes.RefusalsOfPlans` | src/shema_platform/application/repeat_order.py:116-131 | exactly when a command on a plan is refused for which reason |
| `RepeatOrderOutcomes.RefusalsOfOrders` | src/shema_platform/application/repeat_order.py:198-333 | exactly when a proposal or a confirmation is refused for which reason |
| `RepeatOrderOutcomes.WritingOutcome` | src/shema_platform/application/repeat_order.py:133-559 | every table after the writing part of a command, in every case: what it is to write exactly if its plan is as it was read and that is admissible by itself, and otherwise as before |
| `RepeatOrderOutcomes.TransitionsAgree` | src/shema_platform/domain/repeat_order.py:88-160 | when a plan permits a change and what it is afterwards |
| `RepeatOrderOutcomes.LinesAgree` | src/shema_platform/platform/postgres_repositories.py:1184-1200 | an order is inserted exactly if it is new, its lines are kept with positive quantities, and no line id is in use |
| `RepeatOrderOutcomes.SavingOutcome` | src/shema_platform/platform/postgres_repositories.py:1241-1490 | what saving an order as confirmed, and a plan under the revision that was read, writes, and which of them is rejected for which reason |
| `RepeatOrderService.RepeatOrderService.InsertOrder` | src/shema_platform/platform/postgres_repositories.py:1184-1200 | the line-by-line insert succeeds exactly when order and line ids are new and every quantity is positive as it is kept; otherwise the first bad line decides the error |
| `RepeatOrderService.RepeatOrderService.Save` | src/shema_platform/platform/postgres_repositories.py:1437-1540 | the optimistic save: expected revision, immutable lineage, next revision |
| `RepeatOrderService.RepeatOrderService.Reserve` | src/shema_platform/platform/postgres_repositories.py:290-316 | reserving writes a new key, and otherwise answers with what the key refers to or reports another request |
| `RepeatOrderService.RepeatOrderService.SaveOrder` | src/shema_platform/platform/postgres_repositories.py:1241-1339 | which orders can be saved as confirmed, and with which error the others are rejected |
| `RepeatOrderService.RepeatOrderService.WritePlan` | src/shema_platform/application/repeat_order.py:133-182 | the writing part that creates a plan, or answers for a key that came to name another plan, or nothing at all |
| `RepeatOrderService.RepeatOrderService.CreatePlan` | src/shema_platform/application/repeat_order.py:104-182 | an undisturbed command that creates a plan does what its two parts do one after the other |
| `RepeatOrderService.RepeatOrderService.WriteOrder` | src/shema_platform/application/repeat_order.py:228-284 | the writing part that proposes the next order, or answers for a key that came to name another order, or nothing at all |
| `RepeatOrderService.RepeatOrderService.CreateNextRepeatOrder` | src/shema_platform/application/repeat_order.py:184-284 | an undisturbed command that proposes the next order does what its two parts do one after the other |
| `RepeatOrderService.RepeatOrderService.WriteConfirmation` | src/shema_platform/application/repeat_order.py:336-395 | the writing part that confirms an order and books its revenue, from what was read earlier, or nothing at all |
| `RepeatOrderService.RepeatOrderService.ConfirmRepeatOrder` | src/shema_platform/application/repeat_order.py:286-395 | an undisturbed confirmation does what its two parts do one after the other |
| `RepeatOrderService.RepeatOrderService.WriteChange` | src/shema_platform/application/repeat_order.py:514-559 | the writing part behind pause, resume, skip, cancel and edit, from the plan that was read earlier, or nothing at all |
| `RepeatOrderService.RepeatOrderService.MutatePlan` | src/shema_platform/application/repeat_order.py:493-559 | an undisturbed pause, resume, skip, cancel or edit does what its two parts do one after the other |
| `Activation.NeverAfterRollback` | src/shema_platform/foundation/provider_activation.py:58-92 | once an activation is rolled back no binding to it passes any gate again, on any replica |
| `Activation.RollbackClosesAll` | src/shema_platform/adapters/ai/gigachat_activation.py:271-310 | a rollback closes every binding in circulation at once |
| `Activation.BindingsAreCurrentOrEnded` | src/shema_platform/adapters/ai/gigachat_activation.py:328-376 | every binding in circulation is to the enabled activation or to a rolled back one |
| `Activation.CeilingsAgreeIff` | src/shema_platform/adapters/ai/gigachat_activation.py:394-407 | while a binding passes, cached and canonical ceilings agree exactly when the store can keep the cached ones |
| `Activation.DecisionsAgree` | src/shema_platform/adapters/ai/gigachat_activation.py:471-503 | then the cached and the canonical gate decide every request alike; over the exact store always |
| `Activation.ProviderRefreshes` | src/shema_platform/adapters/ai/gigachat_activation.py:328-376 | a successful provider call makes the cached ceilings the canonical ones |
| `Activation.CeilingsCanDiffer` | src/shema_platform/platform/provider_activation_postgres.py:42-93 | with ceilings of more than eight decimals the activating replica can admit what the canonical state refuses |
| `Activation.ProviderAnswers` | src/shema_platform/adapters/intelligence/dadata_activation.py:162-195 | exactly when a gate hands out a provider, model gate and lookup gate, and that a stale lookup gate drops its binding |
| `Activation.ReactivationRevivesIff` | src/shema_platform/adapters/ai/production_activation.py:348-362 | a binding passes after an activation exactly when it is to the same version and time under the same configuration |
| `ActivationOutcomes.DecisionOutcome` | src/shema_platform/adapters/ai/gigachat_activation.py:378-407 | a request is allowed exactly if its binding is active and its cost and duration are at most the ceilings in force, and exhausted exactly if one of them is above or there is none; for both model gates and the lookup gate |
| `ActivationOutcomes.AllowedWasActivated` | src/shema_platform/adapters/ai/gigachat_activation.py:394-407 | over every run, what is allowed keeps the ceilings of an admitted activation of its own token and configuration |
| `ActivationOutcomes.ActivateOutcome` | src/shema_platform/adapters/ai/gigachat_activation.py:138-269 | exactly when an activation wins, and what it sets |
| `ActivationOutcomes.RollbackOutcome` | src/shema_platform/adapters/ai/gigachat_activation.py:271-310 | exactly when a rollback ends an activation, and what it sets and forgets |
| `ActivationOutcomes.ActivationErrors` | src/shema_platform/adapters/ai/gigachat_activation.py:138-376 | exactly when an activation or a request for the provider is refused for which reason |
| `ActivationGates.ActivationStateStore.Activate` | src/shema_platform/foundation/provider_activation.py:52-56 | activation wins only over a disabled or missing state |
| `ActivationGates.ActivationStateStore.Rollback` | src/shema_platform/foundation/provider_activation.py:58-92 | the compare-and-set rollback |
| `ActivationGates.ProductionGate.Activate` | src/shema_platform/adapters/ai/gigachat_activation.py:138-269 | store, local state and binding change together or not at all |
| `ActivationGates.ProductionGate.Rollback` | src/shema_platform/adapters/ai/gigachat_activation.py:271-310 | store, local state and binding change together or not at all |
| `ActivationGates.ProductionGate.GetProvider` | src/shema_platform/adapters/ai/gigachat_activation.py:328-376 | the cached binding is kept, replaced or dropped as the protocol says |
| `ActivationGates.ProductionGate.Decide` | src/shema_platform/adapters/ai/gigachat_activation.py:378-407 | the decision on a request through a binding |
| `Search.Run` | src/shema_platform/domain/search.py:74-123 | the loop returns exactly the first limit hits of the filtered sequence deduplicated by first occurrence |
| `Search.SmallerLimitIsPrefix` | src/shema_platform/domain/search.py:120-123 | a smaller limit gives a prefix |
| `Search.SearchingAgain` | src/shema_platform/domain/search.py:74-123 | searching in the results accepts every hit in order; the result is the same exactly when no identifier is blank |
| `Search.NormalizeAgain` | src/shema_platform/domain/search.py:80-89 | normalising twice keeps key and acceptance and changes nothing but blank identifiers |
| `Search.SearchOutcome` | src/shema_platform/domain/search.py:74-123 | a search returns, cleaned and in order, exactly the hits that fit and are the first of their identity to fit, up to the limit |
| `Search.ContactsOutcome` | src/shema_platform/domain/search.py:80-89 | the contacts of a result are the trimmed ones that are not blank, in order |
| `Text.StripOutcome` | src/shema_platform/domain/search.py:80-89 | trimming takes blanks off both ends until there are none left |
| `Text.LowerOutcome` | src/shema_platform/domain/search.py:80-89 | lower-casing takes each capital letter to its small one and leaves the rest |
| `SearchRun.Execute` | src/shema_platform/application/search_run.py:167-264 | the bounded loop over the sources computes attempts, hits and completeness as specified; duplicate sources are rejected |
| `SearchRun.Accounting` | src/shema_platform/application/search_run.py:196-246 | every source has one attempt in order, counts add up to the collected candidates within the budget, and budget-limited attempts are exactly those out of budget |
| `SearchRun.CompleteMeansAllHeard` | src/shema_platform/application/search_run.py:248-258 | COMPLETE means every source was asked and answered; nothing was cut exactly when all offers fit the budget |
| `SearchRun.AttemptOutcome` | src/shema_platform/application/search_run.py:196-246 | what a source comes to by what the sources before it have used up of the budget |
| `SearchRun.VerdictOutcome` | src/shema_platform/application/search_run.py:248-258 | exactly when a run has which of the five verdicts |
| `Migrations.RunsAreSound` | src/shema_platform/platform/migrations.py:300-405 | over every sequence of applies and adoptions of whatever plans, the ledger is that of one history that only grows by extension, and that history is what has been executed, in order, with or without the baseline |
| `Migrations.CommitsIffExtends` | src/shema_platform/platform/migrations.py:428-447 | a plan is applied exactly when it extends the history migration by migration and the rest runs; an edited, renamed or missing migration changes nothing; a schema is adopted only onto an empty history |
| `Migrations.ApplyTwice` | src/shema_platform/platform/migrations.py:300-344 | a second apply commits and runs nothing |
| `Migrations.ApplyThenExtend` | src/shema_platform/platform/migrations.py:300-344 | a plan and then its extension give the ledger and run order of the extension alone |
| `Migrations.AdoptThenApply` | src/shema_platform/platform/migrations.py:346-405 | adopting and applying end in the ledger of a fresh apply and run only what follows the baseline |
| `Migrations.PrefixIff` | src/shema_platform/platform/migrations.py:428-447 | the ledger is a prefix of the plan exactly when versions are contiguous, known, and agree row by row |
| `Migrations.MigrationRunner.Apply` | src/shema_platform/platform/migrations.py:300-344 | the loop ends with the whole plan in the ledger or leaves everything unchanged, exactly when, and with which error for a ledger that does not fit |
| `Migrations.MigrationRunner.AdoptExistingSchema` | src/shema_platform/platform/migrations.py:346-405 | exactly when an existing schema is adopted, and what that writes |
| `AiRuntime.AtMostOneExecution` | src/shema_platform/application/ai_runtime.py:98-141 | over all runs with crashes and failures the provider is called at most once per key |
| `AiRuntime.CompletedNamesStoredRun` | src/shema_platform/application/ai_runtime.py:117-131 | a completed key names a stored run; clients answered under one key asked for the same and got the same run |
| `AiRuntime.PendingNeverCallsAgain` | src/shema_platform/application/ai_runtime.py:117-138 | a key left pending by a dead call leads to no further call and no answer |
| `AiRuntime.RecordsExtend` | src/shema_platform/foundation/idempotency.py:26-53 | a record goes from absent to pending to completed, with hash and result written once |
| `AiRuntime.UndisturbedExecution` | src/shema_platform/application/ai_runtime.py:98-141 | a first undisturbed call calls out once, stores its run and completes its key |
| `AiRuntime.BeginOutcome` | src/shema_platform/application/ai_runtime.py:98-131 | exactly when a call goes on, is answered from its key, or changes nothing, over every run |
| `AiRuntime.CallOutcome` | src/shema_platform/application/ai_runtime.py:132-141 | what a call writes after the provider has answered |
| `AiRuntime.IdempotentAIExecutionService.Execute` | src/shema_platform/application/ai_runtime.py:98-141 | an uninterrupted call leaves the tables where the protocol leaves them and answers exactly when the protocol records an answer |

## Left out

- Audit rows, telemetry, correlation ids and error redaction: they are written in the same units of work and never read back by the protocols.
- SQL text, drivers, JSON encoding, row mapping and schema checks other than those named: tables are maps.
- RBAC and policy evaluation: whether a command is admitted is a parameter of the step.
- Trimming of identifiers and keys at the edges, except in the search, and all non-ASCII letters and blanks.
- Decimal arithmetic is exact over `real`: the 28-digit context, values of 10^12 and more, which `numeric(20,8)` rejects, and the three decimals kept of a plan's capacity are not modelled; the eight decimals kept of quantities and activation ceilings are.
- `datetime` limits: years after 9999 and microsecond rounding of float delays.
- `CommercialActionRepository.save` as a step of the send protocol: no workflow calls it while an action is being sent.
- That no adapter call follows FAILED: a stale worker may still hold its old SENDING value; what is proved is that nothing is claimed or completed any more.
- A bound on job attempts: `claim_next` never looks at `max_attempts`, so crashes can raise the number without limit; retry events are bounded.
- The two statements of `finalize_batch` as separate steps: it counts the items before it locks the batch, and with an item collected in between the completion invariant would not hold.
- The change events of `record_observation` inside the batch protocol: whether their outbox event can be appended is a parameter; the changes themselves are in `CounterpartyChanges`.
- Concurrent processing inside one `run_once`: the class form processes the claims one after the other; the protocol allows every interleaving.
- The lookup budget of the preflight as part of the intake run, and the lookup of a preflight snapshot by its id: the snapshot is stored as a value in the request.
- Checksum rules of the identifiers in preflight and monitoring: whether a checksum holds is a parameter.
- `save_monitoring` and `save_favorite`: single-transaction inserts under an idempotency key, of the same kind as the repeat-order commands.
- `evaluate_search_quality`, order cancellation and failure, and other workflows that create orders: they enter as arbitrary orders.
- The reads of one repeat-order command as separate steps: key, plan and order are read in one. `RepeatOrderRuns.OrderReadLater` and `RepeatOrderRuns.SourceIsImmutable` say what a later read of the order finds: what the first would have, or a confirmation that is refused because the order is no draft any more.
- IntakeRepository.PublicIntakeRepository.ClaimPending: which eligible rows the ordered, limited query picks is a parameter, because rows that others have locked are skipped.
- IntakeRepository.PublicIntakeOutboxDispatcher.DispatchPending: takes the claimed events as a parameter and one clock value for the whole loop.
- JobRunner.JobRepository.ClaimNext: which due row the query picks is a parameter, for the same reason.
- MonitoringWorker.RunOnce: processes the claims of a cycle one after the other, at one clock value.
- Search.Run: trimming and lower-casing cover ASCII characters only.
- Text.StripOutcome: covers ASCII blanks only.
- Text.LowerOutcome: covers ASCII letters only.
- Search.SearchingAgain: trimming and lower-casing cover ASCII characters only.
- Search.NormalizeAgain: trimming and lower-casing cover ASCII characters only.
- RepeatOrderRuns.RevisionAndDate: does not model time zones; dates are wall-clock values in one zone.
- Provider HTTP clients, prompt rendering, OIDC, HTTP edge, web and service workers, research gateway, identity directory, evidence intake, readiness and release checks.
