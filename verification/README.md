# ScaleQueue: durable delivery, verified

ScaleQueue accepts jobs over HTTP, keeps them in MySQL together with an outbox of delivery intents and an
audit log, publishes the intents to a Redis stream, and lets Go workers claim, renew and finish jobs under
leases. The protocol does without several locks and tokens: outcomes are fenced by owner and generation but
not by attempt, the dispatcher deletes an intent on the strength of an unlocked read, and early deliveries
are acknowledged without being run. This project models the protocol and proves why that is sound, for any
number of jobs, workers, dispatchers, deliveries and steps, and for every interleaving. Where the code falls
short of what it is for, it gives the input and the exact condition.

## How the project is built

- `Tables`, `Transactions`: the three tables, and every SQL transaction as a function on them.
- `StoreOperations` (`Store.dfy`), `Working` (`Worker.dfy`), `Consuming` (`Consumer.dfy`), `Upgrade`: the
  programs' own step-by-step form - read, decide, update, insert, loop - proved to compute those functions.
- `Durability`: the invariant of the tables, kept by every transaction.
- `Protocol`, `Safety`: the whole system as a state machine (claims, heartbeats, handlers, panics, deadlines,
  split dispatch, lost replies, lost and duplicated deliveries, crashes, replays) and its invariant.
- `Answers`, `Outcomes`, `Progress`: what each operation answers and writes, read off the columns of its row and
  not off its code; what ProcessJob achieves; what every sound state of the system owes a delivery, a dead job, an
  accepted request.
- `JobMachine`, `Refinement`, `AuditLog`, `Guarantees`, `Attempts`, `Acknowledgement`, `RetryBudget`,
  `Idempotency`, `Recovery`: what follows for every run.
- `Runs`, `Execution`: putting runs together; every call of the worker's own ProcessJob, and every delivery
  handled, is such a run.
- `LeaseTiming`, `TimedRuns`: a healthy lease never lapses: the timed argument for one attempt, and the runs of
  the system that it covers.
- `Minimum`, `Dispatching`, `Fairness`: dispatching in id order, with the clock fixed and moving.
- `Backoff`: the delay arithmetic. `Pool`: owner names.
- `Sequences`: a fact about concatenation.
- `CanonicalJson`, `CanonicalProofs`, `Utf8`, `Requests`: the request printer, the bytes that are hashed, and
  request identity.

`dafny verify dfyconfig.toml` checks everything. Nothing here is executed.

## What is assumed

- A transaction is atomic at one instant of the database clock, and the clock never goes back. `Claim`,
  `Finish` and `requeueJob` hold the job's row lock; `FOR UPDATE SKIP LOCKED` gives a row to one dispatcher, not
  always the first, as it may pass over rows that another SELECT has scanned.
- Outbox rows are numbered in the order in which their transactions commit. The database numbers them at the
  INSERT, so a row with a smaller id may appear later and then counts among the older ones; only `Fairness`
  depends on this.
- A store call may commit although its caller sees an error, but not after the caller's worker has taken its
  next delivery: the row lock it holds orders it before any later transaction on that job. Renewals are the
  exception, as a heartbeat may outlive a panicked handler or be given up on; they may land at any later time.
- "Rows affected" is read as "rows matched".
- SHA-256 is free of collisions and job identifiers are fresh. A client identifier is Unicode text without a
  colon; what happens with a colon is stated exactly by `Requests.KeysCollide`. A header value reaches the
  controller as one code unit for each octet, without leading or trailing blanks (section 5.5 of RFC 9110).
- The stream returns only what was published, but may lose, repeat and reorder it.
- `XAUTOCLAIM` scans in id order, looks at up to ten entries for each one it may claim, and returns the next
  cursor.
- For `LeaseTiming`: every store round trip takes less than a third of the lease, ticks are served when they
  fall due, and times are whole microseconds.

## Findings

- A number beyond the range of a double is read as an infinity and printed as `null`. So {"k": 1e999} and
  {"k": null} are different requests with one hash (`Requests.OverflowCollides`), and a client that reuses its
  key with the second after the first gets the first job back and no conflict
  (`Idempotency.InfinityGoesUnnoticed`). Printing decides equality up to key order for a value exactly when it
  has no such number at any depth (`CanonicalProofs.DecidedExactlyIfFinite`,
  `Requests.RequestToldApartExactlyIfFinite`); for all values it decides equality of what is stored.
- Request keys join client and key with a colon. Two clients can reach one request key, by keys that the
  controller admits, exactly when one identifier is the other, a colon, and at most 126 further characters that
  a header may begin with (`Requests.KeysCollide`).
- `Claim` does not reject the legacy status FAILED. It leaves running work that no intent covers exactly when it
  takes a due FAILED job that has budget left (`Durability.ClaimOfFailedLosesWork`). No delivery for such a job
  can exist, because the upgrade gives FAILED jobs no intent and no later code writes the status.
- Rows are dispatched in id order and become eligible again after thirty seconds, so older live rows can come
  back ahead of a newer one. In runs of the system with one dispatcher that takes the first row it may, with
  successful calls at intervals of at most d, a row behind k older ones is always handled within k + 1 of them
  exactly when k * d is at most thirty seconds; beyond that it can wait for ever
  (`Fairness.FairExactlyUpToALoad`).
- Of the three backfill statements the first has to come first (`Upgrade.InterruptFirstForgetsAttempts`,
  `Upgrade.InsertFirstLosesWork`); the other two commute (`Upgrade.LastTwoCommute`).
- Only the empty message is stored as NULL, so a COMPLETED job keeps the text "Completed successfully" in its
  error_msg (`Outcomes.OutcomePersists`).
- The documentation says that outbox intents of live work are republished within about thirty seconds; the
  code guarantees that two committed publications of one row are more than thirty seconds apart.

## Model

| member | source | states |
|---|---|---|
| `StoreOperations.Store.Claim` | worker-service/internal/db/mysql.go:37-90 | the claim transaction: missing, superseded, terminal, busy, early, exhausted or claimed, in that order of tests, with the row, the audit entry and the returned job; retry_count from the incremented attempt_count |
| `Answers.ClaimAnswers` | worker-service/internal/db/mysql.go:55-74 | each answer of a claim, exactly when, by the columns: kept only under a running lease, let go unwritten if missing, ended, in another generation or not yet due, buried if the budget is spent, otherwise claimed |
| `Answers.ClaimGrounds` | worker-service/internal/db/mysql.go:49-57 | the reasons for letting a delivery go mean what they say |
| `Answers.ClaimWrites` | worker-service/internal/db/mysql.go:74-89 | every column, the log entry and the returned job after a successful claim |
| `Answers.ExhaustedWrites` | worker-service/internal/db/mysql.go:64-72 | every column and the log entry when a spent budget is found |
| `Progress.DeliveryAnswered` | worker-service/internal/db/mysql.go:55-63 | in every sound state a delivery is kept exactly while its job runs under a lease, and let go with the tables unchanged exactly if the job has ended, is in a later generation or is not yet due |
| `StoreOperations.Store.Renew` | worker-service/internal/db/mysql.go:91-107 | extends the lease exactly when generation, status, owner and unexpired lease match, and reports whether it did |
| `Answers.RenewWrites` | worker-service/internal/db/mysql.go:91-107 | succeeds exactly under the fence, and then moves the lease and nothing else |
| `StoreOperations.Store.Finish` | worker-service/internal/db/mysql.go:114-138 | fenced outcome, audit entry and, for a retry, the intent of the next attempt, all or nothing |
| `Answers.FinishWrites` | worker-service/internal/db/mysql.go:114-138 | persists exactly under the fence: status, due time, message, processing time, log entry and, for a retry only, the next intent, due when the job is |
| `StoreOperations.Store.CreateJob` | api-service/src/services/jobService.ts:8-69 | job, audit entry and first intent together, or the existing job of the request key, or a conflict, or nothing |
| `Answers.CreateWrites` | api-service/src/services/jobService.ts:8-69 | creates exactly if the key is absent or unused, with every column, the log entry and an intent available now; otherwise the job of the key, or a conflict if the hashes differ |
| `Progress.AcceptStarts` | api-service/src/services/jobService.ts:8-43 | an unkeyed request always creates a job whose first delivery can be published and claimed at once |
| `StoreOperations.Store.Requeue` | api-service/src/services/jobService.ts:161-212 | a dead or failed job becomes pending in a new generation with a fresh budget and a new intent; anything else is refused unchanged |
| `Answers.RequeueWrites` | api-service/src/services/jobService.ts:161-197 | requeues exactly the DEAD and FAILED jobs, with every column, the log entry and the new intent; the other answers exactly when |
| `Progress.ReplayRevives` | api-service/src/services/jobService.ts:172-197 | in every sound state replaying a DEAD or FAILED job makes it ready to start in its next generation, its intent publishable and its delivery claimable at once; anything else is unchanged |
| `Progress.ReplaySettles` | docs/reliability.md:9-9 | and even if everything crashes right after the replay, the job can be brought to an end again |
| `StoreOperations.Store.SelectRow` | worker-service/internal/db/mysql.go:151-153 | finds the eligible intent with the least id among those that no other dispatcher has locked, if there is one |
| `StoreOperations.Store.Dispatch` | worker-service/internal/db/mysql.go:142-179 | one dispatch with nothing in between: deletes an obsolete intent, otherwise publishes and then marks it; a failed publication or commit changes nothing in the tables |
| `Answers.DispatchWrites` | worker-service/internal/db/mysql.go:151-178 | the row taken is the first one ready by its columns; a needed row is published as its job and generation and stamped, any other deleted and not published |
| `Answers.DispatchFindsNothing` | worker-service/internal/db/mysql.go:151-156 | a call finds nothing, and does nothing, exactly if no unlocked row is ready |
| `Answers.DispatchFails` | worker-service/internal/db/mysql.go:163-178 | what a failed publication, a failed commit and an unseen commit leave behind |
| `Progress.PublicationMatches` | worker-service/internal/db/mysql.go:142-179 | an undisturbed dispatch in the system does to tables and stream exactly what the store's Dispatch does |
| `StoreOperations.Store.DispatchLoop` | worker-service/internal/worker/pool.go:54-72 | the loop over any sequence of calls, with the time they take, the rows others lock, failing publications and commits, and the pause after a call that fails or finds nothing |
| `Answers.LoopSendsCurrent` | worker-service/internal/db/mysql.go:160-170 | whatever the loop publishes, over any calls and failures, names the generation its job is in, waiting or running, so a claim with it is not refused as missing, superseded or terminal |
| `Answers.LoopTakes` | worker-service/internal/worker/pool.go:57-71 | the loop takes the time of its calls and 250 milliseconds for each that fails or finds nothing |
| `Answers.DrainWrites` | worker-service/internal/db/mysql.go:151-173 | draining publishes and stamps every needed ready row, deletes every other ready row, and leaves the rest alone |
| `Answers.DrainSendsExactly` | worker-service/internal/db/mysql.go:167-170 | and publishes nothing else: one pair for each needed ready row |
| `StoreOperations.LoopDrains` | worker-service/internal/worker/pool.go:54-72 | with the clock fixed and nothing failing, as many calls as there are eligible intents all succeed, and drain them in order |
| `StoreOperations.LoopKeepsLiveRows` | worker-service/internal/db/mysql.go:160-173 | whatever fails, the loop deletes no intent that is still needed |
| `StoreOperations.Store.DispatchAll` | worker-service/internal/worker/pool.go:57-71 | with the clock fixed the calls up to the first one that finds nothing are exactly as many as there are eligible intents |
| `Dispatching.DrainIsFair` | worker-service/internal/db/mysql.go:151-178 | draining handles exactly the eligible intents, each once, in id order, and leaves none eligible |
| `Dispatching.HandledInTurn` | worker-service/internal/db/mysql.go:151-178 | an intent with k eligible intents before it is handled by call k+1 |
| `Fairness.ServedWithinThirtySeconds` | worker-service/internal/db/mysql.go:151-178 | in every run of the system with one dispatcher, with any steps of the others between the steps of its calls, a row is handled by any k+1 successful calls within thirty seconds, k being the older rows |
| `Fairness.FairExactlyUpToALoad` | worker-service/internal/db/mysql.go:151-153 | in runs with successful calls at intervals of at most d, a row behind k older ones is always handled by any k+1 or more of them if and only if k*d is at most thirty seconds |
| `Fairness.RunMeanwhile` | worker-service/internal/db/mysql.go:142-179 | in any run in which no dispatcher commits, no outbox row is touched, and new rows have higher numbers |
| `Fairness.OthersMeanwhile` | worker-service/internal/db/mysql.go:37-138 | the same of each single transaction: acceptance, claim, renewal, finish and replay |
| `Durability.CommitKeeps` | worker-service/internal/db/mysql.go:37-179 | every transaction keeps the invariant of jobs, intents and audit log |
| `Durability.DispatchIdentityFree` | worker-service/internal/db/mysql.go:130-136 | the dispatch identities that acceptance, replay and a retry are about to insert are free |
| `Durability.ClaimOfFailedLosesWork` | worker-service/internal/db/mysql.go:55-74 | claiming keeps the invariant if and only if it does not take a due FAILED job with budget left |
| `Durability.DeleteKeeps` | worker-service/internal/db/mysql.go:163-168 | deleting an obsolete intent leaves every live job with one |
| `Durability.CommitProgresses` | worker-service/internal/db/mysql.go:64-84 | no transaction lowers a generation, an attempt count, or takes a settled job out of its status within its generation |
| `Safety.StepKeeps` | worker-service/internal/db/mysql.go:37-179 | every step of every party keeps the invariant of the whole system |
| `Safety.HeldStable` | worker-service/internal/db/mysql.go:120-126 | whatever others commit, a claim is never ahead of its job and, while its owner owns the job, is the newest claim |
| `Safety.DispatcherStable` | worker-service/internal/db/mysql.go:151-168 | a locked intent stays due, and one found obsolete stays obsolete, under every other transaction |
| `Safety.ClaimedOk` | worker-service/internal/queue/consumer.go:55-61 | the claim a consumer obtains is sound, because it handles one delivery at a time |
| `Pool.OwnersUnique` | worker-service/internal/worker/pool.go:36-47 | owner names of different consumers differ, within a process and between processes with different nonces |
| `Refinement.StepRefines` | worker-service/internal/db/mysql.go:37-179 | every step of the system is a step of a table of simple job machines; all but accept, replay, claim and finish change nothing in it |
| `Refinement.RunRefines` | worker-service/internal/worker/worker.go:27-109 | every run of the system is a run of that table |
| `Refinement.OutcomesAreFinal` | docs/reliability.md:15-27 | COMPLETED never changes; DEAD stays until a replay, and the generation counts the replays |
| `Refinement.BudgetOverRuns` | worker-service/internal/db/mysql.go:64-90 | between acceptance or replay and the next replay a job with budget N changes status at most 2(N+1) times and is claimed at most N+1 times |
| `JobMachine.MovesBounded` | worker-service/internal/db/mysql.go:64-90 | a measure on remaining attempts and status drops with every move between replays |
| `JobMachine.SettledForGood` | docs/reliability.md:15-27 | the same finality on the simple machine |
| `AuditLog.EventSourced` | worker-service/internal/db/mysql.go:64-84 | in every run the new log entries of a job chain together, rebuild its status, generation, attempt count and retry count, and are one per move |
| `AuditLog.NativeJobFromLog` | api-service/src/services/jobService.ts:30-35 | for a job accepted in the run, folding the whole log rebuilds its row, and retry_count = max(attempt_count-1, 0) |
| `AuditLog.LogBudget` | worker-service/internal/db/mysql.go:64-90 | within a generation the log of a job with budget N grows by at most 2(N+1) entries after acceptance or replay |
| `AuditLog.StepLogs` | worker-service/internal/db/mysql.go:108-129 | an entry is written for a job exactly when its machine moves |
| `Progress.EnvironmentIsFree` | docs/reliability.md:45-61 | time may pass, anything in the stream may be lost, and any consumer or everything may crash, in every state |
| `Progress.PartiesAreFree` | docs/reliability.md:45-61 | deliveries may repeat, any ready row may be locked, a dispatcher may give up, anyone may replay, in every state |
| `Progress.RenewalsMayBeLate` | worker-service/internal/worker/worker.go:47-65 | after a panic, a crash, a failed renewal or a lost reply the renewal may still land |
| `Guarantees.NoWorkIsLost` | worker-service/internal/db/mysql.go:142-179 | after any run every live job has an intent of its generation, and a pending one the intent of its next attempt |
| `Guarantees.StaleDecisionStaysRight` | worker-service/internal/db/mysql.go:160-168 | a decision to delete taken on an unlocked read stays right through any run of the other parties, and the row is untouched meanwhile |
| `Guarantees.DeleteIsSafe` | worker-service/internal/db/mysql.go:167-168 | when a dispatcher is about to delete, every live job has another intent |
| `Guarantees.FinishPersistsNewestClaim` | worker-service/internal/db/mysql.go:113-138 | a Finish that commits belongs to the row's newest attempt; a transient failure makes the job DEAD exactly when the budget is spent, and otherwise schedules the next attempt after its delay |
| `Guarantees.LeaseExcludes` | worker-service/internal/db/mysql.go:58-60 | a running lease turns every claim away, and a reclaimed job's former owner can neither renew nor finish |
| `Guarantees.RetryWaitsItsDelay` | worker-service/internal/db/mysql.go:61-63 | in every run a retry is processed only after the time it was scheduled for |
| `Guarantees.EarlyAcknowledgementIsSafe` | worker-service/internal/db/mysql.go:61-63 | an early refusal concerns a pending job and a spent attempt, and the unpublished intent of the pending attempt exists and becomes available no earlier than the job is due |
| `Guarantees.OwnDeliveryIsNeverEarly` | worker-service/internal/db/mysql.go:151-153 | the delivery published from the pending attempt's intent is never refused as early |
| `Guarantees.InsertsNeverCollide` | api-service/migrations/sqls/20261025000000-durable-delivery-up.sql:18 | no retry, replay or acceptance fails on the unique dispatch identity |
| `Guarantees.NothingDangles` | api-service/migrations/sqls/20261025000000-durable-delivery-up.sql:20 | no delivery in hand and no locked intent refers to a missing job |
| `Guarantees.PublicationsApart` | worker-service/internal/db/mysql.go:151-173 | two committed publications of one intent are more than thirty seconds apart, under any interleaving |
| `Progress.AttemptsRecorded` | worker-service/internal/worker/worker.go:27-98 | every handler started and every call of Finish is in the history that the results below count |
| `Progress.BeatsRecorded` | worker-service/internal/worker/worker.go:58-62 | so is every failed renewal |
| `Progress.AcksRecorded` | worker-service/internal/queue/consumer.go:82-85 | so is every acknowledgement |
| `Progress.RepliesRecorded` | api-service/src/controllers/jobController.ts:19-47 | so is every reply to a keyed request that reaches its client |
| `Progress.RetriesRecorded` | worker-service/internal/db/mysql.go:130-136 | so is every retry that a Finish schedules, with its delay |
| `Attempts.AttemptsOverRuns` | worker-service/internal/worker/worker.go:47-98 | over every run each claimed attempt starts at most one handler and calls Finish at most once, never after one of its renewals failed |
| `Attempts.HandlerRunsBounded` | docs/reliability.md:7-7 | a generation of a job with budget N starts at most N+1 handlers |
| `Acknowledgement.AcknowledgedOnlyWhenDurable` | worker-service/internal/queue/consumer.go:65-86 | over every interleaving of handler, heartbeat, deadline, panic and crash, each acknowledged delivery is superseded, terminal, spent, or has its outcome in the log, and a live job keeps an intent |
| `Acknowledgement.JustifiedStable` | worker-service/internal/db/mysql.go:55-63 | a justified acknowledgement stays justified |
| `Working.Worker.ProcessJob` | worker-service/internal/worker/worker.go:27-109 | claim, heartbeat, classification and Finish in order, with the error cases that retain the delivery |
| `Outcomes.NilExactly` | worker-service/internal/worker/worker.go:27-109 | for every call: nil if and only if the claim's reply arrives, the job is not running elsewhere, and a claimed attempt has prompt beats, a handler that ends in time and a Finish whose reply arrives |
| `Outcomes.OutcomePersists` | worker-service/internal/worker/worker.go:83-98 | an attempt that runs through leaves the row COMPLETED on success, DEAD on a permanent failure or a spent budget, else PENDING with the next intent after the backoff, with every column and both log entries |
| `Outcomes.AttemptLeaves` | worker-service/internal/worker/worker.go:72-82 | an attempt that does not run through leaves the claim standing, no outcome in the log and no intent |
| `Outcomes.HeartbeatLivesExactly` | worker-service/internal/worker/worker.go:47-65 | the heartbeat lives exactly if each tick falls within the lease before it and each renewal is answered |
| `Working.Worker.Heartbeat` | worker-service/internal/worker/worker.go:47-65 | renews at every tick until one renewal fails |
| `Working.NilMeansDurable` | worker-service/internal/worker/worker.go:83-109 | a nil result means that no job was claimed, or that exactly one more attempt is in the row with its classified outcome and two log entries |
| `Working.PromptBeatsSucceed` | worker-service/internal/worker/worker.go:47-65 | heartbeats that each fall within the lease obtained before them keep the lease |
| `Execution.ProcessJobIsARun` | worker-service/internal/worker/worker.go:27-109 | whatever the script of ticks, lost replies, panic and deadline, a call of the worker's code is a run of the system, with the same database and the delivery acknowledged next exactly when the call returned nil |
| `Execution.HandlingIsARun` | worker-service/internal/queue/consumer.go:65-86 | so is the handling of one well-formed delivery, from its arrival to an idle consumer: it is acknowledged exactly when the call returned nil, and otherwise kept |
| `Execution.ProcessJobKeeps` | worker-service/internal/worker/worker.go:27-109 | every call keeps the invariant of the tables |
| `Working.BeatsTouchOnlyTheLease` | worker-service/internal/db/mysql.go:91-93 | renewals change nothing but the job's lease |
| `LeaseTiming.HealthyLeaseNeverLapses` | worker-service/internal/worker/worker.go:47-82 | with round trips under a third of the lease, a handler of any length keeps its claim, rivals are answered busy, renewals succeed and the Finish persists |
| `TimedRuns.RunProjects` | worker-service/internal/worker/worker.go:47-82 | a run of the system in which one consumer's steps meet those bounds is a run of the timed attempt |
| `TimedRuns.HealthyLeaseInTheSystem` | worker-service/internal/worker/worker.go:47-82 | so in every such run of the system, whatever the other parties do, the worker owns its job, every other claim is answered busy, and its Finish persists |
| `LeaseTiming.OthersLeave` | worker-service/internal/db/mysql.go:58-60 | other parties can extend a running lease but not touch the attempt |
| `Recovery.EveryStateRecovers` | docs/reliability.md:45-61 | from every reachable state, after losing the stream and crashing everything, any live job has an explicit continuation to a terminal status that dispatches each intent at most once |
| `Recovery.DispatchAlone` | worker-service/internal/db/mysql.go:142-179 | undisturbed, the lock, read, publish and commit steps amount to one transaction on the least eligible intent |
| `Recovery.AttemptSettles` | worker-service/internal/worker/worker.go:27-109 | one delivery of a due, unleased job completes it, or buries it if its budget is spent |
| `Consuming.RecoveryIsComplete` | worker-service/internal/queue/consumer.go:87-100 | from any cursor an entry that stays pending and idle is handed over within n/100 + 2 calls, n being the entries pending in any of them |
| `Consuming.ScanCovers` | worker-service/internal/queue/consumer.go:88-93 | a scan claims every idle entry it passes, and passes at least a hundred entries unless it reaches the end |
| `Consuming.ScanTakesAHundred` | worker-service/internal/queue/consumer.go:88-88 | a recovery call claims at most a hundred entries, in id order |
| `Consuming.ReadsHandOver` | worker-service/internal/queue/consumer.go:55-61 | every new entry read without a stop is handed over, after the recovered ones |
| `Consuming.LeavesOnlyIfHandled` | worker-service/internal/queue/consumer.go:65-86 | only an entry handed over, well formed, processed and acknowledged leaves the pending list |
| `Consuming.LoopRecovers` | worker-service/internal/queue/consumer.go:29-64 | a loop with that many successful scans hands the entry over, whatever it reads and however deliveries fare meanwhile |
| `Consuming.ScansHandOver` | worker-service/internal/queue/consumer.go:87-100 | what the sequence of scans reaches is what the loop hands over |
| `Consuming.Consumer.Start` | worker-service/internal/queue/consumer.go:29-64 | over any sequence of passes up to a stop, the cursor, the entries handed over in order, and what remains pending and idle |
| `Consuming.Consumer.Recover` | worker-service/internal/queue/consumer.go:87-100 | moves the cursor on and handles the claimed entries until a stop is noticed; those processed and acknowledged leave the pending list; a failed scan changes nothing |
| `Consuming.Consumer.Handle` | worker-service/internal/queue/consumer.go:65-86 | a malformed delivery is kept, a failed one is kept, and only a processed one is acknowledged |
| `Progress.DeliveriesWellformed` | worker-service/internal/queue/consumer.go:66-74 | in every sound state no delivery of a named job is malformed, in the stream or in a consumer's hands |
| `Consuming.Group.XAutoClaim` | worker-service/internal/queue/consumer.go:88-93 | the loop that scans pending entries in id order computes the scan |
| `Progress.BadKeysRefused` | api-service/src/controllers/jobController.ts:12-18 | a request is refused for its key exactly if the controller does not take the key, and then nothing is stored |
| `Progress.RequestsAreFree` | api-service/src/validators/jobValidator.ts:3-13 | every request that the schema lets through may be accepted |
| `Idempotency.AcceptAgrees` | api-service/src/services/jobService.ts:8-69 | a keyed request is answered as a map from (client, key) to the first request says; the first creates one job with one intent, later ones change nothing |
| `Idempotency.RepliesConsistent` | api-service/src/controllers/jobController.ts:11-22 | over every run, replies for one (client, key) never name two jobs, and a conflict is reported exactly when different requests would be stored |
| `Idempotency.ConflictsAreTrue` | api-service/src/services/jobService.ts:60-61 | without numbers beyond a double, a conflict is reported exactly when the normalised requests differ |
| `Idempotency.InfinityGoesUnnoticed` | api-service/src/services/jobService.ts:10-11 | after a request with such a number, a different one with the stored payload is answered with the first job and no conflict |
| `Idempotency.LedgerIsInjective` | api-service/migrations/sqls/20261025000000-durable-delivery-up.sql:4 | a keyed job is named by one (client, key) only |
| `Requests.RequestHashDecides` | api-service/src/services/jobService.ts:10-11 | two valid requests have the same hash, over their UTF-8 bytes, exactly when what is stored for them agrees in type, payload up to key order, retries and priority |
| `Requests.PrintedRequest` | api-service/src/services/jobService.ts:11-11 | the hashed text reads back as an object with exactly the request's four fields, by name, and the stored payload |
| `Requests.RequestToldApartExactlyIfFinite` | api-service/src/services/jobService.ts:10-11 | the hash tells a request apart from every different finite one if and only if its payload has no number beyond a double |
| `Requests.OverflowCollides` | api-service/src/services/identity.ts:14 | the concrete pair of different requests with one hash |
| `Requests.KeysAreScoped` | api-service/src/controllers/jobController.ts:19-22 | hashed request keys of colon-free clients agree exactly when client and key do |
| `Requests.KeysCollide` | api-service/src/controllers/jobController.ts:12-22 | by keys the controller admits, two clients can collide if and only if one identifier continues the other with a colon and at most 126 characters fit for a header |
| `Requests.HeaderKeys` | api-service/src/controllers/jobController.ts:12-18 | a header is taken as a key if and only if it has at most 128 octets, not all blank |
| `CanonicalProofs.CanonicalDecidesEquality` | api-service/src/services/identity.ts:2-15 | two finite JSON values print the same exactly when they are equal up to key order at every depth |
| `CanonicalProofs.DecidedExactlyIfFinite` | api-service/src/services/identity.ts:14 | a value is told apart from every different finite value if and only if it is finite itself |
| `CanonicalProofs.CanonicalDecidesStored` | api-service/src/services/identity.ts:2-15 | any two values print the same exactly when what JSON.stringify stores for them is equal up to key order |
| `CanonicalProofs.CanonicalRoundTrip` | api-service/src/services/identity.ts:2-15 | the printed text is accepted by a reader of the grammar of RFC 8259 without white space, and reads back as the stored value with its keys sorted |
| `CanonicalProofs.CanonicalPaired` | api-service/src/services/identity.ts:9-14 | the printed text has no unpaired surrogate |
| `Utf8.EncodeDecides` | api-service/src/services/identity.ts:16-18 | texts without unpaired surrogates have the same UTF-8 bytes exactly when they are equal |
| `Utf8.PairedIsFaithful` | api-service/src/services/identity.ts:16-18 | the bytes tell a text apart from all such texts if and only if it is one |
| `CanonicalProofs.ReadQuoted` | api-service/src/services/identity.ts:9-14 | a printed string, with its escapes, surrogate pairs and lone surrogates, is read back whatever follows it |
| `CanonicalProofs.EscapedOnlyIfNeeded` | api-service/src/services/identity.ts:9-14 | a code unit is escaped only if it must be, by the short escape if there is one, else in lower-case hexadecimal |
| `CanonicalProofs.NumbersAreRead` | api-service/src/services/identity.ts:14 | every number of section 6 of RFC 8259 is read as one |
| `CanonicalProofs.SortKeeps` | api-service/src/services/identity.ts:7-8 | sorting entries keeps them and orders their keys by code units |
| `Backoff.DelayBounds` | worker-service/internal/retry/backoff.go:9-21 | every delay is between half its cap and its cap, between 1 and 300 seconds, for every int, without overflow of int64 |
| `Backoff.EveryDelayDrawn` | worker-service/internal/retry/backoff.go:20-20 | every delay in that range is drawn, by exactly one draw |
| `Backoff.CapSumClosed` | worker-service/internal/retry/backoff.go:16-20 | the caps of the first n retries add up to 2^(n+1)-2 seconds, and to 510+300(n-8) beyond eight |
| `RetryBudget.TotalBackoffBounded` | worker-service/internal/worker/worker.go:86-93 | in every run the delays scheduled in a generation with budget N stay within that total, and reach half of it if all N retries are scheduled |
| `Upgrade.UpgradeEstablishesInvariant` | api-service/migrations/sqls/20261025000000-durable-delivery-up.sql:22-28 | for a legacy table of any size the backfill yields a sound database, keeps the consumed budget, and gives each live job exactly one intent |
| `Upgrade.UpgradeKeepsColumns` | api-service/migrations/sqls/20261025000000-durable-delivery-up.sql:1-28 | every other column is kept or has its default; each intent is unpublished and available at once |
| `Upgrade.SystemStartsSound` | docs/reliability.md:71-78 | runs that start right after the upgrade start from a sound state |
| `Upgrade.InterruptFirstForgetsAttempts` | api-service/migrations/sqls/20261025000000-durable-delivery-up.sql:22-28 | with the last statement first, every interrupted attempt would be forgotten |
| `Upgrade.InsertFirstLosesWork` | api-service/migrations/sqls/20261025000000-durable-delivery-up.sql:22-27 | with the intents inserted first, a job with used attempts would miss the intent of its next one |
| `Upgrade.LastTwoCommute` | api-service/migrations/sqls/20261025000000-durable-delivery-up.sql:26-28 | the insertion and the last statement can be exchanged |
| `Upgrade.Migration.Backfill` | api-service/migrations/sqls/20261025000000-durable-delivery-up.sql:22-28 | the three statements in order compute that database |

## Left out

- HTTP routing, authentication, health endpoints, configuration, logging and metrics: no protocol state.
- MySQL and Redis internals, connection pools, deadlock retries: taken as the contracts stated above.
- A transaction's several readings of NOW(6) are one instant; a statement that waits for a row lock is placed
  at the instant it obtains it.
- The job columns type, payload and priority: written once at acceptance and read only by handlers; created_at
  and updated_at: read by no step.
- 32-bit widths of generation and attempt_count: the budget bounds attempts by eleven, and generations grow by
  one per manual replay.
- Number printing: a JSON number is the text JSON.stringify prints for it.
- Fractions of a microsecond in LEASE_DURATION: the database truncates them, the heartbeat does not.
- Consuming.Consumer.Start: the unbounded loop is any finite sequence of passes; when a recovery falls due is
  part of the sequence.
- StoreOperations.Store.DispatchAll: the calls up to the first that finds nothing; the loop that pauses and polls
  again is StoreOperations.Store.DispatchLoop.
- Fairness.OthersMeanwhile: numbers rows when their transaction commits, not at its INSERT.
- Fairness.RunMeanwhile: the same.
- Working.Worker.ProcessJob: states one undisturbed call under a script; Execution shows that it is a run of the
  system, and interference by other parties is what Protocol, Safety and the modules above them prove.
- Working.NilMeansDurable: an undisturbed call; with interference it is
  Acknowledgement.AcknowledgedOnlyWhenDurable.
- Working.PromptBeatsSucceed: an undisturbed heartbeat; with interference it is
  TimedRuns.HealthyLeaseInTheSystem.
- Graceful shutdown timers: stopping is a crash at any step.
- listJobs, listDeadJobs, getJobById and the display order of the log: read-only.
- The down migration and deletion of jobs: no job is ever removed.
