# A verified model of simpleswe's durable core

simpleswe turns a task into a pull request: a controller keeps every fact in
SQLite, runs one Kubernetes Job per attempt, reads the worker's protocol events
from Pod logs, and reopens finished tasks when review comments arrive. The model
covers the parts that must stay right when processes stop anywhere:

- **The store** (`TaskState`, `Rows`, `Transactions`, `StoreSpec`, `ForgeInbox`,
  `StoreInvariant`, `StoreSteps`, `StoreResets`, `StoreRuns`, `StoreTheorems`,
  `StoreEffects`, `StoreAnswers`, `Deferral`, `Store`). Each transaction is a function from tables to new tables or
  an error. One cross-table invariant holds in every reachable state, and a
  monotone relation says what later states keep. The class `Store` performs the
  same transactions step by step and is proved to commit exactly the specified
  tables or to change nothing.
- **The worker protocol** (`WorkerEvents`, `Redelivery`, `Receipts`, `WorkerTrace`,
  `WorkerRounds`, `Protocol`, `WorkerStore`). Handlers are sequences of transactions
  with a budget that a crash may exhaust. Redelivery converges, the provider's answers
  decide which receipts push, a worker's rounds decide how its run ends, every trace it
  can emit is accepted, and handling keeps the store's invariant.
- **The cluster** (`Launch`, `JobNames`, `Cancellation`, `SecretCleanup`,
  `KeyedLocks`). Launching converges from any stop, names are DNS labels
  (section 2.1 of RFC 1123) and injective, cancellation is final under every
  interleaving, and cleanup and locks are fenced.
- **Logs and text** (`PodLog`, `LogStorage`, `LogTail`, `StreamSplit`,
  `FollowUpPrompt`). Each fast form refines a short specification over the whole
  byte stream or text.

`dafny verify dfyconfig.toml` checks everything.

Four promises hold under a condition, which the proofs make exact or name:

- A final validation_failed event is accepted if and only if it names a nonzero
  exit code. A command that exits with 0 but whose output cannot be collected fails
  for the worker, while its result is recorded as a success; no failed run then
  matches the closing event, and the event is refused (`Protocol.FailedStep`,
  `Protocol.WorkerRunIsAccepted`).
- Exactly-once ingestion holds if and only if equal instants are written with
  equal text: ordinals are counted per timestamp text but compared per instant
  (`PodLog.ExactlyOnceIffCanonical`).
- The tail reader needs a nonempty newest chunk, which the appender guarantees
  (`LogTail.EmptyNewestChunkMisleads`, `LogStorage.TailOfStoredLog`).
- The prompt keeps its bound if and only if its fixed text and two quotes for each
  body do (`FollowUpPrompt.PromptFitsIff`). Any ASCII URL of 4 KiB without control
  characters meets this (`FollowUpPrompt.PromptFits`); one of control characters,
  which take four bytes each when quoted, need not
  (`FollowUpPrompt.ControlUrlOverflows`). The metadata validator, which always runs
  before, excludes those.

Conventions: time is an integer that strictly increases from one transaction to
the next; generated IDs are fresh or the insertion is refused; a table keyed by
attempt ID is an optional part of the attempt's row, and the audit log of a task
is kept with the task; identities compared without regard to case are held
case-folded; a batch is read in the order of its ID list. A function or lemma that
quotes a Go name in its comment models that function.

## Model

| member | source | states |
|---|---|---|
| `TaskState.StateIndex` | internal/controller/reconcile.go:463-470 | the scan of the recovery lifecycle finds the one position of a state, or -1 for FAILED and CANCELLED, which are not in the list |
| `TaskState.CanTransitionIsAdjacency` | internal/task/state.go:50-72 | the adjacency scan of `Machine.Transition` accepts exactly one step forward in the lifecycle, or FAILED or CANCELLED from a state that is not terminal |
| `TaskState.EdgesClimb` | internal/task/state.go:50-87 | every legal edge climbs a rank of at most 13, a reset leaves FAILED or an open pull request only and never CANCELLED, and PR_OPEN is the only way into the follow-up states |
| `Redelivery.RedeliveryIsEquivalent` | internal/controller/worker_events.go:37-142 | a delivery stopped after any number of its transactions, then delivered again with the same provider answers, leaves the task, attempt, validation, Git and pull-request rows of one uninterrupted delivery |
| `Redelivery.RedeliveryIsExact` | internal/controller/worker_events.go:222-368 | unless cancellation already owns the outcome, the two deliveries agree on everything, audit log included |
| `Receipts.ReceiptOutcome` | internal/controller/worker_events.go:222-299 | for an unpushed candidate in VALIDATING: a receipt that does not repeat it fails the task with its rows unchanged; otherwise the first answer that does not merely lag behind decides, between no change, FAILED with the rows unchanged, and PR_OPEN with exactly the confirmed pull request |
| `Receipts.WrongPullRequestFails` | internal/controller/forge_event.go:271-286 | a first live answer that is closed or has another number, branch or repository ends the task in FAILED with its rows unchanged |
| `Receipts.PushNeedsConfirmation` | internal/controller/worker_events.go:258-299 | wherever handling stops, a receipt turns an unpushed row into a pushed one only if it repeats the candidate and one of the first five answers is live, open, in the repository, with the number, branches, metadata, URL and commit of the receipt, after answers that differ by their head alone; the pushed rows are those of that answer |
| `Receipts.InspectDecides` | internal/controller/worker_events.go:263-291 | the polling loop confirms, refuses or leaves open exactly as the first answer that is not merely lagging says, and refuses after five lagging ones |
| `Receipts.CommitMatchesItself` | internal/controller/forge_event.go:750-755 | a complete object name is confirmed by itself alone |
| `Receipts.ReportOutcome` | internal/controller/worker_events.go:144-170 | a report that fits the manifest and that the evidence admits replaces the candidate and nothing else; any other fails the task with its rows unchanged |
| `Receipts.CandidateIsExact` | internal/store/store.go:1710-1779 | an admitted candidate repeats the pushed result, or replaces the commit of the attempt's own branch under the number already reported and shared by every other open pull request on these branches |
| `Receipts.CandidateIsAdmitted` | internal/store/store.go:1710-1779 | the first report on a fresh branch, and a new commit of the same report, are admitted |
| `Receipts.PromotionIsExact` | internal/store/store.go:1800-1839 | a promotion repeats the pushed result exactly or promotes exactly the latest candidate, with its commit, number and branches |
| `Receipts.LegacyPushOutcome` | internal/controller/worker_events.go:427-457 | a legacy push leaves alone only an attempt that published exactly this commit, fails any other, and is refused unchanged if malformed |
| `Receipts.FailureReportOutcome` | internal/controller/worker_events.go:130-142 | a failure report of at most 32 KiB that is not blank ends the task in FAILED, any other is refused unchanged |
| `Receipts.ValidationOutOfOrder` | internal/controller/worker_events.go:79-130 | outside VALIDATING a validation event but the first start is ignored once the candidate is being published and refused before, without a change |
| `Receipts.CancelledTaskIgnoresEvents` | internal/controller/worker_events.go:63-68 | once cancellation is requested an event adds at most an observation, and once the task has ended it adds nothing |
| `Protocol.WorkerRunIsAccepted` | internal/worker/runner.go:139-206 | every trace the worker can emit, for any commands and fix rounds, is accepted and ends in PR_OPEN on a verified receipt and in FAILED on a failure event, if and only if it does not end in a validation_failed that names exit code 0 |
| `Protocol.FailedStep` | internal/controller/worker_events.go:79-142 | a validation_failed event for a finished command ends the task in FAILED if its exit code is nonzero, and is refused without a change if it is zero |
| `Protocol.ReadyStep` | internal/controller/worker_events.go:222-368 | a receipt that matches the durable candidate, and that one of the provider's first five answers confirms after answers that differ by their head alone, pushes the Git row, opens the pull request and brings the task to PR_OPEN |
| `Protocol.PrefixIsAccepted` | internal/controller/runtime/runtime.go:628-662 | whatever prefix of an accepted trace reaches the controller is accepted too |
| `Protocol.CrashesDoNotMatter` | internal/controller/runtime/runtime.go:628-662 | delivering every event of an accepted trace at least once, with any crashes in between, ends where the uninterrupted trace ends |
| `Protocol.CrashingControllerReachesPrOpen` | internal/controller/worker_events.go:222-368 | whatever the crash schedule, a run that ends in a confirmed receipt ends with the task in PR_OPEN, its commit pushed and its pull request open |
| `WorkerTrace.RunValidationRound` | internal/worker/runner.go:335-397 | every command is started and reported once, in order, and the last command that did not pass is remembered |
| `WorkerTrace.RunAgentValidation` | internal/worker/runner.go:139-275 | the loop over fix attempts emits exactly the specified trace, stopping at the first clean round or after the last attempt |
| `WorkerRounds.RoundsDecide` | internal/worker/runner.go:139-223 | the whole trace and the ending, by the first round that does not just need repair or the last one allowed: worker_failed on another pull request or a failing agent, nothing more on an unpublished branch, success and the receipt when every command passes, validation_failed for the last failing command otherwise |
| `WorkerRounds.FirstPassingRoundEnds` | internal/worker/runner.go:160-197 | the first round in which every command passes ends the run, with a receipt if the branch is still as published, and the agent was started once for it and once for each repaired round |
| `WorkerRounds.GivesUpOnlyAfterEveryAttempt` | internal/worker/runner.go:160-206 | the run gives up on validation if and only if every round up to the last fix attempt reported the expected pull request, published, and has a command that does not pass |
| `WorkerStore.HandlingKeepsTheStore` | internal/controller/worker_events.go:37-142 | handling any worker event, stopped after any number of transactions, keeps the cross-table invariant and everything established before |
| `StoreRuns.StepKeeps` | internal/store/store.go:608-1513 | every transaction of the store, accepted or refused, keeps the cross-table invariant and advances the tables monotonically |
| `StoreRuns.RunKeeps` | internal/store/store.go:608-1513 | so does every run of transactions, of any length, from any valid state |
| `StoreRuns.ReachableStatesAreValid` | internal/store/store.go:608-1513 | every state a new store can reach satisfies the invariant |
| `StoreInvariant.EdgesAreBounded` | internal/task/state.go:50-87 | a log that replays has at most 13 edges per attempt |
| `StoreInvariant.AdvancesIsTransitive` | internal/store/store.go:1189-1285 | what later states keep of earlier ones composes over runs |
| `StoreInvariant.PutAttemptKeeps` | internal/store/store.go:1697-1839 | recording a candidate or a verified pull request for the current attempt keeps the pull-request gate, the lineage and all other rows' invariants |
| `StoreResets.RetryInserts` | internal/store/store.go:966-1128 | a retry numbers the attempt next, supersedes a drained one, and moves the running batch with its open pull request |
| `StoreResets.FollowUpInserts` | internal/store/forge_event.go:790-1013 | a follow-up binds the whole batch to the new attempt, copies the open pull request and resets the task |
| `StoreTheorems.AuditLogDeterminesState` | internal/store/store.go:1189-1285 | replaying task_events from RECEIVED gives exactly the current state and attempt, over legal edges only, with at most 13 edges per attempt |
| `StoreTheorems.AttemptsAreNumbered` | internal/store/store.go:991-1104 | attempt numbers are exactly 1..n, the current attempt is number n and shares the task's state, all others have ended, with exhausted logs and no unprocessed worker event |
| `StoreTheorems.SupersededIsFrozen` | internal/store/operational.go:168-194 | a superseded attempt never accepts another log line, queues no worker event, and keeps its state, Git row and pull request for ever |
| `StoreTheorems.CommandsNeverOverlap` | internal/store/store.go:1420-1440 | in every reachable state at most one validation command of an attempt is running |
| `StoreTheorems.GateHolds` | internal/store/store.go:1222-1234 | every attempt from PR_OPEN to READY has a pushed commit and an open pull request on the same branch |
| `StoreTheorems.LineageHolds` | internal/store/store.go:1864-1884 | all open pull requests of a task with the same head and base have the same number |
| `StoreTheorems.EvidenceIsFinal` | internal/store/store.go:1710-1839 | pushed Git rows never change, and open pull requests never close or change number or branches |
| `StoreTheorems.PlannedRetrySucceeds` | internal/store/store.go:870-932 | a planned retry of a drained failed task succeeds, and a running follow-up never meets the missing-pull-request conflict |
| `StoreTheorems.CancellationOwnsTheOutcome` | internal/store/store.go:1219-1221 | once cancellation is requested the state can only become CANCELLED, which nothing leaves |
| `StoreTheorems.ForgeBatchIntegrity` | internal/store/forge_event.go:790-1013 | pending events are unassociated; the running events of a task are at most 32 reviews of one commit, bound to its current attempt, which has an open pull request |
| `StoreTheorems.FailOneFailsAll` | internal/store/forge_event.go:459-517 | failing one running event fails exactly its batch, and cancels the task if it is still working on it |
| `StoreTheorems.RunningOutcomesAreWhole` | internal/store/forge_event.go:620-663 | a batch outcome for running events is accepted only if it names all running events of the task, on its current attempt |
| `StoreTheorems.OutcomesAreFinal` | internal/store/forge_event.go:1114-1132 | handled and failed are absorbing, and a running event is never pending again |
| `StoreTheorems.DueBatchIsUsable` | internal/store/forge_event.go:268-299 | a selected due batch is always accepted for planning, deferral and failure |
| `StoreTheorems.PlannedFollowUpSucceeds` | internal/store/forge_event.go:732-848 | a planned follow-up of a due batch on a drained, unclaimed task with an open pull request succeeds and runs exactly that batch |
| `StoreTheorems.RetryKeysAreStable` | internal/store/store.go:973-989 | a retry key used once returns its attempt at any later time and changes nothing |
| `StoreTheorems.CreateKeysAreStable` | internal/store/store.go:634-656 | a create key used once returns its task at any later time and changes nothing |
| `StoreEffects.RetryIsExact` | internal/store/store.go:966-1128 | an accepted retry starts a failed task over on the next attempt, with the prompt, branches and pull request of a running follow-up or with none, moves exactly the running batch, and changes no other row |
| `StoreEffects.FollowUpIsExact` | internal/store/forge_event.go:790-1013 | an accepted follow-up starts a task with an open pull request over on the next attempt, with that pull request and its branches, binds exactly the due pending batch, and changes no other row |
| `StoreEffects.ArrivalIsExact` | internal/store/forge_event.go:71-125 | a known event changes nothing; a new delayed review moves exactly the deadlines of the pending, unclaimed reviews of its commit to its own |
| `StoreEffects.ArrivalPostponesBatch` | internal/store/forge_event.go:71-125 | no batch of a commit is due before the whole delay of the latest new review of it has passed, if nothing else happens in between |
| `StoreEffects.YieldNeverHastens` | internal/store/forge_event.go:240-262 | yielding moves a deadline at least five seconds ahead and never back, and keeps outcome, owner, failure count and error |
| `StoreEffects.ErrorPausesEvent` | internal/store/forge_event.go:309-339 | an error counts once and waits at least the earned pause and the clamped Retry-After, and at most a day |
| `StoreEffects.BatchSharesDeadline` | internal/store/forge_event.go:345-406 | a deferred batch gets one deadline that respects every member's own pause and the Retry-After, and no other event changes |
| `StoreEffects.HandlingTwiceIsHandlingOnce` | internal/store/forge_event.go:1114-1132 | handling again keeps the first time it was handled and changes nothing else but the update stamp |
| `StoreEffects.FailureReplayIsNoOp` | internal/store/forge_event.go:523-612 | failing a batch again with the same message, after any later transactions, is recognised and changes nothing |
| `StoreEffects.ResultIsExact` | internal/store/store.go:1332-1377 | a result reaches exactly the one running command, which has the reported name, and succeeds it if and only if the exit code is zero |
| `StoreEffects.CommandsStartOnce` | internal/store/store.go:1293-1323 | the event that started a command never starts another, whatever happened since and whichever attempt it is delivered for |
| `StoreEffects.ResultsAreFinal` | internal/store/store.go:1332-1460 | how a command ended never changes; only its texts may be enriched |
| `StoreAnswers.CancellationRequestDecides` | internal/store/store.go:1159-1187 | a request on a task that has not ended is accepted and sets its flag alone; from then on only a transition to CANCELLED is accepted, and in every later run the task keeps its attempt and its state stays or is CANCELLED |
| `StoreAnswers.CancellationIsRefused` | internal/store/store.go:1159-1187 | a task that has ended or does not exist cannot be cancelled |
| `StoreAnswers.LineIsExact` | internal/store/operational.go:73-194 | a line is accepted exactly for the current attempt with open logs; a new event of it waits unprocessed in the outbox for that attempt, a known one is not queued again, and nothing else changes |
| `StoreAnswers.PendingEventsBlockResets` | internal/store/store.go:1014-1024 | while an event of the current attempt waits, the task is neither retried nor followed up |
| `StoreAnswers.ProcessedIsExact` | internal/store/operational.go:358-361 | processing an event changes its mark alone |
| `StoreAnswers.ExhaustedLogsAreClosed` | internal/store/store.go:1500-1513 | exhausting the logs closes the attempt to further lines and changes nothing else |
| `StoreAnswers.FailedBatchIsExact` | internal/store/forge_event.go:523-587 | failing a batch fails exactly its members; a running one is the whole batch of its task and takes a task still at work to cancellation, a pending one touches no task |
| `StoreAnswers.FailOneIsExact` | internal/store/forge_event.go:459-517 | a pending event fails alone; a failed one of a batch keeps its diagnosis, and another is a conflict |
| `StoreAnswers.OutcomeIsExact` | internal/store/forge_event.go:620-663 | a pending outcome is accepted exactly for one batch of pending, unclaimed, due events, and a running one only for all that run on the attempt |
| `StoreAnswers.StartIsExact` | internal/store/store.go:1293-1323 | a command starts only for the current validating attempt with no other running, and is appended as running |
| `StoreAnswers.EndedCommandsAreExact` | internal/store/store.go:1444-1460 | a transition that ends the commands finishes exactly the running ones and records the verdict, and fails only if there is one |
| `StoreAnswers.VerdictIsExact` | internal/store/store.go:1383-1399 | a verdict is recorded exactly when the attempt has commands and none is running |
| `StoreAnswers.DetailIsExact` | internal/store/store.go:1403-1418 | the detail is accepted exactly if a failed command has that name and exit code, and goes to the latest one |
| `StoreAnswers.SnapshotIsKept` | internal/store/store.go:1132-1157 | the first snapshot is saved, its repetition changes nothing, and any other is refused |
| `StoreAnswers.CreateIsExact` | internal/store/store.go:608-697 | a created task is in RECEIVED on its blank first attempt, and nothing else changes but its key |
| `StoreAnswers.RetryFollowsItsPlan` | internal/store/store.go:1026-1072 | an accepted retry agrees with its plan in the attempt replaced, the number and what is carried over, and a running follow-up is never retried without one |
| `StoreAnswers.FollowUpReplays` | internal/store/forge_event.go:806-822 | a batch that already runs is not started again: its attempt is returned and nothing changes |
| `Deferral.RetryDelayIsMonotone` | internal/store/forge_event.go:447-454 | the pause grows with the failures and stays between 5 seconds and 5 minutes |
| `Deferral.ComputeRetryDelay` | internal/store/forge_event.go:447-454 | at most six doublings give min(5 s times 2 to the attempts, 5 min) for any number of attempts |
| `Deferral.DeferralIsReplayable` | internal/store/forge_event.go:408-445 | what a deferral writes is recognised as its own replay until the deadline, for pending and for running batches |
| `Deferral.DeferralReplayIsNoOp` | internal/store/forge_event.go:345-445 | recording the same error and Retry-After again before the deadline changes nothing, in any later state that left the batch alone |
| `Store.ValidateForgeEventIds` | internal/store/forge_event.go:1019-1037 | exactly the lists of 1 to 32 distinct IDs pass |
| `Store.ValidateForgeEventBatch` | internal/store/forge_event.go:1067-1095 | the scans find the attempt a batch already runs on, or that it is pending, unclaimed and due, and otherwise the first reason why not |
| `Store.ValidateForgeEventOutcomeBatch` | internal/store/forge_event.go:620-663 | the scans and counts decide exactly the specified outcome or conflict |
| `Store.PaceBatch` | internal/store/forge_event.go:360-368 | the loop finds the longest earned pause and the largest retry count of the batch |
| `Store.ForgeEventBatchDeferralReplay` | internal/store/forge_event.go:408-445 | the scans recognise exactly the specified replays and conflicts |
| `Store.ForgeEventBatchFailureReplay` | internal/store/forge_event.go:589-612 | the scan and the count recognise exactly a batch that failed together with this message |
| `Store.Store.CreateTask` | internal/store/store.go:608-697 | inserts the task, its first attempt and its key, or returns the task of the key, or changes nothing |
| `Store.Store.TransitionTask` | internal/store/store.go:1189-1285 | commits exactly a legal, uncontested, evidenced edge with its audit event, or changes nothing |
| `Store.Store.RequestCancellation` | internal/store/store.go:1159-1187 | asks a task that is not terminal to cancel, or changes nothing |
| `Store.Store.RecordValidationStarted` | internal/store/store.go:1293-1323 | starts a command of the current attempt once per event and only if none is running, or changes nothing |
| `Store.Store.RecordValidationResult` | internal/store/store.go:1332-1377 | finishes the running command once per event, or changes nothing |
| `Store.Store.MarkValidationComplete` | internal/store/store.go:1383-1399 | records the aggregate verdict only after every command has finished, or changes nothing |
| `Store.Store.RecordValidationFailureDetail` | internal/store/store.go:1403-1418 | enriches exactly the latest failed command with that name and exit code, or changes nothing |
| `Store.Store.SaveAttemptSnapshot` | internal/store/store.go:1132-1157 | saves the first snapshot; a replay may only repeat it |
| `Store.Store.RecordPullRequestCandidate` | internal/store/store.go:1697-1779 | records or replaces exactly the candidate of the current attempt, or changes nothing |
| `Store.Store.RecordVerifiedPullRequest` | internal/store/store.go:1783-1839 | promotes exactly the latest candidate, or changes nothing |
| `Store.Store.AppendPodLog` | internal/store/operational.go:73-194 | accepts a line only for the current attempt with open logs, queues its worker event once, and audits a truncation |
| `Store.Store.RetryTask` | internal/store/store.go:966-1128 | resets a failed task onto the planned attempt, or returns the attempt of the key, or changes nothing |
| `Store.Store.StartForgeEventAttempt` | internal/store/forge_event.go:790-848 | starts the planned follow-up, or returns the attempt the batch already runs on, or changes nothing |
| `Store.Store.PutForgeEvent` | internal/store/forge_event.go:71-125 | inserts an event once and slides the deadline of all pending reviews of its commit |
| `Store.Store.DeferForgeEvent` | internal/store/forge_event.go:240-262 | yields an event that still has the expected status, or changes nothing |
| `Store.Store.RecordForgeEventError` | internal/store/forge_event.go:309-339 | defers an incomplete event by the longer of its own pause and the Retry-After, or changes nothing |
| `Store.Store.RecordForgeEventBatchError` | internal/store/forge_event.go:345-406 | defers exactly the named batch, or recognises a replay, or changes nothing |
| `Store.Store.FailForgeEvent` | internal/store/forge_event.go:459-517 | fails the event, or its whole running batch, or changes nothing |
| `Store.Store.FailForgeEventBatch` | internal/store/forge_event.go:523-587 | fails exactly the named batch, or recognises a replay, or changes nothing |
| `Store.Store.MarkForgeEventHandled` | internal/store/forge_event.go:1114-1132 | handles an event that has not failed, keeping the first time it was handled |
| `Cancellation.CancelledTasksAreQuiet` | internal/controller/reconcile.go:302-352 | under every interleaving, a CANCELLED task has no running forge event and no Job for its current attempt |
| `Cancellation.CancellationIsFinal` | internal/controller/controller.go:284-326 | after a cancellation request the task only ever becomes CANCELLED, on the same attempt, and once it is, no Job is created for it again |
| `Cancellation.CancellationCompletes` | internal/controller/reconcile.go:302-352 | if the Job goes away once deleted, the cancellation program run to its end makes the task CANCELLED |
| `Cancellation.LaunchCreatesTheJob` | internal/controller/controller.go:407-479 | the launch program creates the attempt's Job once if the task still intends it, and does nothing otherwise |
| `Launch.LaunchConverges` | internal/controller/controller.go:111-197 | however creating, starting and reconciling an attempt are cut, one complete reconciliation reaches JOB_PENDING, or RUNNING if the Job is active, with exactly one Secret and one Job of the attempt, both named by DNS labels |
| `Launch.ReconcileKeeps` | internal/controller/reconcile.go:54-189 | a reconciliation cut anywhere leaves the launch under way, and a complete one finishes it |
| `Launch.StartAttemptKeeps` | internal/controller/controller.go:328-464 | starting an attempt cut anywhere leaves the launch under way, and uncut it reaches JOB_PENDING with its objects |
| `Launch.UncutProgramLaunches` | internal/controller/controller.go:328-464 | creating or starting an attempt uncut ends in JOB_PENDING with its snapshot saved, exactly one Secret and one Job, both registered, and nothing else in the cluster changed |
| `Launch.UnwantedLaunchDoesNothing` | internal/controller/controller.go:342-344 | a cancelled or finished task is not launched and nothing changes |
| `Launch.ForeignObjectsStopTheLaunch` | internal/controller/controller.go:407-464 | objects with other labels stop the launch before a Job is created or the task moves |
| `Launch.ReconcileIsStable` | internal/controller/reconcile.go:54-189 | reconciling a finished launch with an idle Job changes nothing |
| `Launch.JobsAreApart` | internal/kubernetes/jobs/jobs.go:86-97 | attempts of canonical tasks with the same Job name are the same attempt |
| `JobNames.SanitizeName` | internal/kubernetes/jobs/jobs.go:469-485 | the one-pass scan gives words of lower-case alphanumerics joined by single dashes |
| `JobNames.SanitizeIsClean` | internal/kubernetes/jobs/jobs.go:469-485 | sanitised text has no leading, trailing or double dash and keeps exactly the lower-cased alphanumerics in order |
| `JobNames.NameIsLabel` | internal/kubernetes/jobs/jobs.go:86-97 | for any task ID, attempt number and hash the name is a DNS label (RFC 1123, section 2.1) |
| `JobNames.BoundedNameIsLabel` | internal/kubernetes/jobs/jobs.go:453-467 | so is any bounded name, and hence the Secret's |
| `JobNames.NameIsInjective` | internal/kubernetes/jobs/jobs.go:86-97 | the name determines the task ID and the attempt number for canonical untruncated IDs |
| `JobNames.GeneratedIdsAreCanonical` | internal/store/store.go:2084-2090 | every generated task ID is canonical and, up to attempt numbers of 25 digits, untruncated |
| `PodLog.ExactlyOnceIffCanonical` | internal/controller/runtime/runtime.go:543-591 | over all sessions that restart in time the accepted lines are exactly the longest prefix read, each once and in order, if and only if equal instants are written alike in the log |
| `PodLog.SessionsAreExact` | internal/store/operational.go:94-161 | the cursor after any such sessions is that of the longest prefix |
| `PodLog.WholeSessionNeedsCanonical` | internal/controller/runtime/runtime.go:543-560 | one complete session that accepts every line needs equal instants to be written alike |
| `PodLog.OneEventPerProtocolLine` | internal/controller/runtime/runtime.go:560-575 | the event identities of the protocol lines of a prefix are distinct, one for each line |
| `LogStorage.CollectPodLogs` | internal/controller/runtime/runtime.go:384-496 | the stored log is what the quota leaves of the longest prefix read, and the outbox holds one event per protocol line of that prefix, also past the quota |
| `LogStorage.AttemptLog.AppendPodLog` | internal/store/operational.go:73-166 | a duplicate changes nothing; any other line advances the cursor, stores its bytes under the quota and queues its event once |
| `LogStorage.AttemptLog.StoreBytes` | internal/store/operational.go:110-150 | the chunks hold all bytes while they fit, else the first quota minus marker bytes and the marker, and the counters agree |
| `LogStorage.AttemptLog.AppendLogBytes` | internal/store/operational.go:206-226 | bytes are stored in order in nonempty chunks of at most the chunk size with increasing sequence numbers |
| `LogStorage.AttemptLog.TrimLogTail` | internal/store/operational.go:228-266 | exactly the requested bytes go from the end, and no empty chunk stays |
| `LogStorage.AttemptLog.ReadPodLogStream` | internal/controller/runtime/runtime.go:543-591 | a session numbers lines by the text of their instant and appends each once |
| `LogStorage.StoredGrows` | internal/store/operational.go:119-136 | how the quota's result changes when bytes arrive, before, at and after truncation |
| `LogStorage.TailOfStoredLog` | internal/store/store.go:1594-1643 | the tail reader returns the last lines of the stored log |
| `LogTail.ReadLogTail` | internal/store/store.go:1594-1643 | reading newest chunks first gives the last lines of the chunks taken |
| `LogTail.ReadTailIsLastLines` | internal/store/store.go:1601-1664 | the early stop returns the last lines of all chunks together, for every list of chunks whose newest is not empty and every line count |
| `LogTail.ScanLastLines` | internal/store/store.go:1645-1664 | the backward scan returns the text of the last lines, ignoring one trailing newline |
| `LogTail.EmptyNewestChunkMisleads` | internal/store/store.go:1618-1624 | an empty newest chunk makes the reader stop inside a line |
| `StreamSplit.Copy` | internal/worker/runner.go:621-666 | the lines written, and where a failing writer stops them, do not depend on how the stream was cut into writes |
| `StreamSplit.PiecesAppend` | internal/worker/runner.go:621-654 | later input only adds pieces after those already taken |
| `StreamSplit.DecideIsStable` | internal/worker/runner.go:627-650 | a decision taken on pending bytes is the same whatever follows them |
| `StreamSplit.PiecesReassemble` | internal/worker/runner.go:621-686 | the input of the pieces and the rest make up the stream, in order |
| `StreamSplit.PiecesAreFaithful` | internal/worker/runner.go:621-686 | each piece is a whole line, a chunk as it is, or a redacted secret |
| `StreamSplit.RestIsBounded` | internal/worker/runner.go:627-650 | what stays pending is at most a chunk and the longest secret, and has no newline to write up to |
| `StreamSplit.FirstMatchIsLeftmostLongest` | internal/worker/runner.go:668-679 | the match taken is the leftmost in the chunk and the longest there |
| `StreamSplit.NextStreamChunk` | internal/worker/runner.go:668-686 | the scan over the secrets takes that match, the text before it, or a full chunk |
| `StreamSplit.ChunkStopsAtSecrets` | internal/worker/runner.go:668-686 | a secret at the front is replaced, the longest one there; up to the first secret that begins in the chunk the bytes are taken as they are; a full chunk is taken only if none begins there |
| `StreamSplit.ChunksCutNoSecret` | internal/worker/runner.go:621-686 | in the whole stream no secret begins inside a piece that is neither a line nor a redacted secret |
| `StreamSplit.ReadableStream.Write` | internal/worker/runner.go:621-654 | all complete pieces of everything fed so far are written, or the writer's limit is reached and an error returned |
| `StreamSplit.ReadableStream.Flush` | internal/worker/runner.go:656-666 | the rest becomes the last line |
| `SecretCleanup.GenerationFixesIdentity` | internal/store/operational.go:489-509 | generations never decrease, and within one the namespace, Job name, Job UID, Secret name, eligibility and completion stay |
| `SecretCleanup.StaleTokensConflict` | internal/store/operational.go:573-644 | a completion with a token captured while eligible succeeds only if the row still has that identity and eligibility, any other conflicts, and it succeeds once |
| `SecretCleanup.CleanupRunsThrough` | internal/store/operational.go:573-644 | a row can be made eligible, bound and completed with what was read of it, and nothing else of it changes |
| `SecretCleanup.RevocationFences` | internal/store/operational.go:584-644 | revoking eligibility starts a new generation and fences every token captured before |
| `SecretCleanup.RebindingFences` | internal/store/operational.go:624-644 | binding another Secret starts a new generation that fences the token, binding the same one changes nothing |
| `SecretCleanup.ObservationIsExact` | internal/store/operational.go:489-509 | another identity starts a new generation, the same one changes nothing |
| `SecretCleanup.Cleanup.Clean` | internal/controller/runtime/runtime.go:958-1032 | whatever happens between its steps, the worker completes, and asks to delete the Secret, only while the row is eligible and has the identity of its token; undisturbed, it completes an eligible row whose Secret can be removed |
| `SecretCleanup.Cleanup.StillEligible` | internal/controller/runtime/runtime.go:1034-1045 | the check passes exactly for an eligible, uncompleted row of the token's generation and identity that no current Job blocks, and revokes eligibility when the attempt is not terminal |
| `KeyedLocks.KeyedLocks.RegisterOn` | internal/controller/locks.go:20-28 | registering joins the key's entry or makes one |
| `KeyedLocks.KeyedLocks.TakeToken` | internal/controller/locks.go:29-34 | the token is taken only while free |
| `KeyedLocks.KeyedLocks.ReleaseFrom` | internal/controller/locks.go:41-48 | the last registered thread removes the key, any other leaves it |
| `KeyedLocks.KeyedLocks.Interleave` | internal/controller/locks.go:20-48 | every schedule of any threads keeps the invariant |
| `KeyedLocks.KeyedLocks.Guarantees` | internal/controller/locks.go:20-48 | one holder per key, one shared entry whose refs are its registered threads, and exactly the keys in use in the map |
| `FollowUpPrompt.PromptFits` | internal/controller/forge_event.go:776-844 | the prompt of any batch of up to 32 events has at most 97,280 bytes |
| `FollowUpPrompt.PromptFitsIff` | internal/controller/forge_event.go:786-844 | for all inputs the prompt keeps its limit if and only if its text without bodies and two quotes per body do |
| `FollowUpPrompt.ControlUrlOverflows` | internal/controller/forge_event.go:786-844 | a full batch with an ASCII URL of 4 KiB of control characters exceeds the limit |
| `FollowUpPrompt.ForgeFollowUpPrompt` | internal/controller/forge_event.go:790-844 | the two loops build exactly the specified prompt |
| `FollowUpPrompt.BoundedQuotedFits` | internal/controller/forge_event.go:846-855 | bounded quoting never exceeds its limit, or the two quotes |
| `FollowUpPrompt.BoundedTextFits` | internal/controller/forge_event.go:857-869 | bounded text has no control characters and fits its limit |
| `FollowUpPrompt.EscapeExpands` | internal/controller/forge_event.go:846-855 | away from control characters quoting expands a byte at most threefold |
| `FollowUpPrompt.PromptNamesEveryEvent` | internal/controller/forge_event.go:837-843 | the prompt contains every event with its body within an equal share of the remaining room, and no larger equal share would fit |
| `FollowUpPrompt.ReviewsCarryTheirMarker` | internal/controller/forge_event.go:803-827 | each event of a review carries its comment, reply route, reply marker, identity, author and title |
| `FollowUpPrompt.FittingTextIsKept` | internal/controller/forge_event.go:857-869 | text that fits is kept: all its letters in order, with single spaces between its words |
| `FollowUpPrompt.PrefixIsLongest` | internal/controller/forge_event.go:865-868 | a cut keeps the longest prefix of whole characters that fits |
| `FollowUpPrompt.FittingValueIsQuoted` | internal/controller/forge_event.go:846-855 | a value whose flattened form fits when quoted is quoted whole |
| `FollowUpPrompt.QuotingReadsBack` | internal/controller/forge_event.go:846-855 | what is between the quotes reads back as exactly the text |

## Left out

- HTTP API, client, TUI, CLI, metrics, configuration, Job specifications, provider clients and webhook parsing: plumbing over the modelled data.
- SQL text, schema migration and connection handling: every transaction is atomic. In particular the store orders RFC 3339 timestamps as text with trailing zeros trimmed; the model orders instants.
- Reasons, triggers, error texts and display columns (repository, prompt, title, author, comment bodies): they decide nothing in the modelled transactions. Which Blank or empty argument is refused is modelled only where the row keeps the value.
- The event-identity formats of `validateForgeEvent`, the pull-request metadata and URL validators and the printable-character table: function parameters.
- The worker-event handlers look for an event's earlier effect in the current attempt only, because event IDs carry the Pod UID; the store's own transactions look across all attempts, as the source does.
- Completion of forge events after PR_OPEN (`completeForgeEventLocked`) and the ownership match of webhook events to tasks: the inbox transactions they use are modelled, their provider inspection is not.
- Provider retries sleep and time out; the model has only the sequence of answers.
- Store.Store.RecordPullRequestCandidate: required to be called for the current attempt. The store itself does not check this; the controller does, under the task lock, before it calls. The same holds for Store.Store.RecordVerifiedPullRequest.
- Store methods that set one flag or append an observation (`MarkLogsExhausted`, `MarkWorkerEventProcessed`, `RecordObservation`) are modelled as transactions on tables and covered by StoreRuns.StepKeeps, but not repeated as methods of the class.
- Launch and the worker-event handlers are modelled on values, with a budget for the point where a crash stops them, instead of in place; nothing in them aliases.
- Launch: Jobs that have failed or completed, Pods and permanent API errors; a Job's Pod may start and stop being active at any time.
- Cancellation: a cluster call takes effect before the controller continues or not at all; an API request still in flight when a process dies is not modelled. Pods and the Secret of a cancelled attempt are not modelled.
- LogStorage.CollectPodLogs: one Pod per attempt log, timestamped whole lines only; untimestamped lines, lines cut by a broken connection and log-follow subscriptions are not claimed. Trimming may lead to reused sequence numbers, so nothing is claimed about followers seeing the marker.
- SecretCleanup: one attempt's row; the rows of different attempts are independent.
- JobNames: lower-casing is ASCII lower-casing; the SHA-256 digest is a parameter that yields 16 hexadecimal digits. Names of task IDs that are not canonical carry a hash and are not claimed to be injective.
- FollowUpPrompt: the text of the review instructions is a parameter of its exact length in bytes, and the printable table is a parameter that knows ASCII.
- Redaction itself, process groups, pipes, Git commands and the agent: oracles.
