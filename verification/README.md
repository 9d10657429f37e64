# Vision Model Lab: a verified model

A Dafny model of the part of Vision Model Lab that must not go wrong when several things happen at
once or when a run is to be delivered: the pipeline-job protocol, the timed helpers around it, the
execution of a run, the digest cache, and the chain of evidence from a training command to a
released model card. Check it with `dafny verify dfyconfig.toml`.

## How it is organised

- **The job protocol.** `JobTable` has one specification function per SQL statement and the store
  class proved against them. `JobProtocol` is the transition system over that table: instances
  boot, reconcile, accept requests and crash; workers claim, poll, beat, return, re-read and write.
  `JobWorker` says what each way through a worker, and each step of the system, does to the row.
  `JobExclusivity` proves that no job is executed twice under the ownership test. `JobRaces` holds
  the reachable runs where the code is weaker than its intent, and the exact conditions under which
  the intent holds all the same; `JobRestart` shows how far the test as written carries,
  `JobCancellation` when a cancel wins, and `JobStartup` what a starting instance finds.
- **The timed helpers.** `CancelCheck`, `LoginThrottle`, `LogBuffer` and `LogOrder`, `LogPaging`,
  `Timestamps`, `AuthSessions`.
- **A run.** `RunLock`, `ExternalCommand`, `TaskAdapter` (the three stages on a `Host` whose files
  change under them), `Pipeline` (the stage machine and packaging).
- **Evidence.** `DigestCache`, `ArtifactNames`, `TrustGate`, `ModelCard` (the validator),
  `CardBuilder` (the builder, and how it composes with gate and validator), over `JsonValues`;
  `CardRules` says what a valid card is, and `CardTrace` where the entries of a built one come from;
  `ReadyRun` is a concrete run that goes through all of them, and `DeliveredRun` carries out whole
  runs from the commands to the package.
- `SqlPlaceholders` is the rewriting of statements for PostgreSQL.

The protocol assumes one thing about a run: that it reports a cancellation only after its cancel
check has answered yes. `Pipeline.RunExperimentPipeline` ensures it, for every cancel check.

State that the code updates in place is a class whose methods are proved against functions of the
old state; concurrency is a transition system whose runs are lists of steps; whatever the code asks
of the outside world (clock, processes, file contents, cancel answers, crashes) is arbitrary.

## Where the code is weaker than its intent

Every lemma says which version it is about.

- *Test after the claim.* `_run_pipeline_job` only asks whether the row says "running"; its comment
  says that a job claimed by somebody else is given up. `owned` selects the version.
  With the code as written no job is executed twice as long as one instance is up at a time
  (`OneInstanceExecutesOnce`), or no instance resubmits a queued job that somebody holds
  (`UnheldRunsExecuteOnce`; `RestartExact` says that this is the exact condition). Otherwise it can
  be: `LiteralTestRunsTwice`, and for every state `LiteralTestExact`. With the ownership test it
  never is: `NoJobExecutesTwice`. Lemmas that do not name a version hold for both.
- *Recovery.* The recovery's SELECT and UPDATE are one transaction in the locked in-memory store, and
  two statements in the file database. Every theorem over runs holds for both, with two exceptions:
  that no terminal row changes (`RunsAreSafe`) and that a job changes its status at most three times
  (`AtMostThreeStatusChanges`) need recoveries whose UPDATE finds its jobs still open, as atomic ones
  always do (`AtomicRecoveriesAreOpen`; `SplitRecoveryExact` is the exact condition for one UPDATE).
  Otherwise a completed job can turn failed (`SplitRecoveryRevivesTerminalJob`), and the bound is four
  (`RunsPersist`, `AtMostFourStatusChanges`).
- *Queueing.* The check for an active job and the insert are two transactions:
  `CheckedRunsKeepOneActive` and `CheckThenInsertRaces`.
- *Late cancel.* A cancel between the re-read and the final write does not win:
  `LateCancelStillCompletes`. One before the re-read wins, for either test after the claim, exactly
  if no other worker of the job has already decided to write something else (`CancelWinsExact`).
  With the ownership test there is no other (`OwnedCancelWins`); the code as written reaches a state
  where there is (`LiteralTestLosesCancel`), and a run that ends completed (`LostCancelIsReached`).
- *Heartbeats.* They ride on the cancel check, which stops consulting the database once it has
  latched. A worker that needs longer than the staleness limit to stop after a cancel is therefore
  selected by another instance's recovery (`LatchedWorkerIsSelectedExactly`), as is one whose
  heartbeats keep failing (`SelectedExactly`).
- *Run lock.* The lock directory is made after the process lock is taken and before the `try`; if
  that fails, the process lock is never released: `LeakShutsOutTheProcess`, `LeakIsReachable`.
- *Log order.* Batches are written outside the lock of the buffer. Lines stay in order exactly if
  every batch is written before those taken later (`OrderExact`), and those that are persisted, with
  writes that may fail, exactly if no batch is committed after one taken later
  (`PersistedOrderExact`). Two producers, or one and the flush that each event makes, can invert
  them (`TwoProducersCanInvert`, `ProducerAndFlusherCanInvert`).
- *Log paging.* Rows of concurrent transactions can become visible out of order. A client misses a
  row exactly if it arrives with an id at or below the cursor: `LateRowsAreMissed`.
- *Preflight.* A cancel that the training preflight command is the first to hear is reported as a
  failed stage, and no other cancel is (`Train`): `CancelDuringPreflight`.
- *Freshness.* Fresh artifacts are demanded only where a produced path is configured; adapters with
  `requires_external_artifacts` always demand one. The package holds the model file as it is after
  the evaluation command. It is the one that the export stage reported exactly if that command keeps
  it (`RunExperimentPipeline`); `DeliverReplacedModel` is a run that delivers another.
- *Digest cache.* After any run, a cached hash is right exactly if no version of the file has been
  read since the cache was last emptied, or size or mtime tell that version and the present one
  apart, or their digests agree (`CachedHashExact`). While ordinary writes get fresh mtimes, only a
  call between a copy onto the path and the next uncached hash can be wrong (`OnlyWindowsCanBeStale`).
- *Excerpts.* A log limit of one keeps the whole log behind the marker: `ExcerptBoundExact`.
- *Names.* The patterns' `$` accepts a trailing newline: `ParseExact`, `ModelNameIsFamily`.
- *Sessions.* The purge can be noticed exactly when the token of a purged row is created again, with
  an expiry still to come: `CreateKeepsAgreementExactly`, `ReusedTokenRevealsPurge`.
- *Placeholders.* A percent sign in a statement always changes its meaning: `RewritingKeepsMeaning`.

## Model

| member | source | states |
|---|---|---|
| JobTable.PipelineJobStore.CreatePipelineJob | src/vision_model_lab/storage.py:516-526 | a new queued row under an id larger than every id handed out before; no other row changes |
| JobTable.PipelineJobStore.ClaimPipelineJob | src/vision_model_lab/storage.py:528-539 | only a queued row becomes running, with owner, start and first heartbeat; an empty worker id is stored as NULL |
| JobTable.PipelineJobStore.HeartbeatPipelineJob | src/vision_model_lab/storage.py:541-551 | only the owner's started row gets a new heartbeat |
| JobTable.PipelineJobStore.CompletePipelineJob | src/vision_model_lab/storage.py:556-567 | the given outcome is written unless the row is terminal |
| JobTable.PipelineJobStore.FailPipelineJob | src/vision_model_lab/storage.py:569-580 | error and result are written unless the row is terminal |
| JobTable.PipelineJobStore.RequestPipelineJobCancel | src/vision_model_lab/storage.py:582-596 | queued becomes cancelled, running becomes cancellation_requested, anything else stays; None exactly for a missing job |
| JobTable.PipelineJobStore.RecoverOrphanedJobs | src/vision_model_lab/storage.py:598-628 | as one transaction, exactly the orphans fail and are returned, each once |
| JobTable.PipelineJobStore.ListQueuedPipelineJobs | src/vision_model_lab/storage.py:630-635 | exactly the queued ids, in ascending order |
| JobTable.PipelineJobStore.HasActivePipelineJob | src/vision_model_lab/storage.py:637-648 | true exactly if the configuration has a job that is not terminal |
| JobTable.GuardedStatementsKeepShape | src/vision_model_lab/storage.py:528-596 | every guarded UPDATE, with any worker id, keeps which columns are NULL in which status, never changes a terminal row and never raises the rank |
| JobTable.AtomicRecoveryKeepsShape | src/vision_model_lab/storage.py:598-628 | so does a recovery whose SELECT and UPDATE are atomic |
| JobTable.SplitRecoveryExact | src/vision_model_lab/storage.py:610-627 | with the two apart, terminal statuses survive the UPDATE exactly if no selected job has completed or been cancelled meanwhile, and all columns exactly if it finds its rows open or has nothing to change in them |
| JobStartup.StartupConverges | src/vision_model_lab/api.py:132-146 | over every run, for either test and with the recovery in one step or two: between an instance's recovery and its resubmission others may work, claim, beat, recover and crash, but not with heartbeats stamped before the cutoff; then every open job is queued and resubmitted exactly once in id order, or owned by another worker with a heartbeat no older than the cutoff |
| JobStartup.ReconciliationsSpare | src/vision_model_lab/api.py:132-146 | over every run no reconciliation of any instance alters a queued job, and none with an atomic recovery a terminal one |
| JobProtocol.ActionKeepsLocal | src/vision_model_lab/api.py:490-535 | each step of a worker, a claim that raises included, keeps what the worker knows about its row, and the row's shape |
| JobProtocol.StepKeepsThreads | src/vision_model_lab/api.py:478-537 | no step of anybody else invalidates what a worker knows |
| JobProtocol.RunsPersist | src/vision_model_lab/storage.py:516-628 | over every interleaving, recoveries split or not: null patterns, ranks never rise, owner, start and cancel stamp are written once, and a terminal row changes only by having a failure recorded over it |
| JobProtocol.RunsAreSafe | src/vision_model_lab/storage.py:516-628 | if the recoveries find their jobs open, no terminal row ever changes in any column |
| JobProtocol.AtomicRecoveriesAreOpen | src/vision_model_lab/storage.py:606-628 | recoveries whose two statements are one transaction always do |
| JobProtocol.AtMostThreeStatusChanges | src/vision_model_lab/storage.py:516-628 | over every such run a job changes its status at most three times |
| JobProtocol.AtMostFourStatusChanges | src/vision_model_lab/storage.py:516-628 | and over every run at all at most four times |
| JobProtocol.CancellationProvenance | src/vision_model_lab/storage.py:582-596 | in every reachable state a job is cancelled or about to be only if a request was made, and then it is stamped |
| JobWorker.QueuedJobIsExecuted | src/vision_model_lab/api.py:490-500 | under either test a queued job is claimed, with owner, start and heartbeat, and executed |
| JobWorker.OtherJobIsGivenUp | src/vision_model_lab/api.py:491-498 | a job that is over or about to be cancelled is given up and left as it is |
| JobWorker.ForeignJobIsTakenExactly | src/vision_model_lab/api.py:495-498 | a job that somebody else is running is given up by the ownership test and executed by the test as written |
| JobWorker.ReportDecides | src/vision_model_lab/api.py:510-531 | the report decides what a job that nobody has asked to cancel ends as, with every column of the row |
| JobWorker.RequestDecides | src/vision_model_lab/api.py:510-520 | a request outweighs any report |
| JobWorker.CancellationIsSeenFirst | src/vision_model_lab/api.py:452-468 | a cancellation can be reported exactly after a poll that finds the request |
| JobWorker.ExceptionFailsTheJob | src/vision_model_lab/api.py:532-535 | an exception anywhere fails the job unless it is over |
| JobWorker.HeartbeatExact | src/vision_model_lab/storage.py:541-551 | only a thread inside the pipeline beats, and only on a row that it owns and that is not over |
| JobWorker.WorkStepExact | src/vision_model_lab/api.py:478-537 | a worker's step changes its own thread and the row of its job, and nothing else |
| JobWorker.AcceptedJobIsSubmitted | src/vision_model_lab/api.py:539-555 | an accepted request becomes a queued job under a new id, and that job a thread |
| JobWorker.CancelStepExact | src/vision_model_lab/storage.py:582-596 | a cancel request ends a queued job at once, marks a running one and leaves any other alone |
| JobWorker.CrashStepExact | src/vision_model_lab/api.py:132-146 | a crash kills the instance's threads and drops its submissions; every row stays |
| JobWorker.RecoveryStepExact | src/vision_model_lab/storage.py:598-628 | a recovery fails exactly the jobs that are started and its own, nobody's, without a heartbeat or two minutes without one; split in two, exactly those it has selected |
| JobExclusivity.RunsAreExclusive | src/vision_model_lab/api.py:491-498 | the stated intent: with the ownership test, which the code does not make, over every run whoever has executed owns the row, and only one thread has |
| JobExclusivity.NoJobExecutesTwice | src/vision_model_lab/api.py:491-498 | the intent of the comment there: with the ownership test no two threads of any instances, alive or dead, ever execute the same job, although restarts resubmit other instances' queues |
| JobCancellation.CancelWinsExact | src/vision_model_lab/api.py:508-525 | with either test, a cancel that commits before its worker's re-read ends in "cancelled" over all runs without an exception, crash or recovery exactly if no other worker of the job has already decided otherwise |
| JobCancellation.OwnedCancelWins | src/vision_model_lab/api.py:508-525 | with the ownership test it always does |
| JobCancellation.LiteralTestLosesCancel | src/vision_model_lab/api.py:495-525 | the code as written reaches a state from which it need not |
| JobCancellation.LostCancelIsReached | src/vision_model_lab/api.py:495-525 | that run to its end: both workers have written, and the job with the stamped cancel is completed |
| JobExclusivity.FinalWriteFollowsReRead | src/vision_model_lab/api.py:510-525 | the final write says cancelled exactly if the report or the re-read did, and failed exactly if the report did and the re-read did not object |
| JobRaces.LiteralTestExact | src/vision_model_lab/api.py:491-498 | from any state that keeps the invariant, without a further resubmission, the test as written can have a job executed twice exactly if it has been already, or the job can still run and two hold it: threads that executed it or wait for it, and submissions still to be made |
| JobRaces.SubmissionMayStillFollow | src/vision_model_lab/api.py:546-547 | such a state: a second instance starts between a job's insert and its submission |
| JobRaces.LiteralTestRunsTwice | src/vision_model_lab/api.py:495-500 | a reachable state in which two instances execute job 1 |
| JobRaces.RestartResubmits | src/vision_model_lab/api.py:144-146 | a second instance that starts puts the first one's waiting job into its own executor |
| JobRestart.RestartExact | src/vision_model_lab/api.py:144-146 | resubmitting a queued job makes double execution possible, with the test as written, exactly if somebody already holds the job |
| JobRestart.UnheldRunsExecuteOnce | src/vision_model_lab/api.py:478-500 | the code as written executes no job twice, over every run that never resubmits a held job, with recoveries in one step or two |
| JobRestart.OneInstanceExecutesOnce | src/vision_model_lab/api.py:478-500 | the code as written executes no job twice while one instance is up at a time, however often it crashes and restarts |
| JobRaces.SplitRecoveryRevivesTerminalJob | src/vision_model_lab/storage.py:610-627 | a reachable run in which a completed job becomes failed |
| JobRaces.LateCancelStillCompletes | src/vision_model_lab/api.py:510-525 | a reachable run in which a stamped cancel request is followed by "completed" |
| JobRaces.InsertExact | src/vision_model_lab/api.py:541-546 | an insert keeps one open job per configuration exactly if none was open |
| JobRaces.CheckedRunsKeepOneActive | src/vision_model_lab/api.py:539-554 | if every check still holds at its insert, no run opens two jobs for one configuration |
| JobRaces.CheckThenInsertRaces | src/vision_model_lab/api.py:541-546 | two requests that both pass the check open two jobs |
| CancelCheck.CancelCheck.Call | src/vision_model_lab/api.py:452-468 | the answer is yes exactly if it was before, or the call is due and the row says cancellation_requested; the database is consulted exactly when neither latched nor throttled, and the heartbeat lands on the owner's row |
| CancelCheck.RequestIsHeard | src/vision_model_lab/api.py:452-468 | after a request the check answers yes exactly if the database has been consulted since, and it has been once a poll came an interval after the last consultation: with gaps of at most P, within interval + P |
| CancelCheck.SelectedExactly | src/vision_model_lab/storage.py:606-617 | whatever heartbeats land: another worker's recovery selects the job exactly when the limit has passed, in truncated stamps, since the last heartbeat that landed |
| CancelCheck.PollingWorkerIsNeverSelected | src/vision_model_lab/storage.py:606-617 | polls with gaps of at most P: until the check latches no other worker's recovery selects the job while interval + P, once and once more for each heartbeat that has failed since the last, is within the limit |
| CancelCheck.LatchedWorkerIsSelectedExactly | src/vision_model_lab/api.py:452-468 | after latching no poll touches the row again, and it is selected exactly when the limit has passed since the last heartbeat up to then |
| CancelCheck.ChecksAreThrottled | src/vision_model_lab/api.py:455-458 | database checks within a span number at most span / interval + 1 |
| LoginThrottle.LoginThrottle.RetryAfter | src/vision_model_lab/api.py:75-87 | positive exactly while locked out; waiting that long always unblocks, and one second less does exactly if the remaining time is a whole number of seconds |
| LoginThrottle.LoginThrottle.RecordFailure | src/vision_model_lab/api.py:89-92 | one more failure and a lockout counted from now, for this key only |
| LoginThrottle.LoginThrottle.Attempt | src/vision_model_lab/api.py:584-609 | a request reaches verification exactly if its key is not locked out; other keys are untouched |
| LoginThrottle.LockoutBeginsExactly | src/vision_model_lab/api.py:75-96 | `max_failures` attempts in a row are verified; the next one is exactly if a full lockout has passed since the last, and a success starts the count anew |
| LoginThrottle.ReachingIsSpaced | src/vision_model_lab/api.py:75-96 | among failing attempts that reach verification, those `max_failures` apart lie a full lockout apart |
| LoginThrottle.VerificationsAreBounded | src/vision_model_lab/api.py:584-609 | within any window of length T at most max_failures * (floor(T / lockout) + 1) of them |
| LogBuffer.JobLog.RecordPipelineJobLogs | src/vision_model_lab/storage.py:693-711 | a batch is stored whole and in order, or not at all |
| LogBuffer.JobLogBuffer.Add | src/vision_model_lab/api.py:418-425 | a full or overdue buffer is emptied and written as one batch, failures swallowed |
| LogBuffer.LinesAreConserved | src/vision_model_lab/api.py:418-440 | over every interleaving of producers and flushes: each added line is persisted, lost in a failed write, in flight or pending, and only one of these, once; and pending stays below the limit |
| LogOrder.OrderExact | src/vision_model_lab/api.py:418-440 | over every run of any producers and flushers: settled, in flight and pending lines are in the order in which they were added exactly if every batch was written before those taken later |
| LogOrder.PersistedOrderExact | src/vision_model_lab/api.py:418-440 | over every such run, with writes that may fail: the persisted lines are added ones, and in the order in which they were added exactly if no batch was committed after one taken later |
| LogOrder.AlonePersistsInOrder | src/vision_model_lab/api.py:418-440 | if no thread takes a batch while another carries one, the persisted lines are an ordered part of the added ones, and without a failed write a prefix |
| LogOrder.TwoProducersCanInvert | src/vision_model_lab/api.py:423-425 | two producers can persist their lines in the opposite order, because the write is outside the lock |
| LogOrder.ProducerAndFlusherCanInvert | src/vision_model_lab/api.py:481-486 | so can one producer and a thread that only flushes, as the job's events do |
| LogPaging.JobLogTable.ListPipelineJobLogs | src/vision_model_lab/storage.py:713-754 | incremental, tail and plain pages; the tail is the last min(N, n) rows, ascending |
| LogPaging.AskIsFaithful | src/vision_model_lab/storage.py:723-732 | one incremental question returns exactly the next rows, as many as there are up to the limit |
| LogPaging.PagingIsExactlyOnce | src/vision_model_lab/storage.py:713-754 | over every interleaving of questions and arrivals in id order the rows seen are the first so many, once each, ascending, without gaps |
| LogPaging.LateRowsAreMissed | src/vision_model_lab/storage.py:693-754 | with arrivals in any order the rows seen are ascending, each once, and a row up to the cursor is missed exactly if it arrived with an id at or below the cursor of that time |
| LogPaging.PagingCatchesUp | src/vision_model_lab/storage.py:713-754 | with any limit of at least one the client ends up with every row |
| Timestamps.StoredByField | src/vision_model_lab/storage.py:20-22 | cutting three characters off leaves exactly the milliseconds |
| Timestamps.StoredOrderIsTimeOrder | src/vision_model_lab/storage.py:20-22 | stored strings compare exactly as the times truncated to milliseconds, for four-digit years |
| AuthSessions.SessionStore.CreateAuthSession | src/vision_model_lab/storage.py:1039-1046 | a live session under a token that is new, and no change under one that is not; no other row changes |
| AuthSessions.SessionStore.RevokeAuthSession | src/vision_model_lab/storage.py:1057-1059 | the session of the token is revoked, whether live or not; no other row changes |
| AuthSessions.SessionStore.GetAuthSession | src/vision_model_lab/storage.py:1048-1055 | a session exactly if its token is known, not revoked and not expired, and then that session |
| AuthSessions.RevocationIsFinal | src/vision_model_lab/storage.py:1057-1059 | after a revocation every later lookup of the token answers None, whatever is purged, until the token is created again |
| AuthSessions.LiveSessionIsFound | src/vision_model_lab/storage.py:1048-1068 | until it expires or is revoked, a session is found over every run, and no purge before its expiry deletes it |
| AuthSessions.SessionStore.PurgeExpiredAuthSessions | src/vision_model_lab/storage.py:1061-1068 | deletes exactly the rows that are revoked or expired, and counts them |
| AuthSessions.CreateKeepsAgreementExactly | src/vision_model_lab/storage.py:1039-1046 | a create keeps a purged table in agreement with the full one exactly if its token is not that of a purged row or its session is unusable already; otherwise the next lookup tells them apart |
| AuthSessions.PurgingIsUnobservable | src/vision_model_lab/storage.py:1039-1068 | over every run without such a create, whatever is purged in between, every lookup answers alike |
| AuthSessions.PurgeIsInvisible | src/vision_model_lab/storage.py:1061-1068 | from an empty table, with token hashes created at most once, every lookup answers the same with and without the purges |
| AuthSessions.ReusedTokenRevealsPurge | src/vision_model_lab/storage.py:1039-1046 | with a token hash created twice the purge does show |
| RunLock.StepKeepsInv | src/vision_model_lab/pipeline.py:42-90 | every step, crash included, keeps who holds which lock in line with where everybody is |
| RunLock.MutualExclusion | src/vision_model_lab/pipeline.py:42-90 | over all processes, threads, interleavings and crashes at most one run is inside |
| RunLock.LocksMatchSections | src/vision_model_lab/pipeline.py:54-90 | whoever is outside holds neither lock, unless its lock directory could not be made |
| RunLock.ContenderWinsExactly | src/vision_model_lab/pipeline.py:42-73 | a contender by itself gets inside exactly if the lock of its process and the file lock are free |
| RunLock.WinnerHoldsBothLocks | src/vision_model_lab/pipeline.py:61-90 | inside it holds both locks and nothing else has changed; behind its exit everything is as before |
| RunLock.FailedOpenLeavesNoTrace | src/vision_model_lab/pipeline.py:54-90 | a lock file that cannot be opened leaves no lock behind |
| RunLock.CrashFreesLocks | src/vision_model_lab/pipeline.py:42-90 | a process that dies gives up its lock, leaked or not, and the file lock if one of its threads held it |
| RunLock.LoserLeavesNoTrace | src/vision_model_lab/pipeline.py:47-90 | a contender that loses at either level, taken by itself, leaves the state as it found it |
| RunLock.LoserAmongOthers | src/vision_model_lab/pipeline.py:47-90 | among any steps of others, a thread that never finds the file lock free does not change it, and back outside it holds the lock of its process no more, unless that has leaked |
| RunLock.OnlyWinnersTouchTheFileLock | src/vision_model_lab/pipeline.py:61-86 | the file lock changes only when it is won from nobody, or given up by its holder or its holder's crash |
| RunLock.OnlyHoldersTouchTheThreadLock | src/vision_model_lab/pipeline.py:47-90 | the lock of a process changes only when one of its threads finds it free, by its holder's release, or by a crash |
| RunLock.LeakShutsOutTheProcess | src/vision_model_lab/pipeline.py:47-54 | after a failure before the try block no thread of that process gets inside until it dies |
| RunLock.LeakIsReachable | src/vision_model_lab/pipeline.py:47-54 | a run that ends in such a leak |
| ExternalCommand.PollLoop | src/vision_model_lab/adapters/local_tasks.py:342-363 | for any process and cancel check the loop ends within 10 * timeout + 1 iterations with the first decision: exit, cancel or deadline, in this order |
| ExternalCommand.DecisionExact | src/vision_model_lab/adapters/local_tasks.py:342-363 | an exit goes before a cancel, a cancel before the deadline, and the deadline is passed when it is reached |
| ExternalCommand.OutcomeIsUnique | src/vision_model_lab/adapters/local_tasks.py:342-363 | there is exactly one outcome |
| ExternalCommand.StreamCollector.Pump | src/vision_model_lab/adapters/local_tasks.py:201-222 | keeps whole lines, the shortest prefix that reaches four times the limit; hands on every line that is not empty |
| ExternalCommand.JoinedAppends | src/vision_model_lab/adapters/local_tasks.py:201-240 | kept text follows the order of the lines |
| ExternalCommand.EmittedAppends | src/vision_model_lab/adapters/local_tasks.py:209-215 | so do the lines handed on |
| ExternalCommand.OneIsEmitted | src/vision_model_lab/adapters/local_tasks.py:209-215 | a line is handed on without its line end, and an empty one not at all |
| ExternalCommand.ShortestPrefixIsUnique | src/vision_model_lab/adapters/local_tasks.py:206-208 | that prefix is determined |
| ExternalCommand.ExcerptKeepsBothEnds | src/vision_model_lab/adapters/local_tasks.py:93-102 | for a limit of at least two, a cut log shows its first fifth and fills the limit from its end |
| ExternalCommand.ExcerptBoundExact | src/vision_model_lab/adapters/local_tasks.py:93-102 | the excerpt respects limit + marker exactly if the limit is not one or nothing was cut |
| ExternalCommand.RunExternalCommand | src/vision_model_lab/adapters/local_tasks.py:246-363 | ok exactly if started and first decided by exit code 0; cancelled exactly if the last answer was yes, and no earlier answer was; each refusal under its own condition, in the order of the checks; the excerpts are those of the lines that the collectors have read when they are joined |
| TaskAdapter.Host.Run | src/vision_model_lab/adapters/local_tasks.py:246-363 | a command touches the files only if it is started, and is cancelled exactly if it heard a yes |
| TaskAdapter.FreshIsRenewed | src/vision_model_lab/adapters/local_tasks.py:395-398 | an artifact is fresh exactly if it is there, and was not before or had another digest or another mtime |
| TaskAdapter.Train | src/vision_model_lab/adapters/local_tasks.py:499-627 | completed only without any yes, with a successful command and, if one is configured, a checkpoint that is there and was not before or has another digest or mtime; after a yes it fails exactly if the preflight command was the first to hear it, and is cancelled otherwise; a command that succeeds and leaves the checkpoint untouched fails the stage as stale; every failure has its cause |
| TaskAdapter.DeliverOnnx | src/vision_model_lab/adapters/local_tasks.py:746-797 | the produced model is there, fresh, copied to its place and loadable, or exactly that is missing |
| TaskAdapter.Export | src/vision_model_lab/adapters/local_tasks.py:629-857 | the model handed on loads; it is called external exactly if a command made it, and then it is the produced file, which was not there before or has another digest or mtime; an untouched one fails the stage as stale; cancelled exactly after a yes |
| TaskAdapter.ReportedAreTheNumbers | src/vision_model_lab/adapters/local_tasks.py:459-485 | what is read from a metrics file are exactly its numbers: there is a result exactly if there is a number, thresholds are met by it exactly if they are met in the file, and reading it back gives the same again |
| TaskAdapter.DeclaredExactly | src/vision_model_lab/adapters/local_tasks.py:988-997 | without a metrics file the declared numbers go before the defaults, and the source says whether anything is declared |
| TaskAdapter.Evaluate | src/vision_model_lab/adapters/local_tasks.py:859-1016 | completed only with metrics read from a file that, if a command had to write it, was not there before or has another digest or mtime; an untouched one fails the stage as stale; a missing model is exported first; cancelled exactly after a yes |
| Pipeline.RunStages | src/vision_model_lab/pipeline.py:236-309 | stages run in order up to the first that does not complete, with exactly the matching events; cancelled only after a yes |
| Pipeline.CompletedStagesCompleteTheRun | src/vision_model_lab/pipeline.py:116-120 | behind three completed stages the pipeline status is completed, so the refusal to package anything else never fires |
| Pipeline.CreatePackage | src/vision_model_lab/pipeline.py:410-472 | succeeds exactly if the gate passes, the card can be built, the finished card is valid for the file that is copied, and the given answer for labels, examples and the runtime check is yes |
| Pipeline.PackagingExact | src/vision_model_lab/pipeline.py:410-472 | under the production profile that is so exactly if the card is ready before it is built |
| Pipeline.RunUnlocked | src/vision_model_lab/pipeline.py:236-345 | a package exactly for a completed run that asked for one; a failure behind three completed stages means packaging was impossible |
| Pipeline.DeliveryIsEvidenced | src/vision_model_lab/trust.py:102-136 | with trusted adapters and the production profile a deliverable run has fresh checkpoint, ONNX and metrics, measured metrics that meet every threshold, and a card that was ready |
| Pipeline.ReportedModelExact | src/vision_model_lab/pipeline.py:278-345 | the model that is there after evaluation has the digest that the export stage reported exactly if the evaluation command keeps the file |
| Pipeline.RunExperimentPipeline | src/vision_model_lab/pipeline.py:348-368 | for any cancel answers, commands, and stages that raise anywhere with any files: a delivered package implies exactly the eight events in order and that evidence, and its digest is the reported one exactly if the evaluation command keeps the file; given that the run lock is taken, nothing changes |
| DeliveredRun.DeliverReplacedModel | src/vision_model_lab/pipeline.py:278-345 | a whole run that delivers a model with another digest than the export stage reported |
| DeliveredRun.CancelDuringPreflight | src/vision_model_lab/adapters/local_tasks.py:559-576 | a training stage that is asked to cancel during its preflight command, and fails |
| DigestCache.DigestCache.Sha256File | src/vision_model_lab/utils.py:91-122 | an uncached call returns the digest of the current content; never more than 512 entries |
| DigestCache.CacheRefinesPlainHashing | src/vision_model_lab/utils.py:91-122 | over any run of writes, mtime-preserving copies, removals and hash calls in the stated discipline the cache is never noticed |
| DigestCache.OnlyWindowsCanBeStale | src/vision_model_lab/utils.py:91-122 | over any run with fresh mtimes of ordinary writes, every hash call is right that is not a cached one between a copy onto its path and the next uncached hash of it |
| DigestCache.CachedHashExact | src/vision_model_lab/utils.py:91-122 | after any run of writes, copies, removals and hash calls, a cached hash is right exactly if no version of the file has been read since the cache was last emptied, or size or mtime tell it from the present one, or their digests agree |
| DigestCache.CopyDefeatsTheKey | src/vision_model_lab/packaging/model_package.py:497-500 | without the uncached hash, a copy of equal size and mtime returns the old digest |
| DigestCache.PackagingSeesTrueDigests | src/vision_model_lab/packaging/model_package.py:497-500 | copying, then at once hashing uncached, then validating cached: every digest is that of the content |
| ArtifactNames.VersionsAreTriples | src/vision_model_lab/naming.py:8 | versions are exactly the canonical decimal prints of three naturals (item 2 of Semantic Versioning 2.0.0) |
| ArtifactNames.VersionsAreUnambiguous | src/vision_model_lab/naming.py:8 | and each is the print of only one triple |
| ArtifactNames.FamiliesAreGenerated | src/vision_model_lab/naming.py:9-11 | a family is a lower-case letter or digit followed by such characters and underscores, and nothing else is |
| ArtifactNames.NamesAreUnambiguous | src/vision_model_lab/naming.py:9-11 | a printed name has one reading, although a family may contain `_v` |
| ArtifactNames.ParseAfterPrint | src/vision_model_lab/naming.py:30-43 | parsing a printed name gives back its parts |
| ArtifactNames.ParseExact | src/vision_model_lab/naming.py:30-43 | parsing succeeds exactly on printed names, and on those with one trailing newline |
| ArtifactNames.ModelNameIsFamily | src/vision_model_lab/packaging/model_package.py:403-404 | stripping the suffixes gives back the family exactly if no newline trails |
| ArtifactNames.ParsedVersionIsSemver | src/vision_model_lab/naming.py:26-27 | every parsed version passes the card's version check |
| TrustGate.ValidatePackageTrust | src/vision_model_lab/trust.py:90-153 | reports exactly the issues that apply, and none exactly if the gate is passed |
| TrustGate.GatePassesExactly | src/vision_model_lab/trust.py:90-153 | the gate passes exactly a smoke package, and a production package with completed external measured stages, thresholds that are configured and met, an examples directory that is there, limitations that are not the template's, and a good manifest for each of train, val and test |
| TrustGate.ProfileExact | src/vision_model_lab/trust.py:24-28 | the profile is production when none is given, and else its text, stripped and in lower case |
| TrustGate.PassedGateMeetsThresholds | src/vision_model_lab/trust.py:122-136 | behind the production gate every configured metric is numeric and at least its threshold |
| TrustGate.PassedGateTrustsStages | src/vision_model_lab/trust.py:106-151 | behind the production gate all stages completed, from external commands, measured, with a checkpoint and real limitations |
| ModelCard.ValidateModelCard | src/vision_model_lab/model_card.py:52-234 | reports exactly the defects of the card, in both modes, and is ok exactly if there are none |
| CardRules.ValidCardExactly | src/vision_model_lab/model_card.py:52-234 | a card is valid exactly if its layout, fields, file name, digest and, in strict mode, provenance and release facts follow the rules, each written out |
| CardBuilder.InputSectionExact | src/vision_model_lab/trust.py:171-179 | the built input section is valid exactly if all sizes are positive and layout and dtype are known |
| CardBuilder.OriginExact | src/vision_model_lab/model_card.py:202-211 | the built origin is valid exactly if experiment id, config path and digest are not blank and the revision is known |
| CardBuilder.GateThenCard | src/vision_model_lab/trust.py:156-283 | behind the production gate the finished card passes strict validation exactly if it is ready: a condition on configuration, checkpoint digest and surroundings that names everything the gate does not look at |
| CardTrace.FinishedCardIsTold | src/vision_model_lab/trust.py:156-283 | every entry of a finished card is the part of the file name, the configured text, the stage's evidence or the digest that its name says |
| CardTrace.ShapeExact | src/vision_model_lab/trust.py:168-179 | the shape is the configured four sizes, or two behind one image of three channels, or the default |
| ReadyRun.GateIsBlindToRevision | src/vision_model_lab/model_card.py:210-211 | a concrete run that the production gate passes at every code revision, while its card is valid exactly if the revision is known |
| SqlPlaceholders.RewriteNamedPrints | src/vision_model_lab/storage.py:1226-1228 | rewriting named placeholders is printing the statement's pieces in the other style |
| SqlPlaceholders.NameIsRewritten | src/vision_model_lab/storage.py:1226-1228 | a colon with a whole name of ASCII letters, digits and underscores becomes one placeholder of that name |
| SqlPlaceholders.OtherTextStays | src/vision_model_lab/storage.py:1224-1231 | text without a colon, or without a question mark, stays as it is |
| SqlPlaceholders.NamesAreWhole | src/vision_model_lab/storage.py:1227-1228 | a name is never cut short, even if another name is its prefix |
| SqlPlaceholders.ReadBackExact | src/vision_model_lab/storage.py:1224-1238 | the driver reads back the printed pieces exactly if none of them is a percent sign |
| SqlPlaceholders.RewritingKeepsMeaning | src/vision_model_lab/storage.py:1224-1238 | for named and positional placeholders alike, the meaning is kept exactly for statements without a percent sign |

## Left out

- FastAPI routing, authentication middleware, uploads, downloads, the front end and the command line: plumbing around the operations modelled here.
- PBKDF2, token generation and the inside of SHA-256: hashing is any function of the contents.
- Real SQLite and PostgreSQL, journal modes, DDL, migrations, connection pools and row serialisation: a statement is an atomic step on a map; ids are handed out in increasing order.
- Process spawning and killing, pipes, ONNX loading, the synthetic model and `git`: arbitrary answers.
- Path confinement and environment stripping: a path resolves or does not, as an arbitrary function says.
- Registry, approval and rollout records, contracts, manifests, example checks, audit and run records, retention of old records, `unique_preserve_order`: single-branch operations on one record at a time, without a protocol or an evidence chain of their own.
- YAML and JSON text: values are a JSON-like datatype; a card that is written and read back is the same value. NaN, infinities and Unicode case folding or white space are outside that datatype.
- Clocks: the monotonic and the wall clock of a worker advance together and instances agree on the time; a heartbeat is stamped at the moment of its poll. Each `sleep(0.1)` advances the clock by at least 0.1 seconds.
- Sessions are looked up by token hash; row ids, user names and `last_seen` columns are not part of the table.
- File digests: reading a file's size and mtime and reading its contents are one step, so a file that changes in between is not modelled; hashing raises only for a missing file.
- Stage reports on disk, log sinks inside a stage, report texts and the rendered command are not modelled; a stage's cause of failure is an enumeration instead of a message. Directories count as missing files.
- The reference identity adapter; a package is created from the payloads of the run and not from reports loaded from disk; labels, examples and the ONNX runtime check of a package are one arbitrary answer.
- The `RETURNING id` suffix of the PostgreSQL adapter, and placeholders inside quoted text, which SQLite would not read as placeholders.
- ExternalCommand.RunExternalCommand: leaves open the display texts that stand in for an empty stderr and that explain a refusal; a collector is joined for at most five seconds, and which lines it has read by then is an answer.
- DigestCache.PackagingSeesTrueDigests: copy and uncached hash follow each other at once; a cached call of another thread between them is covered by DigestCache.OnlyWindowsCanBeStale and DigestCache.CachedHashExact.
- JobStartup.StartupConverges: is about reconciliations that do not raise, and about claims and heartbeats that are not stamped before the cutoff of the recovery; the log and audit writes between recovery and listing do not touch the table.
- LogBuffer.JobLogBuffer.Add: the method is the uncontended case; interleavings of the locked section and the write are in the transition system beside it.
- JobExclusivity.NoJobExecutesTwice: is about the ownership test; for the test after the claim as it is written see JobRestart.OneInstanceExecutesOnce and JobRestart.RestartExact.
- JobExclusivity.RunsAreExclusive: likewise.
- RunLock.LoserLeavesNoTrace: is about the contender's own steps; among steps of others see RunLock.LoserAmongOthers.
- Pipeline.RunExperimentPipeline: the outcome of the run lock is an answer; so is whether a stage raises on something outside its own conditions, such as a file operation, and then with which files and after how many questions. One configuration holds for the whole run, where each stage reads the YAML file again.
- TaskAdapter.Train: by itself raises only on a configuration that cannot be read; exceptions of the file system inside a stage are answers given to the run, as they are for TaskAdapter.Export and TaskAdapter.Evaluate.
