# Agent runtime grid: the delivery protocol and its evidence, modelled and proved

The agent runtime grid runs jobs that are stored in Postgres and delivered through a Redis stream with one consumer
group. Workers lease a message, record `running`, execute, record the outcome and acknowledge. A transient error
publishes the next attempt; a recovery pass takes over leases that went stale; a guard table makes finalization
idempotent. On top of this sit idempotent submission, a cost ledger with a rollup, an artifact store, a report over
the event log, and a reliability command that injects a shuffled failure plan and checks the evidence.

This project describes that behaviour in Dafny and proves what it is meant to guarantee. Check it with `dafny verify
dfyconfig.toml`.

## How the model is built

* `Domain`, `Store` and `Streams` hold the records and the two stores as values: a committed transaction is one
  `DbOp`, a stream command one `QueueOp`.
* `Protocol` is the transition system. Every committed transaction, publish, lease, acknowledgement, dead-letter add,
  heartbeat and artifact write is one step of one actor. Actors interleave freely and can crash between any two steps.
  The files of the artifact store hold bytes, and a completed event carries the runner's result and the metadata of
  its artifact. A run is a sequence of states and actions from empty tables.
* `Runtime`, `Repository`, `Recovery`, `Rounds`, `Artifacts`, `Cancellation`, `Ledger`, `Reports`, `Inspection`,
  `FailureInjection`, `Reliability` and `ReliabilityProof` are the program in its own form: classes whose methods
  change fields, and loops. A worker's method is proved to be a path of protocol steps; a recovery pass, the drain
  loop and the report loops are proved against specification functions.
* The other modules are about runs. Three regimes are kept apart, because different things hold in them:
  * *any run*: `Safety`, `Guard`, `Provenance`, `FanOut`, `FanOutReached`, `RetryBudget`, `Budget`, `Repository`,
    `Recovery`, `Inspection`, and `TornBlock`, which adds one more kind of crash;
  * *single-flight* (`SingleFlight`, `Execution`, `Conflicts`, `Reports`): a job is published once by its submitter,
    recovery takes only entries whose holder stopped, no crash between a publish and the acknowledgement after it, no
    cancellation of a job that a worker is executing;
  * *fault-free* (`FaultFree`, `Determinism`, `Rounds`, `Reliability`, `ReliabilityOutcome`, `ReliabilityProof`):
    single-flight without crash, recovery or cancellation, which is the setting of the smoke and reliability commands.
* `Drain` is about workers alone, from any state; `Heartbeat` adds a clock to the protocol, `StaleThreshold` says
  exactly when timed runs are single-flight, and `Detection` that what a crash leaves behind is found in time.
* `Provenance` says of every kind of step what it writes, field by field and without the functions of `Store` and
  `Protocol` that compute it, and of every row and every event of a run which step wrote it.
* JSON, the hash and `str()` are parameters of the artifact store. The theorems about artifacts assume that decoding
  undoes encoding; `Codecs` gives a codec that meets this for every document, floats included.
* `Isolation` projects a run on tables that already hold other jobs to the jobs of its own, which gives a run from
  empty tables; `OwnReports` does the same for the report. This is how the smoke and reliability commands are proved
  on any database, not only on a fresh one.

## What the proofs found

* The retry commit of a worker does not look at the job row again (`src/agent_runtime_grid/worker/loop.py:184-192`).
  If a recovery pass takes a slow worker for a dead one and the requeued job fails for good elsewhere, the slow
  worker's retry puts the failed job back to `queued`, and the status never agrees with the guard table again.
  `Guard.LateRetryHappens` gives the run, for every stale threshold and without any cancellation;
  `Guard.StatusTrustedIffNoLateRetry` shows that this commit is the only way status and guard come to disagree, and
  `Guard.DisagreementLasts` that the disagreement is permanent.
* The dispatch budget block acknowledges inside a transaction that has not committed
  (`src/agent_runtime_grid/worker/loop.py:83-95`), while `docs/COST_BUDGET.md:117` says that the acknowledgement comes
  after the event is recorded. The protocol follows the code and takes both as one step. `TornBlock` adds the crash
  between them, any number of times in a run. A published job is *lost* when it has a row and no guard row, none of
  its entries is unacknowledged, and no actor works on it. The crash loses exactly the blocked job, and that one if
  and only if it still has to be finalized and nothing but the blocked message was left of it. A lost job stays lost,
  and recovery and draining finalize exactly the other ones.
* Recovery does not look at the retry budget (`src/agent_runtime_grid/worker/recovery.py:103`): crashes and passes
  alone take a job to every attempt up to max_retries + 1 under any retry budget (`RetryBudget.RecoveryReaches`). The
  budget bounds the attempts of a run if and only if no pass requeues an entry that is already above it.
* How long must the stale threshold be? With a heartbeat on, one recovery pass at a time, each job published once, no
  crash between a publish and the acknowledgement after it, and no cancellation of an executing job, the status column
  can be trusted in every run if and only if startup + interval + slack is below the threshold
  (`StaleThreshold.StaleThresholdIsExact`). The only-if direction needs a job that may be retried and two workers that
  admit it. Without a heartbeat no threshold is long enough, because nothing here bounds an execution.
  Below the bound, a scan with a large enough count returns exactly the entries that a crash has left behind and whose
  lease is as old as the threshold (`Detection.ScanIsExact`).
* The bound on the entries that one publish can grow into is reached, for every max_retries
  (`FanOutReached.FanOutIsReached`).
* The duplicate-terminal-event query looks for events named after a terminal status and so never counts
  `budget_blocked`. The guard is stronger than the query: at most one event of any of the five final types exists.
* The report raises on a completed job whose result overrides an identity field of its artifact, and on no other
  (`Reports.ReportRaisesIff`). A runner outside the repository can return such a result (`Reports.OverrideRaises`);
  the stub and the two clients in `jobs/` set none of the identity fields and give the path as text. An
  `eval_result_path` that is not text counts as such an override, because it makes a freshly written artifact fail its
  own validation (`Artifacts.WrittenIsIntactIff`).
* Credits in a ledger let one run exceed the limit that the ledger as a whole keeps; `Ledger.RunLimitHoldsIff` gives
  the exact lower bounds on costs for which that cannot happen.
* The reliability command accepts exactly when enough failures are injected: at least four with timeouts in the
  rotation, three for replay evidence alone, one for retry evidence alone.

## Model

| member | source | states |
|---|---|---|
| Safety.NoWorkLost | src/agent_runtime_grid/worker/loop.py:69-213 | In every state of every run, the newest stream entry of a job that has a row and no finalization is still undelivered or pending |
| Safety.RunKeepsInv | src/agent_runtime_grid/worker/recovery.py:54-77 | All table, stream and actor invariants hold in every state of every run, with crashes anywhere, duplicate publishes, false staleness and cancellation |
| Safety.InvStep | src/agent_runtime_grid/worker/loop.py:69-213 | Each single step of any actor keeps those invariants |
| Safety.CoverStep | src/agent_runtime_grid/queue/redis_streams.py:118-147 | An acknowledged entry always belongs to a finalized or unknown job, or has a newer entry of the same job |
| Safety.NewPcShape | src/agent_runtime_grid/worker/loop.py:166-213 | What an actor still has to do always refers to a delivered entry, a job snapshot that differs at most in status, and an attempt in range |
| Recovery.CrashRecoveryIsComplete | src/agent_runtime_grid/worker/recovery.py:39-136 | From any reachable state with all actors stopped, n passes with threshold 0 and n times count at least the pending entries empty the pending list; every worker-only continuation is bounded, and one that is stuck has drained the stream with every published job finalized |
| Recovery.PassesClear | src/agent_runtime_grid/worker/recovery.py:39-85 | Those passes are a path of protocol steps that ends stopped with nothing pending |
| Recovery.PassShrinks | src/agent_runtime_grid/queue/redis_streams.py:65-96 | A pass with threshold 0 takes min(count, pending) leases and leaves the others as they were |
| Recovery.PassLeads | src/agent_runtime_grid/worker/recovery.py:39-85 | A pass without interleaving is a path of protocol steps of one actor from idle to idle |
| Recovery.PassEffectsHold | src/agent_runtime_grid/worker/recovery.py:54-77 | A pass removes exactly the detected entries from pending, each new entry is the next attempt of a detected one, and jobs without a detected entry are untouched |
| Recovery.RecoverStaleLeases | src/agent_runtime_grid/worker/recovery.py:39-85 | The loop makes tables and stream what the specification of a pass says; detected = requeued + dlq + terminal + missing, the stream grows by requeued and the dead-letter stream by dlq |
| Recovery.RecoverLease | src/agent_runtime_grid/worker/recovery.py:54-77 | One lease: the tables and stream after it, and the one counter that moves |
| Recovery.PlanRecoveryAction | src/agent_runtime_grid/worker/recovery.py:88-136 | The transaction that decides: missing, terminal, requeue of the next attempt, or final failure and dead letter |
| Recovery.HandleLeaseLeads | src/agent_runtime_grid/worker/recovery.py:54-77 | Plan, then publish or dead-letter, then acknowledge, are protocol steps in that order |
| Guard.OneFinalizationPerJob | src/agent_runtime_grid/storage/finalization.py:27-99 | In every run a guard row is never changed or removed, a job has one event of a final type if it has a row and none otherwise, of the row's kind, and the duplicate query is empty for every run filter |
| Guard.EveryFinalizeCallIsAccountedFor | src/agent_runtime_grid/storage/finalization.py:50-72 | Committed finalize calls = guard rows + conflict rows, in every state of every run |
| Guard.StatusTrustedIffNoLateRetry | src/agent_runtime_grid/worker/state_machine.py:77-98 | A terminal status always has a guard row with that status; the converse, with the final event last, holds throughout a run if and only if no retry commit of the run follows the job's finalization |
| Guard.AgreeStep | src/agent_runtime_grid/worker/loop.py:184-192 | In an agreeing state a step breaks agreement exactly when it is a late retry |
| Guard.LateRetryHappens | src/agent_runtime_grid/worker/loop.py:166-200 | For every stale threshold a run of two actors, without a cancellation, in which a job that failed for good ends with status queued |
| Guard.DisagreementLasts | src/agent_runtime_grid/storage/finalization.py:38-72 | A job whose status differs from its guard row shows a non-terminal status in every later state of every run |
| Provenance.EventOrigin | src/agent_runtime_grid/worker/state_machine.py:40-220 | Every event of every run was appended by exactly one step, of the kind that its type, worker and attempt call for: by a start of an admitted job, by the outcome of that attempt on that worker, by a pass that held the entry, by a submission or by a cancellation |
| Provenance.FailureClass | src/agent_runtime_grid/worker/loop.py:159-209 | In every run a failed event is retryable if and only if a transient error or a stale lease ended the attempt max_retries + 1, and not retryable if and only if a policy error did |
| Provenance.StartWrites | src/agent_runtime_grid/worker/loop.py:70-101 | What the first transaction leaves: nothing for an unknown or terminal job, status running and its event for an admitted one, and otherwise failed with the guard row, the budget_blocked event and the acknowledgement |
| Provenance.FinishWrites | src/agent_runtime_grid/worker/loop.py:125-153 | What success, policy error, timeout and cancellation leave, each with its status, event type, worker and attempt, and retryable false for a policy error |
| Provenance.TransientWrites | src/agent_runtime_grid/worker/loop.py:159-209 | What a transient error leaves: queued with the next attempt to publish, the budget block, or the retryable failure, told by max_retries and the retry budget alone |
| Provenance.PlanWrites | src/agent_runtime_grid/worker/recovery.py:88-136 | What the plan for one stale lease leaves: nothing, status queued with an event that names the pass, the attempt, its successor and the entry, or the retryable failure and a dead letter to add |
| Provenance.SubmitWrites | src/agent_runtime_grid/storage/repositories.py:21-62 | What a submission leaves: nothing for a taken key, otherwise one row with the submission's values and its submitted event |
| Provenance.CancelWrites | src/agent_runtime_grid/worker/cancellation.py:30-42 | A cancellation of a queued job finalizes it as cancelled with attempt 0, or leaves one conflict row |
| Provenance.PublishWrites | src/agent_runtime_grid/queue/redis_streams.py:38-39 | A publish appends exactly the message that the actor carries, the submitter's with attempt 1, before the acknowledgement |
| Provenance.LeaseWrites | src/agent_runtime_grid/queue/redis_streams.py:41-63 | A lease takes the first undelivered entry and makes it pending for the worker at that time |
| Provenance.AckWrites | src/agent_runtime_grid/queue/redis_streams.py:115-116 | An acknowledgement removes the actor's entry from pending and nothing else |
| Provenance.DeadLetterWrites | src/agent_runtime_grid/queue/redis_streams.py:118-147 | A dead letter names the job and the attempt of the entry |
| Provenance.RenewWrites | src/agent_runtime_grid/queue/redis_streams.py:98-113 | A renewal resets the lease of a pending entry and touches nothing else |
| Provenance.ArtifactWrites | src/agent_runtime_grid/worker/loop.py:133-146 | The artifact is requested for the message's job and attempt, the worker, and the run and payload of the loaded row |
| Provenance.ScanWrites | src/agent_runtime_grid/queue/redis_streams.py:73-95 | A scan changes nothing and hands the pass exactly the first count stale entries, in id order |
| Provenance.StopWrites | src/agent_runtime_grid/worker/recovery.py:78-85 | The end of a pass, and a crash of an actor, change nothing but the position of that actor |
| Provenance.RowOrigin | src/agent_runtime_grid/storage/repositories.py:28-47 | Every row of every run has the run, type, payload, hash, key, timeout, retries and budget of the one submission that inserted it |
| Provenance.AcceptedRowLasts | src/agent_runtime_grid/storage/repositories.py:28-47 | A submission that is accepted leaves a row with these eight values of its own in every later state |
| Provenance.RanAsSubmitted | src/agent_runtime_grid/cost/telemetry.py:77-103 | Whatever a worker ran was submitted with a type and budget that the worker's policy admits |
| Store.ApplyKeepsGuardInv | src/agent_runtime_grid/storage/finalization.py:38-72 | Every transaction keeps guard rows, final events and terminal statuses consistent |
| Store.ApplyGrows | src/agent_runtime_grid/worker/state_machine.py:223-240 | No transaction removes a row, event or conflict, or changes a job beyond its status |
| Store.NoDuplicateTerminalEvents | src/agent_runtime_grid/storage/finalization.py:86-99 | With consistent tables the duplicate query is empty for every run filter |
| Store.ApplyKeepsUniqueKeys | src/agent_runtime_grid/storage/models.py:27 | Idempotency keys stay unique |
| Store.ApplyKeepsOneSubmittedEvent | src/agent_runtime_grid/storage/repositories.py:48-60 | Each job keeps exactly one submitted event |
| TornBlock.TornBlockLosesIff | src/agent_runtime_grid/worker/loop.py:83-95 | After any run with torn blocks, a crash between a block's acknowledgement and its commit loses the blocked job if and only if it is not finalized, the blocked entry is its only unacknowledged one and no other actor works on it; it loses no other job |
| TornBlock.LostForever | src/agent_runtime_grid/worker/loop.py:83-95 | A lost job stays lost through workers, passes, crashes and further torn blocks, until a submitter publishes it again or it is cancelled |
| TornBlock.TornRecoveryIsExact | src/agent_runtime_grid/worker/recovery.py:39-136 | After any run with torn blocks that ends with all actors stopped, enough passes empty the pending list, every drain is bounded, and a stuck one has finalized every published job except exactly the lost ones |
| TornBlock.NothingLostOtherwise | src/agent_runtime_grid/worker/loop.py:69-213 | In runs without torn blocks no job is ever lost |
| TornBlock.TornBlockLosesAJob | src/agent_runtime_grid/worker/loop.py:83-95 | For every submission that a worker's policy does not admit, a run after which such a crash loses the job |
| SingleFlight.SingleFlightIsSafe | src/agent_runtime_grid/worker/loop.py:69-213 | Single-flight runs contain no late retry, so status and guard agree and the final event is last; a job has at most one live entry, and exactly one while it is published and not finalized |
| SingleFlight.OneHolderPerJob | src/agent_runtime_grid/queue/redis_streams.py:41-63 | Two actors never hold live entries of the same job |
| Conflicts.ConflictsAreLateCancels | src/agent_runtime_grid/storage/finalization.py:50-72 | In single-flight runs the conflict rows are exactly those of cancellations of jobs that were finalized before, in order |
| Conflicts.FaultFreeIsClean | src/agent_runtime_grid/worker/loop.py:69-213 | Fault-free runs leave no conflict row and no dead letter |
| Execution.ArtifactsStayValid | src/agent_runtime_grid/worker/loop.py:133-153 | In single-flight runs each attempt of a job starts at most once, and for every completed event the file of that attempt holds the bytes, and the event the metadata, that the store makes of the job, the worker, the attempt and the result in the event |
| FaultFree.EventTrailGrammar | src/agent_runtime_grid/worker/state_machine.py:40-220 | In fault-free runs a job has a guard row if and only if its events are submitted, then running and retry_scheduled n times with attempts 1 to n, then either running and one final event or a dispatch-time budget_blocked, with attempt n + 1; only a failed event can be marked retryable |
| FaultFree.TokenConservation | src/agent_runtime_grid/worker/loop.py:125-213 | A published job that is not finalized has exactly one live entry; the live entry of a finalized one only waits for its acknowledgement |
| Determinism.OutcomeIsDetermined | src/agent_runtime_grid/worker/loop.py:69-213 | With an outcome that depends on job and attempt only, the trail of a finished job is the one computed from its row, the budget policy and the runner, whatever the interleaving |
| Determinism.FinishOnTrack | src/agent_runtime_grid/worker/loop.py:159-213 | A finishing worker either writes exactly the computed trail or publishes an attempt that leads to the same one |
| ReliabilityOutcome.StubJobEndsAsTold | src/agent_runtime_grid/jobs/stub.py:18-48 | In every fault-free run, for every payload, policy and schedule, a finished stub job has the trail that its row tells: blocked if not admitted; min(max_retries, retry budget) retries and then the retryable failure or the budget block in mode transient_error; failed for good in the two policy modes; timed out if it sleeps for its timeout or longer; completed otherwise |
| Drain.EveryInterleavingTerminates | src/agent_runtime_grid/cli/smoke.py:95-98 | A run of n worker steps uses up n of the measure, and each concluded message at least one of the sum of max_retries + 2 - attempt over live entries |
| Drain.MeasureDrops | src/agent_runtime_grid/worker/loop.py:60-67 | Every worker step lowers the measure, in every interleaving |
| Drain.StuckMeansDone | src/agent_runtime_grid/cli/smoke.py:95-98 | Workers that cannot move have drained the stream and finalized every published job |
| Rounds.DrainQueue | src/agent_runtime_grid/cli/smoke.py:95-98 | The drain loop terminates for every scheduling of its rounds, with the stream drained and every published job finalized, along fault-free steps that follow the runner |
| Rounds.GatherRound | src/agent_runtime_grid/cli/smoke.py:96 | One round: workers interleave freely and each leases at most one message; if none found one the stream is delivered and nothing changed |
| Rounds.TakeTurn | src/agent_runtime_grid/worker/loop.py:60-67 | Between two suspension points a worker takes one protocol step and other workers keep their positions |
| FanOut.AttemptBounds | src/agent_runtime_grid/worker/recovery.py:103-136 | In every run every entry and every event that names a leased attempt is within 1 and max_retries + 1, and every dead letter belongs to a finalized job and carries exactly max_retries + 1 |
| RetryBudget.RetryBudgetBoundsIff | src/agent_runtime_grid/worker/recovery.py:103-118 | With all retry budgets at most b, the entries of a run stay within attempt b + 1 throughout if and only if no pass publishes a requeue of an entry whose attempt is above b |
| RetryBudget.AttemptsWithinBothBudgets | src/agent_runtime_grid/cost/telemetry.py:105-112 | In such runs attempts never exceed min(max_retries, b) + 1 |
| RetryBudget.RecoveryReaches | src/agent_runtime_grid/worker/recovery.py:88-136 | For any policies and every n up to max_retries, a run of crashes and passes in which the job's only unacknowledged entry has attempt n + 1 |
| FanOut.BoundedFanOut | src/agent_runtime_grid/worker/recovery.py:54-64 | With one pass at a time, and no pass that crashes between publishing a requeue and acknowledging, n submitter publishes of a job lead to at most n * (2^(max_retries + 1) - 1) entries, recovery of entries whose worker is alive included |
| FanOutReached.FanOutIsReached | src/agent_runtime_grid/worker/loop.py:166-200 | For every n and max_retries, such a run that reaches that number, without any crash, for a worker whose retry budget allows the retries |
| FanOut.FanStep | src/agent_runtime_grid/worker/loop.py:166-200 | Every step, with one pass at a time and no pass that crashes between publishing a requeue and acknowledging, keeps: an entry has at most one successor from a retry and one from recovery |
| Heartbeat.HeartbeatSafeIff | src/agent_runtime_grid/worker/loop.py:215-253 | No run ever shows a scan an entry that a worker is processing if and only if the interval is positive, so that there is a heartbeat, and startup + interval + slack is below the stale threshold |
| Heartbeat.HeartbeatIsSafe | src/agent_runtime_grid/worker/loop.py:103-157 | The if direction, over all timed runs, other recovery passes and operator renewals included |
| Heartbeat.FalseStalenessHappens | src/agent_runtime_grid/queue/redis_streams.py:65-96 | At or above the bound, or without a heartbeat: a run in which an executing worker's entry is found stale |
| StaleThreshold.StaleThresholdIsExact | src/agent_runtime_grid/worker/recovery.py:39-77 | Status and guard agree, and the final event is last, in every state of every disciplined timed run, if and only if there is a heartbeat and startup + interval + slack is below the stale threshold; disciplined: one pass at a time, one publish per job, no crash between a publish and its acknowledgement, no cancellation of an executing job |
| StaleThreshold.TimedIsSingleFlight | src/agent_runtime_grid/worker/loop.py:103-157 | Below the bound, a disciplined timed run without its ticks is a single-flight run through the same states, so all that holds in those holds in it |
| StaleThreshold.BelowTheBound | src/agent_runtime_grid/worker/loop.py:184-192 | In such runs no late retry is possible in any state and a job has at most one live entry, exactly one while it is published and not finalized |
| StaleThreshold.AtTheBound | src/agent_runtime_grid/worker/loop.py:184-192 | Otherwise: a disciplined timed run after which a job that failed for good is queued |
| Detection.AbandonedIsDetected | src/agent_runtime_grid/queue/redis_streams.py:65-96 | In every timed run, for every threshold: a pending entry that nobody holds, that no pass has found and no operator renewed stays so, and scans with room in their count return it from exactly the threshold after its last lease or renewal on |
| Detection.CrashIsDetected | src/agent_runtime_grid/worker/recovery.py:39-56 | Below the bound, in disciplined runs, whatever a crashed actor held is returned by every scan with room made at least the threshold after the crash, unless a pass found it before |
| Detection.ScanIsExact | src/agent_runtime_grid/queue/redis_streams.py:65-96 | Below the bound, between passes, a scan whose count covers the pending entries returns exactly the abandoned entries with a lease at least as old as the threshold |
| Heartbeat.LeaseKept | src/agent_runtime_grid/queue/redis_streams.py:98-113 | No command but an acknowledgement removes a pending entry or makes its lease older |
| Streams.AckIsForever | src/agent_runtime_grid/queue/redis_streams.py:98-116 | An acknowledged entry is never pending again, renewal included |
| Streams.StaleFromIsScan | src/agent_runtime_grid/queue/redis_streams.py:73-95 | The stale list ascends by id and is complete when it is shorter than the count |
| Streams.StaleFromFinds | src/agent_runtime_grid/queue/redis_streams.py:73-95 | An entry is in the list if and only if it is stale and fewer than count stale ones have smaller ids |
| Budget.OnlyAdmittedJobsRun | src/agent_runtime_grid/cost/telemetry.py:77-103 | In every run a job that a worker started, retried, completed, timed out or failed for good was admitted by that worker's policy: within both budgets in live mode, no live job in stub mode, nothing in other modes |
| Budget.UnadmittedNeverCompletes | src/agent_runtime_grid/worker/loop.py:76-96 | A finalized job that no worker's policy admits was blocked, failed or cancelled |
| Budget.StartRunsIffAdmitted | src/agent_runtime_grid/worker/loop.py:70-101 | A worker starts on a job that is not terminal if and only if its policy admits it; otherwise the job ends with the budget_blocked event, or a conflict if it has a guard row, and the message is acknowledged |
| Budget.RowAdmission | src/agent_runtime_grid/cost/telemetry.py:80-103 | A row is admitted if and only if its submission's own type and budget are |
| Budget.DispatchReasons | src/agent_runtime_grid/cost/telemetry.py:80-103 | The reason that a refused dispatch gives is the first check that fails, for each of the six |
| Runtime.Database.RecordStateEvent | src/agent_runtime_grid/worker/state_machine.py:223-240 | The new tables: status overwritten without a look at it, one event appended |
| Runtime.Database.FinalizeJob | src/agent_runtime_grid/storage/finalization.py:27-72 | The first call for a job writes guard row, status and event, a later one only a conflict row, a non-terminal status nothing |
| Runtime.Database.CancelQueuedJob | src/agent_runtime_grid/worker/cancellation.py:30-42 | Cancellation of a queued job is the finalize transaction with attempt 0 |
| Runtime.RedisStreamsQueue.PublishJob | src/agent_runtime_grid/queue/redis_streams.py:38-39 | Appends one entry and returns its id |
| Runtime.RedisStreamsQueue.LeaseJobs | src/agent_runtime_grid/queue/redis_streams.py:41-63 | Delivers the next min(count, available) entries in order, each now pending for the consumer |
| Runtime.RedisStreamsQueue.FindStaleLeases | src/agent_runtime_grid/queue/redis_streams.py:65-96 | Changes nothing and returns the specified scan |
| Runtime.RedisStreamsQueue.RenewPendingLease | src/agent_runtime_grid/queue/redis_streams.py:98-113 | Resets the idle time of a pending entry and ignores others |
| Runtime.RedisStreamsQueue.Acknowledge | src/agent_runtime_grid/queue/redis_streams.py:115-116 | Removes the entry from pending and counts it if it was there |
| Runtime.RedisStreamsQueue.MoveToDeadLetter | src/agent_runtime_grid/queue/redis_streams.py:118-147 | Adds the dead letter, then acknowledges |
| Runtime.Worker.ProcessOne | src/agent_runtime_grid/worker/loop.py:60-67 | Reports false only on an empty stream; otherwise one message is leased and acknowledged along protocol steps of this worker that obey the runner, with the artifact written before a success |
| Runtime.Worker.ProcessMessage | src/agent_runtime_grid/worker/loop.py:69-157 | From the lease to idle along protocol steps, with the entry acknowledged |
| Runtime.Worker.Begin | src/agent_runtime_grid/worker/loop.py:70-101 | The first transaction: skip, budget block with its acknowledgement, or running |
| Runtime.Worker.Record | src/agent_runtime_grid/worker/loop.py:125-153 | The outcome transaction for each kind of outcome, as a protocol step; `Provenance.FinishWrites` and `Provenance.TransientWrites` say what that step leaves |
| Runtime.Worker.HandleTransientError | src/agent_runtime_grid/worker/loop.py:159-209 | Retry within max_retries and the retry budget, budget block within max_retries only, final failure after |
| Runtime.Worker.Settle | src/agent_runtime_grid/worker/loop.py:193-213 | The next attempt is published before the entry is acknowledged |
| Runtime.Worker.Advance | src/agent_runtime_grid/worker/loop.py:60-157 | The next segment of a suspended process_one is one protocol step |
| Repository.JobRepository.CreateJob | src/agent_runtime_grid/storage/repositories.py:21-62 | A free key inserts one row with the submission's values, status submitted and the submitted event; a taken key changes nothing and gives the existing job or, for another hash, a conflict |
| Repository.JobRepository.InsertUnlessFound | src/agent_runtime_grid/storage/repositories.py:23-62 | The same with other transactions committed between lookup and insert: the loser of a race for a key gets the unique violation and changes nothing |
| Repository.RaceIsSerial | src/agent_runtime_grid/storage/repositories.py:21-62 | Over any run, a lookup in one state and the insert in a later one write and answer what one serial submission in the later state does, except that the unique violation is raised exactly if the key was free at the lookup and taken at the insert |
| Repository.JobRepository.GetByIdempotencyKey | src/agent_runtime_grid/storage/repositories.py:67-74 | Finds the row of a key, and reports none only when no row has it |
| Repository.SameKeySameJob | src/agent_runtime_grid/storage/repositories.py:21-62 | Over any run: once a key was accepted, a later submission of it is answered with the same job exactly if the hash is the first one, with a conflict otherwise, and changes nothing |
| Repository.SubmittedEventsAreJobs | src/agent_runtime_grid/storage/repositories.py:28-60 | As many submitted events as jobs, in every reachable state |
| Ledger.CostTelemetryLedger.RecordLiveJob | src/agent_runtime_grid/cost/telemetry.py:170-181 | The call becomes a record if it fits, and otherwise one block that names its run and job, the accepted total plus its cost, and the budget; its reason is budget_overrun if and only if that total is above the budget and model_call_limit if and only if only the calls are used up |
| Ledger.EveryCallIsAnswered | src/agent_runtime_grid/cost/telemetry.py:170-197 | The same for every call of every sequence of calls, judged by what was accepted before it |
| Ledger.BlockOrigin | src/agent_runtime_grid/cost/telemetry.py:183-197 | Every block of a ledger is that of one call of the sequence, with that call's run, job, attempted total and reason |
| Ledger.CostTelemetryLedger.TotalCostSoFar | src/agent_runtime_grid/cost/telemetry.py:166-168 | The sum of the accepted costs |
| Ledger.LedgerStaysWithin | src/agent_runtime_grid/cost/telemetry.py:170-197 | For every call sequence: total within the budget, records within the call limit, records + blocks = calls, nothing is ever taken back |
| Ledger.BlockedStaysBlocked | src/agent_runtime_grid/cost/telemetry.py:170-181 | With non-negative costs a blocked cost, and anything at least as large, stays blocked |
| Ledger.GroupsAddUpToTotal | src/agent_runtime_grid/cost/rollup.py:49-53 | Per-run and per-job sums each add up to the total |
| Ledger.RollupTotals | src/agent_runtime_grid/cost/rollup.py:49-53 | The two dictionaries hold the sums of exactly the groups that occur |
| Ledger.ValidateCostRollup | src/agent_runtime_grid/cost/rollup.py:72-90 | An error for the total if and only if it is above its limit, and one for each run that occurs and costs more than the run limit, with that cost, and for no other |
| Ledger.LedgerPassesRollup | src/agent_runtime_grid/cost/rollup.py:72-90 | Ledger records pass the rollup at the ledger's budget, per run too when costs are not negative, for every sign of the budget |
| Ledger.CreditsBreakRunLimit | src/agent_runtime_grid/cost/rollup.py:83-89 | For every negative cost c within the budget and two calls allowed, calls of cost c and budget - c in two different runs are both accepted and the second run is over the limit |
| Ledger.RunLimitHoldsIff | src/agent_runtime_grid/cost/rollup.py:83-89 | For every lower bound c on the costs, accepted records always keep the per-run limit if and only if c is not negative, or above the budget, or fewer than two calls are allowed |
| Reports.LifecycleCounts | src/agent_runtime_grid/cli/smoke.py:222-241 | The loop computes the specified buckets |
| Reports.BucketsPartitionRows | src/agent_runtime_grid/cli/smoke.py:222-241 | The buckets count the rows by status, submitted in queued, sum to the submitted jobs, and dlq is 0 |
| Reports.TerminalBuckets | src/agent_runtime_grid/cli/smoke.py:360-361 | The four terminal buckets together hold exactly the rows with a terminal status |
| Reports.GroupByJob | src/agent_runtime_grid/cli/smoke.py:257-265 | Each job's list is its events in log order, and every event's job is a key |
| Reports.GroupsAddUp | src/agent_runtime_grid/cli/smoke.py:275-287 | Counting per job and adding up equals counting over the log |
| Reports.FoldEvents | src/agent_runtime_grid/cli/smoke.py:275-315 | The report raises if and only if a completed event's artifact is missing or fails the store's size, hash, JSON or field checks; otherwise its counters are those of the log |
| Reports.CompletedTells | src/agent_runtime_grid/worker/loop.py:133-153 | In every state of every single-flight run with stores, the file of each completed event decodes to a document that tells of that event's job, run, worker, attempt, payload and result, and the event's metadata describes the file |
| Reports.CompletedIntactIff | src/agent_runtime_grid/artifacts/store.py:75-170 | In every state of every single-flight run with stores, the artifact of a completed event passes those checks if and only if the result in the event keeps the identity fields |
| Reports.ReportRaisesIff | src/agent_runtime_grid/cli/smoke.py:302-319 | In those runs, for every run id and in every state, the report raises if and only if the result of one of the run's completed events overrides an identity field |
| Reports.AnyResultCanComplete | src/agent_runtime_grid/cli/smoke.py:302-319 | For every result a runner can return, such a run that completes a job with it, after which the report over the job's run raises if and only if the result overrides an identity field |
| Reports.OverrideRaises | src/agent_runtime_grid/artifacts/store.py:105-106 | A run after which the report raises, for every job_id in the payload that is not the job's own |
| Reports.ReportIsComplete | src/agent_runtime_grid/cli/smoke.py:302-319 | In single-flight runs the log of every run id has exactly one completed event for each completed job, so a report that does not raise has completeness 1 |
| Reports.FinalKindsInLog | src/agent_runtime_grid/cli/smoke.py:286-302 | A run's log has as many events of a final type as the run has guard rows of it |
| Reports.ClassesAreGuardRows | src/agent_runtime_grid/cli/smoke.py:286-315 | In every reachable state the report's timeout, cancelled and completed counts are the run's guard rows of those types, and transient and permanent together those of failed |
| Reports.DuplicateTerminalEventCount | src/agent_runtime_grid/storage/finalization.py:86-99 | The grouped query, of one run or of all, returns the number of jobs with more than one event named after a terminal status |
| Domain.TerminalNames | src/agent_runtime_grid/storage/finalization.py:18-99 | The query sees an event type if and only if its name is that of a terminal status, which are all final types but budget_blocked |
| Reports.QueueDepthIsUnacked | src/agent_runtime_grid/queue/inspection.py:65-76 | In every reachable state pending + lag is the number of unacknowledged entries, and with the acknowledged ones all entries |
| Reports.P95 | src/agent_runtime_grid/queue/inspection.py:196-201 | A value with at least 95(n-1)/100 + 1 values at or below it and at most 95(n-1)/100 strictly below; 0 for none |
| Artifacts.ArtifactStore.WriteStubJobArtifact | src/agent_runtime_grid/artifacts/store.py:75-129 | The artifact file that changes, its content with the runner's payload merged over it, the metadata of those bytes, and the eval result that is linked to it; a payload that is no dictionary raises and changes nothing; `Artifacts.WrittenTells` says what that content is |
| Artifacts.WrittenTells | src/agent_runtime_grid/artifacts/store.py:98-129 | The written bytes decode to a document in which every payload field has the payload's value, each of the seven base fields that the payload does not set has the request's own (job, run, digest, worker, attempt, time, summary), and nothing else occurs; the metadata says the same and describes these bytes |
| Artifacts.LinkedTells | src/agent_runtime_grid/artifacts/store.py:173-195 | The linked eval result has the payload's case_id and quality_status, null where it has none, the path of this artifact, and otherwise what it had before if that was JSON |
| Artifacts.ArtifactStore.ValidateArtifactIntegrity | src/agent_runtime_grid/artifacts/store.py:132-170 | No error if and only if the file exists with size, hash, JSON and all expected fields; otherwise the first of these that fails, by name for a field |
| Artifacts.WrittenIsIntactIff | src/agent_runtime_grid/artifacts/store.py:98-170 | A freshly written artifact validates if and only if the payload keeps the identity fields, up to Python's equality of numbers and booleans, and its eval_result_path is text |
| Artifacts.IntactMeansUnchanged | src/agent_runtime_grid/artifacts/store.py:144-149 | With an injective hash a file that validates holds the bytes that were hashed |
| Codecs.SomeCodec | src/agent_runtime_grid/artifacts/store.py:109-152 | There is a codec that decodes what it encodes, for every document, with a hash that keeps all bytes apart |
| Codecs.ValueInjective | src/agent_runtime_grid/artifacts/store.py:109 | No two values share an encoding, even with other bytes after it |
| Cancellation.CancellationRegistry.EventFor | src/agent_runtime_grid/worker/cancellation.py:20-21 | Creates an unset event for a new job and never changes what was requested |
| Cancellation.CancellationRegistry.RequestCancel | src/agent_runtime_grid/worker/cancellation.py:23-24 | Requests for other jobs are unchanged and nothing is withdrawn |
| Cancellation.CancellationRegistry.IsCancelled | src/agent_runtime_grid/worker/cancellation.py:26-27 | Reports what was requested and changes no request |
| Cancellation.Sleep | src/agent_runtime_grid/jobs/stub.py:36-48 | The polling sleep is cancelled exactly if the event is set by the last poll before the deadline, at the first poll that sees it |
| FailureInjection.Shuffle | src/agent_runtime_grid/jobs/failure_injection.py:55-56 | The in-place shuffle keeps a permutation, for every random source |
| FailureInjection.ReliabilityProof | src/agent_runtime_grid/jobs/failure_injection.py:40-65 | For every random source the plan is the sorted rotation of modes over some permutation: index i at position i, and each mode in its share |
| FailureInjection.PlanCoversIndexes | src/agent_runtime_grid/jobs/failure_injection.py:57-61 | Position i of the plan is index i with the mode of the place that the shuffle gave it |
| FailureInjection.PlanCounts | src/agent_runtime_grid/jobs/failure_injection.py:63-65 | The plan has (n + m - 1 - r) / m failures of the r-th of m modes |
| Reliability.SubmitReliabilityBatch | src/agent_runtime_grid/cli/benchmark.py:398-444 | On any tables without the batch's ids and keys: tables and stream after the batch, one replay per duplicate-submission failure, along fault-free steps |
| Reliability.ReplayNext | src/agent_runtime_grid/cli/benchmark.py:430-434 | A replay returns the job's own id and changes nothing |
| Reliability.KeysDiffer | src/agent_runtime_grid/cli/benchmark.py:423 | The keys of different indexes differ |
| ReliabilityOutcome.ReliabilityProofOutcome | src/agent_runtime_grid/cli/benchmark.py:230-343 | For every permutation of k injected failures and every fault-free drained run: (k+3)/4 retries, (k+3)/4 + (k+2)/4 failed, k/4 timed out, all others completed, (k+1)/4 replays |
| ReliabilityOutcome.AnyPlanOutcome | src/agent_runtime_grid/cli/benchmark.py:250-281 | The same with three or four modes in the rotation, and the log's classification: transient = retries = the first mode's share, permanent = the second's, timeouts = timed out jobs, none cancelled |
| ReliabilityOutcome.StubTrail | src/agent_runtime_grid/jobs/failure_injection.py:74-85 | The trail that each failure mode leads to, through the payload of the mode and the stub runner's outcome for it (`src/agent_runtime_grid/jobs/stub.py:18-34`) |
| ReliabilityOutcome.JobIsDone | src/agent_runtime_grid/cli/benchmark.py:274-277 | Every job of the batch ends with the trail, guard row and status of its failure mode |
| ReliabilityOutcome.BatchRow | src/agent_runtime_grid/cli/benchmark.py:409-427 | The row of job i at the end of such a run: the stub type, timeout 1 or 30, max_retries 1 or the batch's own, no budget, the key run:i, and the mode, duration and duplicate flag of its failure mode (`src/agent_runtime_grid/jobs/failure_injection.py:74-85`) |
| Isolation.PartStep | src/agent_runtime_grid/storage/models.py:19-80 | A step on its own jobs is the same step on the tables of these jobs alone, and changes nothing about the others |
| Isolation.OwnRun | src/agent_runtime_grid/cli/benchmark.py:230-281 | A run on any tables with a fresh stream, seen through its own jobs, is a run from empty tables with the same actions |
| ReliabilityProof.OwnReliabilityRun | src/agent_runtime_grid/cli/benchmark.py:230-281 | A batch and its drain on any tables, seen through the batch's jobs, are the run that the outcome theorems are about, and all other jobs are as before |
| ReliabilityProof.BuildReport | src/agent_runtime_grid/cli/smoke.py:207-357 | The report reflects the tables and the stream, conflict rows and backpressure included, and is missing if and only if a completed event of the run fails the artifact check |
| ReliabilityProof.ReportTotals | src/agent_runtime_grid/cli/smoke.py:317-361 | The terminal count of a report is the number of the run's rows with a terminal status, and its completeness the share of completed jobs with a valid artifact |
| Inspection.PressureMeans | src/agent_runtime_grid/queue/inspection.py:39-76 | In every reachable state the snapshot tells the entries delivered and not acknowledged, those not delivered, both together, the dead letters, the running rows, the busy workers over the workers up to 1, and the scheduled retries over the submitted jobs |
| Inspection.DrainedPressure | src/agent_runtime_grid/queue/inspection.py:39-76 | After a drain that left no dead letter and no running job, every load figure of the snapshot is 0 |
| Inspection.OwnRunConflicts | src/agent_runtime_grid/storage/finalization.py:75-83 | The conflict count of a run is the same on the tables of its own jobs alone; `Inspection.RunConflictsCount` says what is counted |
| Inspection.RunConflictsCount | src/agent_runtime_grid/storage/finalization.py:75-83 | The count is the number of conflict rows whose job belongs to the run, whatever conflicted |
| Inspection.ConflictsAddUp | src/agent_runtime_grid/storage/finalization.py:75-83 | In every reachable state the counts of the runs that own a row add up to all conflict rows |
| Inspection.RunConflictsAreLateCancels | src/agent_runtime_grid/storage/finalization.py:50-83 | In single-flight runs the count of a run is the number of cancellations of its finalized jobs |
| ReliabilityProof.ValidateReliabilityProof | src/agent_runtime_grid/cli/benchmark.py:447-486 | The violated expectations in order, none if and only if every expectation holds |
| ReliabilityProof.ViolationsAre | src/agent_runtime_grid/cli/benchmark.py:455-484 | Each error is in the list if and only if the expectation that it names is violated |
| ReliabilityProof.ProofPassesIff | src/agent_runtime_grid/cli/benchmark.py:447-486 | A report on the final tables passes if and only if k is at least 1, 3 and 4 for the retry, replay and timeout evidence that is asked for, and violates exactly the expectations of the missing evidence; passing or not, it shows the numbers of the outcome theorems, the failure classification included, no conflict and no load |
| ReliabilityProof.RunReliabilityProof | src/agent_runtime_grid/cli/benchmark.py:230-343 | The whole command on any consistent tables that do not know the run: rejected arguments, never a missing artifact, accepted exactly with enough failures and then with the exact retry, failed, timed-out, completed, classification and replay numbers, otherwise rejected with exactly the evidence errors that the number of failures implies, for every random source and schedule; other jobs untouched, the tables consistent for the next use |
| ReliabilityProof.ValidateSmokeReport | src/agent_runtime_grid/cli/smoke.py:360-388 | Each error is reported if and only if the expectation that it names is violated; none if and only if all hold |
| ReliabilityProof.RunSmoke | src/agent_runtime_grid/cli/smoke.py:59-122 | On any such tables: with valid arguments the smoke command always passes, with every job completed, no retry, no conflict and no load; other jobs untouched |

## Left out

- Redis and Postgres themselves: transaction atomicity, row locks, insert-on-conflict, monotone stream ids, single delivery through ">" and XCLAIM without FORCE are assumed as the protocol's steps state them.
- Trace ids, run ids on messages, delivery counts, idle times and error classes carried by messages, leases and events: they are copied through and no branch reads them.
- The reason and the cost figures of a budget_blocked event: the model's event carries worker and attempt; `Budget.DispatchReasons` gives the reasons.
- Timestamps of rows and events: queue waits and durations enter only as the lists that P95 is given.
- ReliabilityProof.BuildReport: the injected counts that the report copies from the plan are not in it; nor are the snapshot's figures that read timestamps (oldest pending age and the two percentiles) and the rendering of the report; `Reports.P95` is about the percentile itself.
- ReliabilityProof.RunReliabilityProof: the job ids and the run id are fresh, as random UUIDs are; the stream is fresh, as the command makes it.
- Reports.P95: the index is exact integer arithmetic, without float rounding; so is the failure count of the reliability command.
- Decimal rounding of costs: costs are exact integers.
- A sleep that ends in the same instant as its timeout: the model counts it as timed out.
- Renewals that fail with a Redis error: the timed model is about renewals that succeed. It does not tie the length of an execution to the job's timeout either.
- Dead-letter completeness under a crash between a recovery's final failure and its dead-letter add: the next pass acknowledges the entry without a dead letter.
- `FailurePlan.fixed_seed`, `should_retry` and `stub_cost_for_plan`: no command in scope uses them.
- A cumulative run budget for dispatch: the policy compares one job's budget with the limits and does not add up.
- `jobs/gdev_agent.py` and `jobs/eval_lab.py`: HTTP and file access; their result is a nondeterministic outcome of the execution step.
- Artifacts.ArtifactStore.WriteStubJobArtifact: the file that an eval payload is linked from is assumed to be none of the artifact files; creating directories and I/O errors are not modelled.
- Runtime.Worker.ProcessOne: a runner result whose artifact payload is no dictionary raises in the store and ends the worker process; the protocol covers that as a crash, and the worker class is given runners without such results.
- Evidence bundles, report rendering, command wiring, API routes, settings, logging, metrics and tracing.
- The `artifacts`, `job_retry_records` and `job_cost_records` tables: no code in scope writes them.
- Runtime.Database.RecordStateEvent: its precondition allows only the running, retry and recovery events with statuses queued and running, which is what its callers pass.
- Reports.LifecycleCounts: the grouping by status that the query does and the loop over its groups are one loop over the rows.
- Ledger.RunsOver: the errors come in no particular order, while the program sorts them by run id.
