/** The records that the runtime stores and exchanges: jobs, lifecycle events,
    and the budget policy that gates dispatch and retry. */
module Domain {

  type JobId = nat
  type RunId = nat
  type ActorId = nat
  type EntryId = nat
  type Digest = string

  datatype Option<+T> = None | Some(value: T)

  datatype Status = Submitted | Queued | Running | Completed | Failed | TimedOut | Cancelled {
    predicate Terminal() {
      Completed? || Failed? || TimedOut? || Cancelled?
    }

    /** The string in the status column. */
    function Name(): string {
      match this
      case Submitted => "submitted"
      case Queued => "queued"
      case Running => "running"
      case Completed => "completed"
      case Failed => "failed"
      case TimedOut => "timed_out"
      case Cancelled => "cancelled"
    }
  }

  datatype Kind =
    | KSubmitted | KRunning | KRetryScheduled | KStaleRecovered
    | KCompleted | KFailed | KTimedOut | KCancelled | KBudgetBlocked
  {
    /** The string in the event_type column. */
    function Name(): string {
      match this
      case KSubmitted => "submitted"
      case KRunning => "running"
      case KRetryScheduled => "retry_scheduled"
      case KStaleRecovered => "stale_lease_recovered"
      case KCompleted => "completed"
      case KFailed => "failed"
      case KTimedOut => "timed_out"
      case KCancelled => "cancelled"
      case KBudgetBlocked => "budget_blocked"
    }

    /** The five event types that finalize_job can write. */
    predicate Final() {
      KCompleted? || KFailed? || KTimedOut? || KCancelled? || KBudgetBlocked?
    }

    /** The event types whose name is also a terminal status; the duplicate query
        looks for these four and so does not see budget_blocked. */
    predicate NamedAsStatus() {
      KCompleted? || KFailed? || KTimedOut? || KCancelled?
    }

    /** The job status that goes with a final event type. */
    function FinalStatus(): Status
      requires Final()
    {
      match this
      case KCompleted => Completed
      case KTimedOut => TimedOut
      case KCancelled => Cancelled
      case _ => Failed
    }
  }

  const TERMINAL_STATUSES := {"completed", "failed", "timed_out", "cancelled"}

  /** The query for duplicate terminal events compares event types with the terminal statuses,
      and so counts every final event but budget_blocked. */
  lemma TerminalNames(status: Status, kind: Kind)
    ensures status.Terminal() <==> status.Name() in TERMINAL_STATUSES
    ensures kind.NamedAsStatus() <==> kind.Name() in TERMINAL_STATUSES
    ensures kind.NamedAsStatus() <==> kind.Final() && kind != KBudgetBlocked
    ensures kind.NamedAsStatus() ==> kind.FinalStatus().Name() == kind.Name()
    ensures KBudgetBlocked.FinalStatus() == Failed
  {
    assert |"submitted"| == 9 && "submitted"[0] == 's' && "queued"[0] == 'q' && "running"[0] == 'r';
    assert "completed"[0] == 'c' && "failed"[0] == 'f' && |"timed_out"| == 9 && "timed_out"[0] == 't';
    assert "cancelled"[1] == 'a' && "completed"[1] == 'o';
    assert "retry_scheduled"[0] == 'r' && "stale_lease_recovered"[0] == 's' && "budget_blocked"[0] == 'b';
  }

  function Pow2(n: nat): nat {
    if n == 0 then 1 else 2 * Pow2(n - 1)
  }

  // ----- artifacts -----

  newtype Byte = x: int | 0 <= x < 256
  type Bytes = seq<Byte>

  /** A JSON value, as Python reads and writes them, and a JSON object. A finite float is a zero
      with its sign or, written in one way only, an odd integer times a power of two:
      Float(h, e) is (2 * h + 1) * 2^e. */
  datatype Value =
    | Null
    | Flag(flag: bool)
    | Text(text: string)
    | Number(number: int)
    | Float(half: int, exponent: int)
    | ZeroFloat(minus: bool)
    | Infinite(negative: bool)
    | NotANumber
    | Many(items: seq<Value>)
    | Nested(fields: map<string, Value>)

  type Document = map<string, Value>

  /** The artifact_payload entry of a runner's result. */
  datatype ArtifactPayload = Absent | NotADict | Dict(fields: Document)
  datatype RunnerResult = RunnerResult(summary: string, artifactPayload: ArtifactPayload)

  /** The file of an attempt, by job and attempt number. */
  type Path = (JobId, nat)

  datatype Metadata = Metadata(
    path: Path, size: nat, sha: Digest, jobId: string, runId: string, attempt: nat,
    inputDigest: Digest, createdAt: string, evalResultPath: Option<string>)

  /** What the artifact store is given for one attempt, and what it makes of it. */
  datatype WriteRequest = WriteRequest(
    job: JobId, runId: RunId, payload: Payload, worker: ActorId, attempt: nat, createdAt: string, result: RunnerResult)
  datatype Written = Written(bytes: Bytes, meta: Metadata)

  /** The result column of a completed event with an artifact: the runner's result, the time
      of the write and the metadata. */
  datatype Stored = Stored(result: RunnerResult, createdAt: string, meta: Metadata)

  /** The event_data column, one constructor for each event type. */
  datatype Body =
    | SubmittedBody
    | RunningBody(worker: ActorId, attempt: nat)
    | RetryScheduledBody(worker: ActorId, attempt: nat, next: nat)
    | StaleRecoveredBody(worker: ActorId, attempt: nat, next: nat, entry: EntryId)
    | CompletedBody(worker: ActorId, attempt: nat, artifact: Option<Stored>)
    | FailedBody(worker: ActorId, attempt: nat, retryable: bool)
    | TimedOutBody(worker: ActorId, attempt: nat)
    | CancelledBody(attempt: nat, whileRunning: bool)
    | BudgetBlockedBody(worker: ActorId, attempt: nat)
  {
    function Kind(): Kind {
      match this
      case SubmittedBody => KSubmitted
      case RunningBody(_, _) => KRunning
      case RetryScheduledBody(_, _, _) => KRetryScheduled
      case StaleRecoveredBody(_, _, _, _) => KStaleRecovered
      case CompletedBody(_, _, _) => KCompleted
      case FailedBody(_, _, _) => KFailed
      case TimedOutBody(_, _) => KTimedOut
      case CancelledBody(_, _) => KCancelled
      case BudgetBlockedBody(_, _) => KBudgetBlocked
    }
  }

  datatype Event = Event(job: JobId, body: Body)

  datatype Payload = Payload(mode: string, durationSeconds: nat, duplicateSubmission: bool, index: nat)

  datatype Submission = Submission(
    runId: RunId, jobType: string, payload: Payload, payloadHash: Digest, key: string,
    timeoutSeconds: nat, maxRetries: nat, budgetCents: Option<int>)

  datatype JobRecord = JobRecord(
    runId: RunId, jobType: string, payload: Payload, payloadHash: Digest, key: string,
    status: Status, timeoutSeconds: nat, maxRetries: nat, budgetCents: Option<int>)

  /** Everything but the status is fixed when the row is inserted. */
  ghost predicate SameExceptStatus(a: JobRecord, b: JobRecord) {
    a.(status := b.status) == b
  }

  datatype BudgetPolicy = BudgetPolicy(
    mode: string, runBudgetCents: Option<int>, perJobBudgetCents: Option<int>, retryBudget: int)
  {
    /** The reason of the BudgetPolicyError that dispatch raises, if it raises one. */
    function ValidateDispatch(job: JobRecord): Option<string> {
      if mode == "stub" then
        if "live." <= job.jobType then Some("stub_live_job_blocked") else None
      else if mode != "live" then Some("unsupported_budget_mode:" + mode)
      else if runBudgetCents.None? || perJobBudgetCents.None? then Some("missing_live_run_or_job_budget")
      else if job.budgetCents.None? then Some("missing_job_budget")
      else if job.budgetCents.value > perJobBudgetCents.value then Some("per_job_budget_overrun")
      else if job.budgetCents.value > runBudgetCents.value then Some("run_budget_overrun")
      else None
    }

    predicate RetryAllowed(nextAttempt: nat) {
      nextAttempt - 1 <= retryBudget
    }
  }

  function StubPolicy(retryBudget: int): BudgetPolicy {
    BudgetPolicy("stub", Some(0), Some(0), retryBudget)
  }
}
