/** The exact outcome of the reliability run, for every shuffle of the failure plan and every
    interleaving of the workers. */
module ReliabilityOutcome {
  import opened Domain
  import opened Store
  import opened Streams
  import opened Protocol
  import opened Safety
  import opened Guard
  import opened SingleFlight
  import opened FaultFree
  import opened Conflicts
  import opened Determinism
  import opened Drain
  import opened Reports
  import opened FailureInjection
  import opened Reliability
  import opened Artifacts

  const POLICY := StubPolicy(2)

  /** The runner is the stub. */
  ghost predicate StubRunner(b: Batch, run: Runner) {
    forall i, a: nat :: 0 <= i < |b.ids| ==>
      run(b.ids[i], a) == StubOutcome(b.SubmissionAt(i).payload, b.SubmissionAt(i).timeoutSeconds)
  }

  /** A fault-free run from empty tables: the batch up to position m, then workers until the
      stream is drained. */
  ghost predicate ReliabilityRun(b: Batch, run: Runner, cfg: Config, ss: seq<State>, acts: seq<Action>, m: nat) {
    && ValidBatch(b) && StubRunner(b, run)
    && RunnerRun(POLICY, run, cfg, ss, acts) && m <= |acts|
    && ss[m].db == BatchDb(EMPTY_DB, b, |b.ids|) && ss[m].q == BatchQueue(b, |b.ids|)
    && (forall k :: m <= k < |acts| ==> WorkerStep(acts[k]))
    && PlainWrites(acts) && Drained(ss[|acts|])
  }

  /** The stub's results have no artifact_payload. */
  ghost predicate PlainWrites(acts: seq<Action>) {
    forall k :: 0 <= k < |acts| && acts[k].WriteArtifact? ==> acts[k].result.artifactPayload.Absent?
  }

  // ----- what one job ends with -----

  function FinalKindOf(mode: Option<FailureMode>): Kind {
    match mode
    case Some(Transient) => KFailed
    case Some(Permanent) => KFailed
    case Some(Timeout) => KTimedOut
    case _ => KCompleted
  }

  function TriesOf(mode: Option<FailureMode>): nat {
    if mode == Some(Transient) then 2 else 1
  }

  /** The last mark: only a transient failure is retryable. */
  function LastMark(mode: Option<FailureMode>): Mark {
    Mark(FinalKindOf(mode), TriesOf(mode), mode == Some(Transient))
  }

  ghost function TrailOf(mode: Option<FailureMode>): seq<Mark> {
    Cycles(TriesOf(mode) - 1) + [Mark(KRunning, TriesOf(mode), false), LastMark(mode)]
  }

  /** The stub's outcome for every failure mode, with the timeout and retries of the batch. */
  lemma StubTrail(b: Batch, run: Runner, i: nat)
    requires StubRunner(b, run) && i < |b.ids|
    ensures FinalTrail(POLICY, run, b.ids[i], FreshRecord(b.SubmissionAt(i)), 1) == TrailOf(b.ModeAt(i))
  {
    var j, job := b.ids[i], FreshRecord(b.SubmissionAt(i));
    assert run(j, 1) == StubOutcome(b.PayloadAt(i), job.timeoutSeconds);
    assert run(j, 2) == StubOutcome(b.PayloadAt(i), job.timeoutSeconds);
    assert !("live." <= "stub") by { assert "stub"[0] == 's'; }
    if b.ModeAt(i) == Some(Transient) {
      assert Retries(POLICY, job, 1) && !Retries(POLICY, job, 2);
      assert FinalTrail(POLICY, run, j, job, 1) == FinalTrail(POLICY, run, j, job, 2);
    }
  }

  // ----- any stub job -----

  /** The retries of a job that fails transiently on every attempt: what its row and the
      policy's retry budget both allow. */
  function StubRetries(policy: BudgetPolicy, job: JobRecord): nat {
    if policy.retryBudget <= 0 then 0 else if policy.retryBudget < job.maxRetries then policy.retryBudget
    else job.maxRetries
  }

  /** The end of such a job: failed after its last retry, or blocked when the budget is the
      smaller of the two. */
  ghost function TransientTrail(policy: BudgetPolicy, job: JobRecord): seq<Mark> {
    var n := StubRetries(policy, job);
    Cycles(n) + [Mark(KRunning, n + 1, false),
                 if n == job.maxRetries then Mark(KFailed, n + 1, true) else Mark(KBudgetBlocked, n + 1, false)]
  }

  lemma {:induction false} TransientEnds(policy: BudgetPolicy, run: Runner, j: JobId, job: JobRecord, a: nat)
    requires 1 <= a <= StubRetries(policy, job) + 1 && policy.ValidateDispatch(job).None?
    requires forall x: nat :: run(j, x) == TransientError
    ensures FinalTrail(policy, run, j, job, a) == TransientTrail(policy, job)
    decreases StubRetries(policy, job) + 1 - a
  {
    if a <= StubRetries(policy, job) {
      TransientEnds(policy, run, j, job, a + 1);
    }
  }

  /** What a stub job ends with, told by its row and the policy. */
  ghost predicate EndsAsTold(policy: BudgetPolicy, job: JobRecord, t: seq<Mark>) {
    var mode, started := job.payload.mode, Cycles(0) + [Mark(KRunning, 1, false)];
    if policy.ValidateDispatch(job).Some? then t == Cycles(0) + [Mark(KBudgetBlocked, 1, false)]
    else if mode == "transient_error" then t == TransientTrail(policy, job)
    else if mode == "policy_error" || mode == "permanent_error" then t == started + [Mark(KFailed, 1, false)]
    else if mode == "sleep" && job.payload.durationSeconds >= job.timeoutSeconds then
      t == started + [Mark(KTimedOut, 1, false)]
    else t == started + [Mark(KCompleted, 1, false)]
  }

  /** In every fault-free run, whatever its interleaving, policy and payloads, a finished stub
      job has the trail that its payload, timeout, retries and policy tell. */
  lemma StubJobEndsAsTold(policy: BudgetPolicy, run: Runner, cfg: Config, ss: seq<State>, acts: seq<Action>, k: nat,
                          j: JobId)
    requires RunnerRun(policy, run, cfg, ss, acts) && k < |ss| && j in ss[k].db.finals && j in ss[k].db.jobs
    requires var job := ss[k].db.jobs[j];
             forall a: nat :: run(j, a) == StubOutcome(job.payload, job.timeoutSeconds)
    ensures EndsAsTold(policy, Blueprint(ss[k].db.jobs[j]), Trail(ss[k].db.events, j))
  {
    var job := Blueprint(ss[k].db.jobs[j]);
    OutcomeIsDetermined(policy, run, cfg, ss, acts, k, j);
    if policy.ValidateDispatch(job).None? {
      if job.payload.mode == "transient_error" {
        TransientEnds(policy, run, j, job, 1);
      } else {
        assert !run(j, 1).TransientError?;
        NotTransientEnds(policy, run, j, job);
      }
    }
  }

  lemma NotTransientEnds(policy: BudgetPolicy, run: Runner, j: JobId, job: JobRecord)
    requires policy.ValidateDispatch(job).None? && !run(j, 1).TransientError?
    ensures FinalTrail(policy, run, j, job, 1)
         == Cycles(0) + [Mark(KRunning, 1, false)] + [Mark(FinalKind(run(j, 1)), 1, false)]
  {
  }

  // ----- events by job -----

  lemma {:induction false} TrailOfEvents(events: seq<Event>, j: JobId)
    ensures |Trail(events, j)| == |EventsOf(events, j)|
    ensures forall k :: 0 <= k < |Trail(events, j)| ==> Trail(events, j)[k] == MarkOf(EventsOf(events, j)[k].body)
  {
    if events != [] {
      TrailOfEvents(events[..|events| - 1], j);
    }
  }

  ghost function Marks(t: seq<Mark>, q: Mark -> bool): nat {
    if t == [] then 0 else Marks(t[..|t| - 1], q) + if q(t[|t| - 1]) then 1 else 0
  }

  /** Counting events by their marks. */
  lemma {:induction false} MatchingInTrail(es: seq<Event>, t: seq<Mark>, p: Body -> bool, q: Mark -> bool)
    requires |es| == |t| && forall k :: 0 <= k < |t| ==> t[k] == MarkOf(es[k].body)
    requires forall body: Body :: p(body) <==> q(MarkOf(body))
    ensures Matching(es, p) == Marks(t, q)
  {
    if t != [] {
      MatchingInTrail(es[..|es| - 1], t[..|t| - 1], p, q);
    }
  }

  lemma MarksAppend(t: seq<Mark>, x: Mark, y: Mark, q: Mark -> bool)
    ensures Marks(t + [x, y], q) == Marks(t, q) + (if q(x) then 1 else 0) + (if q(y) then 1 else 0)
  {
    assert (t + [x, y])[..|t| + 1] == t + [x] && (t + [x])[..|t|] == t;
  }

  /** How often q holds of the marks of a mode's trail, if it holds of no submitted or running mark. */
  lemma MarksOfTrail(mode: Option<FailureMode>, q: Mark -> bool)
    requires forall m: Mark :: q(m) ==> m.kind != KSubmitted && m.kind != KRunning
    ensures Marks(TrailOf(mode), q)
         == (if q(LastMark(mode)) then 1 else 0)
          + (if mode == Some(Transient) && q(Mark(KRetryScheduled, 1, false)) then 1 else 0)
  {
    var n := TriesOf(mode);
    assert Cycles(0)[..0] == [] && Marks(Cycles(0), q) == 0;
    MarksAppend(Cycles(0), Mark(KRunning, 1, false), Mark(KRetryScheduled, 1, false), q);
    MarksAppend(Cycles(n - 1), Mark(KRunning, n, false), LastMark(mode), q);
  }

  /** The last mark of a finished trail is the kind of the guard row. */
  lemma LastMarkIsFinal(db: Db, j: JobId, mode: Option<FailureMode>)
    requires RowsInv(db) && Trail(db.events, j) == TrailOf(mode)
    ensures j in db.finals && db.finals[j].kind == FinalKindOf(mode)
  {
    TrailOfEvents(db.events, j);
    GroupMembers(db.events, j);
    var n := |TrailOf(mode)| - 1;
    var x := EventsOf(db.events, j)[n];
    assert TrailOf(mode)[n] == LastMark(mode);
    assert x in EventsOf(db.events, j) && x.body.Kind() == FinalKindOf(mode);
    var i :| 0 <= i < |db.events| && db.events[i] == x;
  }

  // ----- what the run keeps -----

  lemma {:induction false} WorkersKeepJobs(cfg: Config, ss: seq<State>, acts: seq<Action>, m: nat, n: nat)
    requires Steps(cfg, ss, acts) && m <= n <= |acts| && QueueInv(ss[m].q)
    requires forall k :: m <= k < |acts| ==> WorkerStep(acts[k])
    ensures ss[n].db.jobs.Keys == ss[m].db.jobs.Keys && ss[m].q.entries <= ss[n].q.entries && QueueInv(ss[n].q)
    decreases n
  {
    if m < n {
      WorkersKeepJobs(cfg, ss, acts, m, n - 1);
      assert Step(cfg, ss[n - 1], acts[n - 1], ss[n]);
      NextExtends(cfg, ss[n - 1], acts[n - 1]);
      WorkerAddsNoJob(cfg, ss[n - 1], acts[n - 1]);
    }
  }

  lemma WorkerAddsNoJob(cfg: Config, s: State, a: Action)
    requires Enabled(cfg, s, a) && WorkerStep(a)
    ensures Next(cfg, s, a).db.jobs.Keys == s.db.jobs.Keys
  {
  }

  /** Job i of the batch at the end of the run. */
  ghost predicate JobDone(s: State, b: Batch, i: nat)
    requires i < |b.ids|
  {
    var j, mode := b.ids[i], b.ModeAt(i);
    && j in s.db.jobs && j in s.db.finals
    && SameExceptStatus(FreshRecord(b.SubmissionAt(i)), s.db.jobs[j])
    && Trail(s.db.events, j) == TrailOf(mode)
    && s.db.finals[j].kind == FinalKindOf(mode)
    && s.db.jobs[j].status == FinalKindOf(mode).FinalStatus()
  }

  lemma RunnerRunIsSingleFlight(policy: BudgetPolicy, run: Runner, cfg: Config, ss: seq<State>, acts: seq<Action>)
    requires RunnerRun(policy, run, cfg, ss, acts)
    ensures SingleFlightRun(cfg, ss, acts)
  {
  }

  lemma EndState(b: Batch, run: Runner, cfg: Config, ss: seq<State>, acts: seq<Action>, m: nat)
    requires ReliabilityRun(b, run, cfg, ss, acts, m)
    ensures var s := ss[|acts|];
            && RowsInv(s.db) && GuardInv(s.db) && Agree(s.db) && PublishedJobsFinalized(s)
            && BatchQueue(b, |b.ids|).entries <= s.q.entries
            && Grows(BatchDb(EMPTY_DB, b, |b.ids|), s.db) && s.db.jobs.Keys == BatchDb(EMPTY_DB, b, |b.ids|).jobs.Keys
  {
    RunnerRunIsSingleFlight(POLICY, run, cfg, ss, acts);
    TablesAgree(cfg, ss, acts, |acts|);
    RunKeepsInv(cfg, ss, acts);
    assert Inv(ss[m]) && Inv(ss[|acts|]);
    DrainedMeansFinalized(ss[|acts|]);
    WorkersKeepJobs(cfg, ss, acts, m, |acts|);
    StepsGrow(cfg, ss, acts, m, |acts|);
  }

  /** Nobody conflicted and nothing was dead-lettered. */
  lemma EndIsClean(b: Batch, run: Runner, cfg: Config, ss: seq<State>, acts: seq<Action>, m: nat)
    requires ReliabilityRun(b, run, cfg, ss, acts, m)
    ensures ss[|acts|].db.conflicts == [] && ss[|acts|].q.dlq == []
  {
    FaultFreeIsClean(cfg, ss, acts, |acts|);
  }

  lemma JobIsDone(b: Batch, run: Runner, cfg: Config, ss: seq<State>, acts: seq<Action>, m: nat, i: nat)
    requires ReliabilityRun(b, run, cfg, ss, acts, m) && i < |b.ids|
    ensures JobDone(ss[|acts|], b, i)
  {
    var s, j := ss[|acts|], b.ids[i];
    EndState(b, run, cfg, ss, acts, m);
    RowAt(EMPTY_DB, b, |b.ids|, i);
    assert s.q.entries[i] == BatchQueue(b, |b.ids|).entries[i];
    assert s.q.entries[i].job == j;
    OutcomeIsDetermined(POLICY, run, cfg, ss, acts, |acts|, j);
    assert Blueprint(s.db.jobs[j]) == FreshRecord(b.SubmissionAt(i));
    StubTrail(b, run, i);
    LastMarkIsFinal(s.db, j, b.ModeAt(i));
  }

  /** The row of job i at the end is the submission that its index and failure mode call for. */
  lemma BatchRow(b: Batch, run: Runner, cfg: Config, ss: seq<State>, acts: seq<Action>, m: nat, i: nat)
    requires ReliabilityRun(b, run, cfg, ss, acts, m) && i < |b.ids|
    ensures var mode, jobs := if i < |b.failures| then Some(b.failures[i].mode) else None, ss[|acts|].db.jobs;
            && b.ids[i] in jobs
            && var job := jobs[b.ids[i]];
              && job.runId == b.run && job.jobType == "stub" && job.key == Decimal(b.run) + ":" + Decimal(i)
              && job.payloadHash == b.hash(job.payload) && job.budgetCents == None
              && (job.timeoutSeconds == if mode == Some(Timeout) then 1 else 30)
              && (job.maxRetries == if mode == Some(Transient) then 1 else b.baseRetries)
              && ToldBy(job.payload, mode, i)
  {
    JobIsDone(b, run, cfg, ss, acts, m, i);
  }

  /** The payload of each failure mode: its mode, its duration, its duplicate flag, its index. */
  ghost predicate ToldBy(payload: Payload, mode: Option<FailureMode>, i: nat) {
    && payload.index == i
    && (payload.mode == "transient_error" <==> mode == Some(Transient))
    && (payload.mode == "permanent_error" <==> mode == Some(Permanent))
    && (payload.mode == "sleep" <==> mode == Some(Timeout) || mode == Some(Cancellation))
    && (payload.mode == "success" <==> mode == None || mode == Some(DuplicateSubmission))
    && (payload.durationSeconds == if mode == Some(Timeout) then 2 else if mode == Some(Cancellation) then 5 else 1)
    && (payload.duplicateSubmission <==> mode == Some(DuplicateSubmission))
  }

  // ----- totals -----

  /** The statuses of the first n jobs, in terms of their failure modes. */
  ghost predicate StatusTotals(s: State, b: Batch, n: nat)
    requires n <= |b.ids|
  {
    var failed, timedOut := First(b, n, Transient) + First(b, n, Permanent), First(b, n, Timeout);
    && StatusCount(s.db.jobs, b.ids, n, Failed) == failed
    && StatusCount(s.db.jobs, b.ids, n, TimedOut) == timedOut
    && StatusCount(s.db.jobs, b.ids, n, Completed) == n - failed - timedOut
  }

  /** What an event of job i counts for, told by its marks. */
  lemma EventsOfJob(s: State, b: Batch, i: nat, p: Body -> bool, q: Mark -> bool)
    requires i < |b.ids| && JobDone(s, b, i)
    requires forall body: Body :: p(body) <==> q(MarkOf(body))
    requires forall m: Mark :: q(m) ==> m.kind != KSubmitted && m.kind != KRunning
    ensures Matching(EventsOf(RunEvents(s.db, s.db.events, b.run), b.ids[i]), p)
         == (if q(LastMark(b.ModeAt(i))) then 1 else 0)
          + (if b.ModeAt(i) == Some(Transient) && q(Mark(KRetryScheduled, 1, false)) then 1 else 0)
  {
    RunEventsOf(s.db, s.db.events, b.run, b.ids[i]);
    TrailOfEvents(s.db.events, b.ids[i]);
    MatchingInTrail(EventsOf(s.db.events, b.ids[i]), Trail(s.db.events, b.ids[i]), p, q);
    MarksOfTrail(b.ModeAt(i), q);
  }

  /** Every job of the mode has one such event, and no other job has any. */
  ghost predicate OneFor(s: State, b: Batch, p: Body -> bool, mode: FailureMode) {
    forall i :: 0 <= i < |b.ids| ==>
      Matching(EventsOf(RunEvents(s.db, s.db.events, b.run), b.ids[i]), p) == if b.ModeAt(i) == Some(mode) then 1 else 0
  }

  lemma {:induction false} ModeTotals(s: State, b: Batch, n: nat, p: Body -> bool, mode: FailureMode)
    requires n <= |b.ids| && OneFor(s, b, p, mode)
    ensures MatchingPerJob(RunEvents(s.db, s.db.events, b.run), b.ids[..n], p) == First(b, n, mode)
  {
    if n > 0 {
      ModeTotals(s, b, n - 1, p, mode);
      assert b.ids[..n][..n - 1] == b.ids[..n - 1];
    }
  }

  lemma ModeInRun(s: State, b: Batch, p: Body -> bool, q: Mark -> bool, mode: FailureMode)
    requires RunRows(s.db, b.run, b.ids) && forall i :: 0 <= i < |b.ids| ==> JobDone(s, b, i)
    requires forall body: Body :: p(body) <==> q(MarkOf(body))
    requires forall m: Mark :: q(m) ==> m.kind != KSubmitted && m.kind != KRunning
    requires forall x: Option<FailureMode> ::
               (q(LastMark(x)) || (x == Some(Transient) && q(Mark(KRetryScheduled, 1, false)))) <==> x == Some(mode)
    requires q(LastMark(Some(Transient))) ==> !q(Mark(KRetryScheduled, 1, false))
    ensures Matching(RunEvents(s.db, s.db.events, b.run), p) == First(b, |b.ids|, mode)
  {
    forall i | 0 <= i < |b.ids|
      ensures Matching(EventsOf(RunEvents(s.db, s.db.events, b.run), b.ids[i]), p)
           == if b.ModeAt(i) == Some(mode) then 1 else 0
    {
      EventsOfJob(s, b, i, p, q);
    }
    ModeTotals(s, b, |b.ids|, p, mode);
    PerJobIsRun(s, b, p);
  }

  /** The classes of failures in the log of the run, in terms of the failure modes. */
  lemma ClassesInRun(s: State, b: Batch)
    requires RunRows(s.db, b.run, b.ids) && forall i :: 0 <= i < |b.ids| ==> JobDone(s, b, i)
    ensures var events, n := RunEvents(s.db, s.db.events, b.run), |b.ids|;
            && Matching(events, IS_RETRY_BODY) == First(b, n, Transient)
            && Matching(events, IS_TRANSIENT) == First(b, n, Transient)
            && Matching(events, IS_PERMANENT) == First(b, n, Permanent)
            && Matching(events, IS_TIMEOUT) == First(b, n, Timeout)
  {
    ModeInRun(s, b, IS_RETRY_BODY, (m: Mark) => m.kind == KRetryScheduled, Transient);
    ModeInRun(s, b, IS_TRANSIENT, (m: Mark) => m.kind == KFailed && m.retryable, Transient);
    ModeInRun(s, b, IS_PERMANENT, (m: Mark) => m.kind == KFailed && !m.retryable, Permanent);
    ModeInRun(s, b, IS_TIMEOUT, (m: Mark) => m.kind == KTimedOut, Timeout);
  }

  lemma NotCancelled(s: State, b: Batch, i: nat)
    requires i < |b.ids| && JobDone(s, b, i)
    ensures Matching(EventsOf(RunEvents(s.db, s.db.events, b.run), b.ids[i]), IS_CANCELLED) == 0
  {
    EventsOfJob(s, b, i, IS_CANCELLED, (m: Mark) => m.kind == KCancelled);
  }

  lemma {:induction false} NoneCancelled(s: State, b: Batch, n: nat)
    requires n <= |b.ids| && forall i :: 0 <= i < |b.ids| ==> JobDone(s, b, i)
    ensures MatchingPerJob(RunEvents(s.db, s.db.events, b.run), b.ids[..n], IS_CANCELLED) == 0
  {
    if n > 0 {
      NoneCancelled(s, b, n - 1);
      NotCancelled(s, b, n - 1);
      assert b.ids[..n][..n - 1] == b.ids[..n - 1];
    }
  }

  lemma {:induction false} StatusTotalsHold(s: State, b: Batch, n: nat)
    requires n <= |b.ids| && forall i :: 0 <= i < |b.ids| ==> JobDone(s, b, i)
    ensures StatusTotals(s, b, n)
  {
    if n > 0 {
      StatusTotalsHold(s, b, n - 1);
      assert JobDone(s, b, n - 1);
    }
  }

  lemma {:induction false} CountModeAppend(plan: seq<InjectedFailure>, f: InjectedFailure, mode: FailureMode)
    ensures CountMode(plan + [f], mode) == CountMode(plan, mode) + if f.mode == mode then 1 else 0
  {
    if plan == [] {
      assert ([] + [f])[1..] == [];
    } else {
      CountModeAppend(plan[1..], f, mode);
      assert (plan + [f])[1..] == plan[1..] + [f];
    }
  }

  /** The jobs with a mode are the failures with that mode. */
  lemma {:induction false} FirstIsCount(b: Batch, n: nat, mode: FailureMode)
    ensures First(b, n, mode) == CountMode(if n <= |b.failures| then b.failures[..n] else b.failures, mode)
  {
    if n > 0 {
      FirstIsCount(b, n - 1, mode);
      if n <= |b.failures| {
        CountModeAppend(b.failures[..n - 1], b.failures[n - 1], mode);
        assert b.failures[..n] == b.failures[..n - 1] + [b.failures[n - 1]];
      } else {
        assert b.failures[..|b.failures|] == b.failures;
      }
    }
  }

  ghost predicate PlannedBatch(b: Batch, order: seq<nat>, includeTimeouts: bool) {
    Permutation(order) && |order| <= |b.ids| && b.failures == PlanOf(order, Modes(includeTimeouts), |order|)
  }

  lemma PlannedBatchCounts(b: Batch, order: seq<nat>, includeTimeouts: bool)
    requires PlannedBatch(b, order, includeTimeouts)
    ensures var n, k, m := |b.ids|, |order|, if includeTimeouts then 4 else 3;
            && First(b, n, Transient) == Share(k, m, 0)
            && First(b, n, Permanent) == Share(k, m, 1)
            && First(b, n, DuplicateSubmission) == Share(k, m, 2)
            && First(b, n, Timeout) == (if includeTimeouts then Share(k, m, 3) else 0)
  {
    ModeShare(b, order, includeTimeouts, 0);
    ModeShare(b, order, includeTimeouts, 1);
    ModeShare(b, order, includeTimeouts, 2);
    if includeTimeouts {
      ModeShare(b, order, includeTimeouts, 3);
    } else {
      FirstIsCount(b, |b.ids|, Timeout);
      assert b.failures[..|b.failures|] == b.failures;
      NoSuchMode(order, Modes(false), |order|, Timeout);
    }
  }

  lemma ModeShare(b: Batch, order: seq<nat>, includeTimeouts: bool, r: nat)
    requires PlannedBatch(b, order, includeTimeouts) && r < |Modes(includeTimeouts)|
    ensures First(b, |b.ids|, Modes(includeTimeouts)[r]) == Share(|order|, |Modes(includeTimeouts)|, r)
  {
    assert b.failures[..|b.failures|] == b.failures;
    FirstIsCount(b, |b.ids|, Modes(includeTimeouts)[r]);
    PlanCounts(order, Modes(includeTimeouts), |order|, r);
  }

  lemma {:induction false} NoSuchMode(order: seq<nat>, modes: seq<FailureMode>, n: nat, mode: FailureMode)
    requires n <= |order| && modes != [] && mode !in modes
    ensures CountMode(PlanOf(order, modes, n), mode) == 0
  {
    if n > 0 {
      NoSuchMode(order, modes, n - 1, mode);
      FailureInjection.InsertCounts(PlanOf(order, modes, n - 1), Rotated(order, modes, n - 1), mode);
    }
  }

  lemma EmptyGround(b: Batch)
    requires ValidBatch(b)
    ensures Ground(EMPTY_DB, b)
  {
  }

  lemma BatchIsRun(s: State, b: Batch)
    requires ValidBatch(b) && s.db.jobs.Keys == BatchDb(EMPTY_DB, b, |b.ids|).jobs.Keys
    requires forall i :: 0 <= i < |b.ids| ==> JobDone(s, b, i)
    ensures RunRows(s.db, b.run, b.ids)
  {
    forall j | j in s.db.jobs
      ensures j in b.ids && s.db.jobs[j].runId == b.run
    {
      EmptyGround(b);
      var k := RowIndex(EMPTY_DB, b, |b.ids|, j);
      assert JobDone(s, b, k);
    }
    forall j | j in b.ids
      ensures j in s.db.jobs
    {
      var i :| 0 <= i < |b.ids| && b.ids[i] == j;
      assert JobDone(s, b, i);
    }
  }

  /** The reliability proof, end to end. For every permutation of the k injected indexes, with
      timeouts in the rotation, every fault-free run that drains the stream ends with
      (k + 3) / 4 retries, (k + 3) / 4 + (k + 2) / 4 failed jobs, k / 4 timed out ones, and all
      others completed; (k + 1) / 4 submissions were to be replayed. */
  lemma ReliabilityProofOutcome(b: Batch, order: seq<nat>, run: Runner, cfg: Config, ss: seq<State>, acts: seq<Action>,
                                m: nat)
    requires PlannedBatch(b, order, true) && ReliabilityRun(b, run, cfg, ss, acts, m)
    ensures var s, n, k := ss[|acts|], |b.ids|, |order|;
            && RunRows(s.db, b.run, b.ids)
            && Matching(RunEvents(s.db, s.db.events, b.run), IS_RETRY_BODY) == (k + 3) / 4
            && StatusCount(s.db.jobs, b.ids, n, Failed) == (k + 3) / 4 + (k + 2) / 4
            && StatusCount(s.db.jobs, b.ids, n, TimedOut) == k / 4
            && StatusCount(s.db.jobs, b.ids, n, Completed) == n - (k + 3) / 4 - (k + 2) / 4 - k / 4
            && First(b, n, DuplicateSubmission) == (k + 1) / 4
  {
    AnyPlanOutcome(b, order, true, run, cfg, ss, acts, m);
  }

  /** Retries and failure classes of the run: with k failures in a rotation of r modes. */
  ghost predicate ClassCounts(db: Db, run: RunId, k: nat, r: nat, timedOut: nat)
    requires r >= 2
  {
    var events := RunEvents(db, db.events, run);
    && Matching(events, IS_RETRY_BODY) == Share(k, r, 0)
    && Matching(events, IS_TRANSIENT) == Share(k, r, 0)
    && Matching(events, IS_PERMANENT) == Share(k, r, 1)
    && Matching(events, IS_TIMEOUT) == timedOut
    && Matching(events, IS_CANCELLED) == 0
  }

  /** The same with or without timeouts in the rotation of m modes. */
  lemma AnyPlanOutcome(b: Batch, order: seq<nat>, includeTimeouts: bool, run: Runner, cfg: Config,
                       ss: seq<State>, acts: seq<Action>, m: nat)
    requires PlannedBatch(b, order, includeTimeouts) && ReliabilityRun(b, run, cfg, ss, acts, m)
    ensures var s, n, k, r := ss[|acts|], |b.ids|, |order|, if includeTimeouts then 4 else 3;
            var timedOut := if includeTimeouts then Share(k, 4, 3) else 0;
            && RunRows(s.db, b.run, b.ids)
            && ClassCounts(s.db, b.run, k, r, timedOut)
            && StatusCount(s.db.jobs, b.ids, n, Failed) == Share(k, r, 0) + Share(k, r, 1)
            && StatusCount(s.db.jobs, b.ids, n, TimedOut) == timedOut
            && StatusCount(s.db.jobs, b.ids, n, Completed) == n - Share(k, r, 0) - Share(k, r, 1) - timedOut
            && First(b, n, DuplicateSubmission) == Share(k, r, 2)
  {
    var s := ss[|acts|];
    forall i | 0 <= i < |b.ids|
      ensures JobDone(s, b, i)
    {
      JobIsDone(b, run, cfg, ss, acts, m, i);
    }
    EndState(b, run, cfg, ss, acts, m);
    BatchIsRun(s, b);
    StatusTotalsHold(s, b, |b.ids|);
    ClassesInRun(s, b);
    NoneCancelled(s, b, |b.ids|);
    PerJobIsRun(s, b, IS_CANCELLED);
    PlannedBatchCounts(b, order, includeTimeouts);
  }

  lemma PerJobIsRun(s: State, b: Batch, p: Body -> bool)
    requires RunRows(s.db, b.run, b.ids)
    ensures MatchingPerJob(RunEvents(s.db, s.db.events, b.run), b.ids[..|b.ids|], p)
         == Matching(RunEvents(s.db, s.db.events, b.run), p)
  {
    assert b.ids[..|b.ids|] == b.ids;
    RunEventsMembers(s.db, s.db.events, b.run);
    var events := RunEvents(s.db, s.db.events, b.run);
    forall k | 0 <= k < |events|
      ensures events[k].job in b.ids
    {
      assert events[k] in events;
    }
    GroupsAddUp(events, b.ids, p);
  }

  // ----- the artifacts of the run -----

  ghost predicate PlainEvent(x: Event) {
    x.body.CompletedBody? && x.body.artifact.Some? ==> x.body.artifact.value.result.artifactPayload.Absent?
  }

  ghost predicate PlainPc(pc: Pc) {
    pc.Wrote? ==> pc.stored.result.artifactPayload.Absent?
  }

  ghost predicate PlainState(s: State) {
    && (forall k :: 0 <= k < |s.db.events| ==> PlainEvent(s.db.events[k]))
    && (forall i :: 0 <= i < |s.actors| ==> PlainPc(s.actors[i]))
  }

  lemma PlainEffect(cfg: Config, s: State, a: Action, eff: Effect)
    requires Ready(s, a) && eff == EffectOf(cfg, s, a) && (!External(a) ==> PlainPc(s.actors[a.i]))
    requires a.WriteArtifact? ==> a.result.artifactPayload.Absent?
    ensures PlainPc(eff.pc)
    ensures (eff.tx.RecordTx? || eff.tx.FinalizeTx?) && eff.tx.body.CompletedBody? && eff.tx.body.artifact.Some? ==>
              eff.tx.body.artifact.value.result.artifactPayload.Absent?
  {
  }

  lemma PlainStep(cfg: Config, s: State, a: Action, s': State)
    requires PlainState(s) && Step(cfg, s, a, s') && (a.WriteArtifact? ==> a.result.artifactPayload.Absent?)
    ensures PlainState(s')
  {
    var eff := EffectOf(cfg, s, a);
    EffectSummary(cfg, s, a);
    PlainEffect(cfg, s, a, eff);
    forall k | 0 <= k < |s'.db.events|
      ensures PlainEvent(s'.db.events[k])
    {
      assert k < |s.db.events| ==> s'.db.events[k] == s.db.events[k];
    }
  }

  lemma {:induction false} PlainUntil(cfg: Config, ss: seq<State>, acts: seq<Action>, n: nat)
    requires Run(cfg, ss, acts) && PlainWrites(acts) && n <= |acts|
    ensures PlainState(ss[n])
  {
    if n > 0 {
      PlainUntil(cfg, ss, acts, n - 1);
      assert Step(cfg, ss[n - 1], acts[n - 1], ss[n]);
      PlainStep(cfg, ss[n - 1], acts[n - 1], ss[n]);
    }
  }

  /** A result without a payload keeps the identity fields, so every artifact validates. */
  lemma ArtifactsValidate(b: Batch, run: Runner, cfg: Config, f: Format, ss: seq<State>, acts: seq<Action>, m: nat)
    requires ReliabilityRun(b, run, cfg, ss, acts, m) && StoredRun(cfg, f, ss, acts)
    ensures var s := ss[|acts|]; AllArtifactsOk(f.codec, s.files, RunEvents(s.db, s.db.events, b.run))
  {
    var s := ss[|acts|];
    PlainUntil(cfg, ss, acts, |acts|);
    RunEventsMembers(s.db, s.db.events, b.run);
    forall x | x in RunEvents(s.db, s.db.events, b.run)
      ensures ResultKeeps(f, s.db, x)
    {
      var k :| 0 <= k < |s.db.events| && s.db.events[k] == x;
      assert PlainEvent(s.db.events[k]);
    }
    ReportRaisesIff(cfg, f, ss, acts, |acts|, b.run);
  }
}
