/** run_reliability_proof as a program: plan, batch, drain, report, validation. It accepts
    exactly when enough failures were injected for the evidence that it asks for. */
module ReliabilityProof {
  import opened Domain
  import opened Store
  import opened Streams
  import opened Artifacts
  import opened Isolation
  import opened OwnReports
  import opened Protocol
  import opened Safety
  import opened Determinism
  import opened Drain
  import opened Runtime
  import opened Repository
  import opened Reports
  import opened Inspection
  import opened Rounds
  import opened FailureInjection
  import opened Reliability
  import opened ReliabilityOutcome

  datatype ReliabilityReport = ReliabilityReport(
    submitted: nat, lifecycle: Lifecycle, duplicates: nat, retries: nat, replays: nat,
    classification: Counters, checked: nat, valid: nat, costCents: nat, conflicts: nat, pressure: Backpressure)
  {
    /** completed artifacts over completed jobs, 1 when nothing completed */
    function Completeness(): real {
      if lifecycle.completed == 0 then 1.0 else valid as real / lifecycle.completed as real
    }

    function Terminal(): nat {
      TerminalSum(lifecycle)
    }
  }

  /** The report says what the tables and the stream hold for the run. */
  ghost predicate Reflects(r: ReliabilityReport, db: Db, q: Queue, workers: nat, run: RunId, ids: seq<JobId>) {
    && RunRows(db, run, ids)
    && r.submitted == |ids| && r.lifecycle == LifecycleOf(db.jobs, ids, |ids|)
    && r.duplicates == |DuplicateTerminalJobs(db, Some(run))|
    && r.retries == Matching(RunEvents(db, db.events, run), IS_RETRY_BODY)
    && r.checked == r.valid == Matching(RunEvents(db, db.events, run), IS_COMPLETED)
    && CountsList(r.classification, NO_COUNTERS, RunEvents(db, db.events, run)) && r.costCents == 0
    && r.conflicts == RunConflicts(db, db.conflicts, run) && r.pressure == PressureOf(q, db, run, ids, workers)
  }

  /** The terminal count of a report is the number of the run's rows with a terminal status, and
      its completeness is the share of completed jobs whose artifact is valid. */
  lemma ReportTotals(r: ReliabilityReport, db: Db, q: Queue, workers: nat, run: RunId, ids: seq<JobId>)
    requires Reflects(r, db, q, workers, run, ids)
    ensures r.Terminal() == |TerminalRows(db.jobs, ids, |ids|)|
    ensures r.lifecycle.completed == |StatusRows(db.jobs, ids, |ids|, Completed)|
    ensures if r.lifecycle.completed == 0 then r.Completeness() == 1.0
            else
              && r.Completeness() * r.lifecycle.completed as real == r.valid as real
              && (r.Completeness() >= 1.0 <==> r.valid >= r.lifecycle.completed)
  {
    TerminalBuckets(db.jobs, ids, |ids|);
    CompletedBucket(db.jobs, ids);
    CompletenessIsShare(r);
  }

  lemma CompletenessIsShare(r: ReliabilityReport)
    ensures if r.lifecycle.completed == 0 then r.Completeness() == 1.0
            else
              && r.Completeness() * r.lifecycle.completed as real == r.valid as real
              && (r.Completeness() >= 1.0 <==> r.valid >= r.lifecycle.completed)
  {
    if r.lifecycle.completed > 0 {
      var share, all := r.Completeness(), r.lifecycle.completed as real;
      assert share * all == r.valid as real;
      if share >= 1.0 {
        assert share * all >= all;
      } else {
        assert share * all < all;
      }
    }
  }

  /** build_smoke_report; None where it raises ArtifactIntegrityError. */
  method BuildReport(db: Database, queue: RedisStreamsQueue, store: ArtifactStore, run: RunId, ids: seq<JobId>,
                     workers: nat, replays: nat)
    returns (r: Option<ReliabilityReport>)
    requires RunRows(db.View(), run, ids)
    ensures r.Some? <==> AllArtifactsOk(store.format.codec, store.files, RunEvents(db.View(), db.events, run))
    ensures r.Some? ==>
              Reflects(r.value, db.View(), queue.View(), workers, run, ids) && r.value.replays == replays
  {
    var lifecycle := LifecycleCounts(db.jobs, ids);
    var events := SelectRunEvents(db, run);
    var duplicates := DuplicateTerminalEventCount(db, Some(run), ids);
    var counters := FoldEvents(events, store);
    if counters.None? {
      return None;
    }
    var c := counters.value;
    var conflicts := ConflictAttemptCount(db, run);
    var pressure := InspectQueueBackpressure(db, queue, run, ids, workers);
    return Some(ReliabilityReport(|ids|, lifecycle, duplicates, c.retries, replays, c, c.artifacts, c.artifacts, 0,
                                  conflicts, pressure));
  }

  datatype ProofError =
    | WrongSubmitted | WrongTerminal | DuplicateFinalizations | NoRetryEvidence | NoTimeoutEvidence
    | NoReplayEvidence | ArtifactsIncomplete | ArtifactsUnchecked | ArtifactsInvalid | NonZeroCost

  /** What the validation expects of a report. */
  ghost predicate Passes(r: ReliabilityReport, expectedJobs: nat, failureRate: real, includeTimeouts: bool,
                         repeatSubmissions: bool) {
    && r.submitted == expectedJobs && r.Terminal() == expectedJobs && r.duplicates == 0
    && (failureRate > 0.0 ==> r.retries > 0)
    && (includeTimeouts ==> r.lifecycle.timedOut > 0)
    && (repeatSubmissions ==> r.replays > 0)
    && r.Completeness() >= 1.0 && r.checked == r.lifecycle.completed && r.valid == r.checked && r.costCents == 0
  }

  function When(violated: bool, error: ProofError): seq<ProofError> {
    if violated then [error] else []
  }

  ghost function CountViolations(r: ReliabilityReport, expectedJobs: nat): seq<ProofError> {
    When(r.submitted != expectedJobs, WrongSubmitted) + When(r.Terminal() != expectedJobs, WrongTerminal)
    + When(r.duplicates != 0, DuplicateFinalizations)
  }

  ghost function EvidenceViolations(r: ReliabilityReport, failureRate: real, includeTimeouts: bool,
                                    repeatSubmissions: bool): seq<ProofError> {
    When(failureRate > 0.0 && r.retries == 0, NoRetryEvidence)
    + When(includeTimeouts && r.lifecycle.timedOut == 0, NoTimeoutEvidence)
    + When(repeatSubmissions && r.replays == 0, NoReplayEvidence)
  }

  ghost function ArtifactViolations(r: ReliabilityReport): seq<ProofError> {
    When(r.Completeness() < 1.0, ArtifactsIncomplete) + When(r.checked != r.lifecycle.completed, ArtifactsUnchecked)
    + When(r.valid != r.checked, ArtifactsInvalid) + When(r.costCents != 0, NonZeroCost)
  }

  /** The expectations of Passes that the report violates, in the order of the validation. */
  ghost function Violations(r: ReliabilityReport, expectedJobs: nat, failureRate: real, includeTimeouts: bool,
                            repeatSubmissions: bool): (errors: seq<ProofError>)
    ensures errors == [] <==> Passes(r, expectedJobs, failureRate, includeTimeouts, repeatSubmissions)
  {
    CountViolations(r, expectedJobs) + EvidenceViolations(r, failureRate, includeTimeouts, repeatSubmissions)
    + ArtifactViolations(r)
  }

  /** The report violates the expectation that the error names. */
  ghost predicate Violated(r: ReliabilityReport, expectedJobs: nat, failureRate: real, includeTimeouts: bool,
                           repeatSubmissions: bool, e: ProofError)
  {
    match e
    case WrongSubmitted => r.submitted != expectedJobs
    case WrongTerminal =>
      r.lifecycle.completed + r.lifecycle.failed + r.lifecycle.timedOut + r.lifecycle.cancelled != expectedJobs
    case DuplicateFinalizations => r.duplicates > 0
    case NoRetryEvidence => failureRate > 0.0 && r.retries == 0
    case NoTimeoutEvidence => includeTimeouts && r.lifecycle.timedOut == 0
    case NoReplayEvidence => repeatSubmissions && r.replays == 0
    case ArtifactsIncomplete => r.valid < r.lifecycle.completed
    case ArtifactsUnchecked => r.checked != r.lifecycle.completed
    case ArtifactsInvalid => r.valid != r.checked
    case NonZeroCost => r.costCents != 0
  }

  lemma WhenMembers(a: bool, x: ProofError, b: bool, y: ProofError, c: bool, z: ProofError, e: ProofError)
    ensures e in When(a, x) + When(b, y) + When(c, z) <==> (a && e == x) || (b && e == y) || (c && e == z)
  {
  }

  lemma CountMembers(r: ReliabilityReport, expectedJobs: nat, e: ProofError)
    ensures e in CountViolations(r, expectedJobs)
       <==> || (e == WrongSubmitted && r.submitted != expectedJobs)
            || (e == WrongTerminal && r.Terminal() != expectedJobs)
            || (e == DuplicateFinalizations && r.duplicates != 0)
  {
    WhenMembers(r.submitted != expectedJobs, WrongSubmitted, r.Terminal() != expectedJobs, WrongTerminal,
                r.duplicates != 0, DuplicateFinalizations, e);
  }

  lemma EvidenceMembers(r: ReliabilityReport, failureRate: real, includeTimeouts: bool, repeatSubmissions: bool,
                        e: ProofError)
    ensures e in EvidenceViolations(r, failureRate, includeTimeouts, repeatSubmissions)
       <==> || (e == NoRetryEvidence && failureRate > 0.0 && r.retries == 0)
            || (e == NoTimeoutEvidence && includeTimeouts && r.lifecycle.timedOut == 0)
            || (e == NoReplayEvidence && repeatSubmissions && r.replays == 0)
  {
    WhenMembers(failureRate > 0.0 && r.retries == 0, NoRetryEvidence,
                includeTimeouts && r.lifecycle.timedOut == 0, NoTimeoutEvidence,
                repeatSubmissions && r.replays == 0, NoReplayEvidence, e);
  }

  lemma ArtifactMembers(r: ReliabilityReport, e: ProofError)
    ensures e in ArtifactViolations(r)
       <==> || (e == ArtifactsIncomplete && r.Completeness() < 1.0)
            || (e == ArtifactsUnchecked && r.checked != r.lifecycle.completed)
            || (e == ArtifactsInvalid && r.valid != r.checked)
            || (e == NonZeroCost && r.costCents != 0)
  {
    WhenMembers(r.Completeness() < 1.0, ArtifactsIncomplete, r.checked != r.lifecycle.completed, ArtifactsUnchecked,
                r.valid != r.checked, ArtifactsInvalid, e);
  }

  lemma InSomePart(x: seq<ProofError>, y: seq<ProofError>, z: seq<ProofError>, e: ProofError)
    ensures e in x + y + z <==> e in x || e in y || e in z
  {
  }

  /** The errors are the violated expectations. */
  lemma ViolationsAre(r: ReliabilityReport, expectedJobs: nat, failureRate: real, includeTimeouts: bool,
                      repeatSubmissions: bool, e: ProofError)
    ensures e in Violations(r, expectedJobs, failureRate, includeTimeouts, repeatSubmissions)
       <==> Violated(r, expectedJobs, failureRate, includeTimeouts, repeatSubmissions, e)
  {
    IncompleteIff(r);
    CountMembers(r, expectedJobs, e);
    EvidenceMembers(r, failureRate, includeTimeouts, repeatSubmissions, e);
    ArtifactMembers(r, e);
    InSomePart(CountViolations(r, expectedJobs),
               EvidenceViolations(r, failureRate, includeTimeouts, repeatSubmissions), ArtifactViolations(r), e);
  }

  lemma IncompleteIff(r: ReliabilityReport)
    ensures r.Completeness() < 1.0 <==> r.valid < r.lifecycle.completed
  {
    CompletenessIsShare(r);
  }

  method ValidateCounts(r: ReliabilityReport, expectedJobs: nat) returns (errors: seq<ProofError>)
    ensures errors == CountViolations(r, expectedJobs)
  {
    errors := [];
    if r.submitted != expectedJobs { errors := errors + [WrongSubmitted]; }
    if r.Terminal() != expectedJobs { errors := errors + [WrongTerminal]; }
    if r.duplicates != 0 { errors := errors + [DuplicateFinalizations]; }
  }

  method ValidateEvidence(r: ReliabilityReport, failureRate: real, includeTimeouts: bool, repeatSubmissions: bool)
    returns (errors: seq<ProofError>)
    ensures errors == EvidenceViolations(r, failureRate, includeTimeouts, repeatSubmissions)
  {
    errors := [];
    if failureRate > 0.0 && r.retries == 0 { errors := errors + [NoRetryEvidence]; }
    if includeTimeouts && r.lifecycle.timedOut == 0 { errors := errors + [NoTimeoutEvidence]; }
    if repeatSubmissions && r.replays == 0 { errors := errors + [NoReplayEvidence]; }
  }

  method ValidateArtifacts(r: ReliabilityReport) returns (errors: seq<ProofError>)
    ensures errors == ArtifactViolations(r)
  {
    errors := [];
    if r.Completeness() < 1.0 { errors := errors + [ArtifactsIncomplete]; }
    if r.checked != r.lifecycle.completed { errors := errors + [ArtifactsUnchecked]; }
    if r.valid != r.checked { errors := errors + [ArtifactsInvalid]; }
    if r.costCents != 0 { errors := errors + [NonZeroCost]; }
  }

  /** validate_reliability_proof: the violated expectations, in order. */
  method ValidateReliabilityProof(r: ReliabilityReport, expectedJobs: nat, failureRate: real, includeTimeouts: bool,
                                  repeatSubmissions: bool) returns (errors: seq<ProofError>)
    ensures errors == Violations(r, expectedJobs, failureRate, includeTimeouts, repeatSubmissions)
    ensures errors == [] <==> Passes(r, expectedJobs, failureRate, includeTimeouts, repeatSubmissions)
  {
    var counts := ValidateCounts(r, expectedJobs);
    var evidence := ValidateEvidence(r, failureRate, includeTimeouts, repeatSubmissions);
    var artifacts := ValidateArtifacts(r);
    errors := counts + evidence + artifacts;
  }

  /** The evidence that the validation asks for is there. */
  predicate EnoughFailures(k: nat, failureRate: real, includeTimeouts: bool, repeatSubmissions: bool) {
    (failureRate > 0.0 ==> k >= 1) && (includeTimeouts ==> k >= 4) && (repeatSubmissions ==> k >= 3)
  }

  /** The evidence that k failures leave out, of the evidence that is asked for. */
  function MissingEvidence(k: nat, failureRate: real, includeTimeouts: bool, repeatSubmissions: bool)
    : (missing: seq<ProofError>)
    ensures missing == [] <==> EnoughFailures(k, failureRate, includeTimeouts, repeatSubmissions)
  {
    When(failureRate > 0.0 && k < 1, NoRetryEvidence) + When(includeTimeouts && k < 4, NoTimeoutEvidence)
    + When(repeatSubmissions && k < 3, NoReplayEvidence)
  }

  /** The numbers of the outcome, for k failures among n jobs. */
  ghost predicate ExpectedNumbers(r: ReliabilityReport, n: nat, k: nat, includeTimeouts: bool,
                                  repeatSubmissions: bool) {
    var m := if includeTimeouts then 4 else 3;
    && r.submitted == n && BucketSum(r.lifecycle) == n && r.duplicates == 0 && r.costCents == 0
    && r.lifecycle.failed == Share(k, m, 0) + Share(k, m, 1)
    && r.lifecycle.timedOut == (if includeTimeouts then Share(k, 4, 3) else 0)
    && r.lifecycle.completed == n - r.lifecycle.failed - r.lifecycle.timedOut
    && r.checked == r.valid == r.lifecycle.completed
    && r.retries == Share(k, m, 0) && r.replays == (if repeatSubmissions then Share(k, m, 2) else 0)
    && r.classification == Counters(
         r.retries, Share(k, m, 0), Share(k, m, 1), r.lifecycle.timedOut, 0, r.lifecycle.completed)
    && r.conflicts == 0 && r.pressure == Backpressure(0, 0, 0, 0, 0, 0.0, RetryRate(Share(k, m, 0), n))
  }

  /** Every report on the tables of a reliability run passes if and only if enough failures
      were injected: with all three kinds of evidence required, at least four. */
  lemma ProofPassesIff(r: ReliabilityReport, b: Batch, order: seq<nat>, includeTimeouts: bool, repeatSubmissions: bool,
                       failureRate: real, workers: nat, run: Runner, cfg: Config, ss: seq<State>, acts: seq<Action>,
                       m: nat)
    requires PlannedBatch(b, order, includeTimeouts) && ReliabilityRun(b, run, cfg, ss, acts, m)
    requires Reflects(r, ss[|acts|].db, ss[|acts|].q, workers, b.run, b.ids)
    requires r.replays == if repeatSubmissions then First(b, |b.ids|, DuplicateSubmission) else 0
    ensures Passes(r, |b.ids|, failureRate, includeTimeouts, repeatSubmissions)
       <==> EnoughFailures(|order|, failureRate, includeTimeouts, repeatSubmissions)
    ensures ExpectedNumbers(r, |b.ids|, |order|, includeTimeouts, repeatSubmissions)
    ensures Violations(r, |b.ids|, failureRate, includeTimeouts, repeatSubmissions)
         == MissingEvidence(|order|, failureRate, includeTimeouts, repeatSubmissions)
  {
    RunnerRunIsSingleFlight(POLICY, run, cfg, ss, acts);
    AnyPlanOutcome(b, order, includeTimeouts, run, cfg, ss, acts, m);
    ReportIsComplete(cfg, ss, acts, |acts|, b.run, b.ids);
    EndState(b, run, cfg, ss, acts, m);
    EndIsClean(b, run, cfg, ss, acts, m);
    ReportNumbers(r, ss[|acts|], workers, b, |order|, includeTimeouts, repeatSubmissions);
    NumbersDecide(r, |b.ids|, |order|, includeTimeouts, repeatSubmissions, failureRate);
  }

  /** The report's figures on a clean end: no duplicate, no conflict, no load, every row counted. */
  lemma CleanFigures(r: ReliabilityReport, s: State, workers: nat, run: RunId, ids: seq<JobId>)
    requires GuardInv(s.db) && Reflects(r, s.db, s.q, workers, run, ids)
    requires Drained(s) && s.q.dlq == [] && s.db.conflicts == [] && StatusCount(s.db.jobs, ids, |ids|, Running) == 0
    ensures r.duplicates == 0 && r.conflicts == 0
    ensures r.pressure == Backpressure(0, 0, 0, 0, 0, 0.0,
                                       RetryRate(Matching(RunEvents(s.db, s.db.events, run), IS_RETRY_BODY), |ids|))
  {
    NoDuplicateTerminalEvents(s.db, Some(run));
    DrainedPressure(s, run, ids, workers);
  }

  /** The report's figures, in terms of the transient failures, the permanent ones and the timeouts. */
  lemma ReportFigures(r: ReliabilityReport, s: State, workers: nat, run: RunId, ids: seq<JobId>, transient: nat,
                      permanent: nat, timedOut: nat)
    requires GuardInv(s.db) && Reflects(r, s.db, s.q, workers, run, ids)
    requires Drained(s) && s.q.dlq == [] && s.db.conflicts == []
    requires var events, jobs := RunEvents(s.db, s.db.events, run), s.db.jobs;
             && StatusCount(jobs, ids, |ids|, Failed) == transient + permanent
             && StatusCount(jobs, ids, |ids|, TimedOut) == timedOut
             && StatusCount(jobs, ids, |ids|, Completed) == |ids| - transient - permanent - timedOut
             && Matching(events, IS_RETRY_BODY) == Matching(events, IS_TRANSIENT) == transient
             && Matching(events, IS_PERMANENT) == permanent && Matching(events, IS_TIMEOUT) == timedOut
             && Matching(events, IS_CANCELLED) == 0
             && Matching(events, IS_COMPLETED) == StatusCount(jobs, ids, |ids|, Completed)
    ensures r.submitted == |ids| && BucketSum(r.lifecycle) == |ids| && r.duplicates == 0 && r.costCents == 0
    ensures r.lifecycle.failed == transient + permanent && r.lifecycle.timedOut == timedOut
    ensures r.checked == r.valid == r.lifecycle.completed == |ids| - transient - permanent - timedOut
    ensures r.retries == transient && r.conflicts == 0
    ensures r.classification == Counters(transient, transient, permanent, timedOut, 0, r.lifecycle.completed)
    ensures r.pressure == Backpressure(0, 0, 0, 0, 0, 0.0, RetryRate(transient, |ids|))
  {
    BucketsPartitionRows(s.db.jobs, ids, |ids|);
    CleanFigures(r, s, workers, run, ids);
  }

  lemma ReportNumbers(r: ReliabilityReport, s: State, workers: nat, b: Batch, k: nat, includeTimeouts: bool,
                      repeatSubmissions: bool)
    requires GuardInv(s.db) && Reflects(r, s.db, s.q, workers, b.run, b.ids)
    requires Drained(s) && s.q.dlq == [] && s.db.conflicts == []
    requires r.replays == if repeatSubmissions then First(b, |b.ids|, DuplicateSubmission) else 0
    requires var db, n, m := s.db, |b.ids|, if includeTimeouts then 4 else 3;
             && ClassCounts(db, b.run, k, m, if includeTimeouts then Share(k, 4, 3) else 0)
             && StatusCount(db.jobs, b.ids, n, Failed) == Share(k, m, 0) + Share(k, m, 1)
             && StatusCount(db.jobs, b.ids, n, TimedOut) == (if includeTimeouts then Share(k, 4, 3) else 0)
             && StatusCount(db.jobs, b.ids, n, Completed)
                == n - StatusCount(db.jobs, b.ids, n, Failed) - StatusCount(db.jobs, b.ids, n, TimedOut)
             && First(b, n, DuplicateSubmission) == Share(k, m, 2)
             && Matching(RunEvents(db, db.events, b.run), IS_COMPLETED) == StatusCount(db.jobs, b.ids, n, Completed)
    ensures ExpectedNumbers(r, |b.ids|, k, includeTimeouts, repeatSubmissions)
  {
    var m := if includeTimeouts then 4 else 3;
    var timedOut := if includeTimeouts then Share(k, 4, 3) else 0;
    ReportFigures(r, s, workers, b.run, b.ids, Share(k, m, 0), Share(k, m, 1), timedOut);
  }

  lemma SharesPositive(k: nat, includeTimeouts: bool)
    ensures var m := if includeTimeouts then 4 else 3;
            (Share(k, m, 0) > 0 <==> k >= 1) && (Share(k, m, 2) > 0 <==> k >= 3)
    ensures Share(k, 4, 3) > 0 <==> k >= 4
  {
  }

  lemma CompletenessIsOne(r: ReliabilityReport)
    requires r.valid == r.lifecycle.completed
    ensures r.Completeness() == 1.0
  {
    if r.lifecycle.completed > 0 {
      assert r.valid as real / r.lifecycle.completed as real == 1.0;
    }
  }

  /** The numbers of the outcome pass if and only if there are enough failures. */
  lemma NumbersDecide(r: ReliabilityReport, n: nat, k: nat, includeTimeouts: bool, repeatSubmissions: bool,
                      failureRate: real)
    requires ExpectedNumbers(r, n, k, includeTimeouts, repeatSubmissions)
    ensures Passes(r, n, failureRate, includeTimeouts, repeatSubmissions)
       <==> EnoughFailures(k, failureRate, includeTimeouts, repeatSubmissions)
    ensures Violations(r, n, failureRate, includeTimeouts, repeatSubmissions)
         == MissingEvidence(k, failureRate, includeTimeouts, repeatSubmissions)
  {
    SharesPositive(k, includeTimeouts);
    CompletenessIsOne(r);
  }

  // ----- a run among others -----

  ghost function Own(b: Batch): set<JobId> {
    set j | j in b.ids
  }

  /** The batch can start here: nothing in the tables or the files knows the run. */
  ghost predicate Vacant(at: Site, b: Batch) {
    Ground(at.base, b) && forall p :: p in at.files ==> p.0 !in b.ids
  }

  lemma SubmitsOwn(at: Site, b: Batch, s: State, a: Action)
    requires Ground(at.base, b) && OthersUntouched(at.base, s.db, Own(b)) && BatchAction(a, b)
    ensures StaysInside(s, a, Own(b))
  {
    if a.Submit? {
      var i: nat :| i < |b.ids| && a.id == b.ids[i] && a.sub == b.SubmissionAt(i);
      forall j | j in s.db.jobs && j !in Own(b)
        ensures s.db.jobs[j].key != a.sub.key
      {
        assert j in at.base.jobs && at.base.jobs[j].key != Key(b.run, i);
      }
    }
  }

  /** All actions of the batch and of the workers are about the jobs of the batch. */
  lemma {:induction false} OwnUntil(cfg: Config, at: Site, b: Batch, ss: seq<State>, acts: seq<Action>, n: nat)
    requires Vacant(at, b) && Steps(cfg, ss, acts) && ss[0] == BatchState(at, b, 0, 0) && n <= |acts|
    requires forall k :: 0 <= k < |acts| ==> BatchAction(acts[k], b) || WorkerStep(acts[k])
    ensures OwnStream(ss[n], Own(b)) && OthersUntouched(at.base, ss[n].db, Own(b))
    ensures forall k :: 0 <= k < n ==> StaysInside(ss[k], acts[k], Own(b))
  {
    if n > 0 {
      OwnUntil(cfg, at, b, ss, acts, n - 1);
      assert Step(cfg, ss[n - 1], acts[n - 1], ss[n]);
      if BatchAction(acts[n - 1], b) {
        SubmitsOwn(at, b, ss[n - 1], acts[n - 1]);
      }
      PartStep(cfg, ss[n - 1], acts[n - 1], ss[n], Own(b));
    }
  }

  lemma {:induction false} PartOfBatch(at: Site, b: Batch, n: nat)
    requires n <= |b.ids| && Part(at.base, Own(b)) == EMPTY_DB
    ensures Part(BatchDb(at.base, b, n), Own(b)) == BatchDb(EMPTY_DB, b, n)
  {
    if n > 0 {
      PartOfBatch(at, b, n - 1);
      PartInsert(BatchDb(at.base, b, n - 1), b.ids[n - 1], b.SubmissionAt(n - 1), Own(b));
    }
  }

  lemma StartIsFresh(at: Site, b: Batch)
    requires Vacant(at, b)
    ensures FreshFor(BatchState(at, b, 0, 0), Own(b)) && Part(at.base, Own(b)) == EMPTY_DB
    ensures Inv(BatchState(at, b, 0, 0))
  {
    var s := BatchState(at, b, 0, 0);
    assert BatchQueue(b, 0) == EMPTY_QUEUE;
    FreshIsInit(s, Own(b));
    FreshStreamInv(s);
  }

  lemma PartsFollowRunner(policy: BudgetPolicy, run: Runner, cfg: Config, ss: seq<State>, acts: seq<Action>,
                          own: set<JobId>)
    requires RunnerSteps(policy, run, cfg, ss, acts) && Run(cfg, Parts(ss, own), acts)
    ensures RunnerRun(policy, run, cfg, Parts(ss, own), acts)
  {
    forall k | 0 <= k < |acts|
      ensures RunnerStep(policy, run, cfg, Parts(ss, own)[k], acts[k])
    {
      assert RunnerStep(policy, run, cfg, ss[k], acts[k]);
    }
  }

  /** The batch and a drain after it, seen through the jobs of the batch, are a reliability run
      from empty tables; the other jobs are as they were. */
  lemma OwnReliabilityRun(at: Site, b: Batch, run: Runner, cfg: Config, ss: seq<State>, batch: seq<Action>,
                          drain: seq<Action>)
    requires Vacant(at, b) && StubRunner(b, run)
    requires RunnerSteps(POLICY, run, cfg, ss, batch + drain) && ss[0] == BatchState(at, b, 0, 0)
    requires ss[|batch|] == BatchState(at, b, |b.ids|, |b.ids|) && Drained(ss[|batch + drain|])
    requires BatchActions(batch, b) && (forall a :: a in drain ==> WorkerStep(a)) && PlainWrites(batch + drain)
    ensures ReliabilityRun(b, run, cfg, Parts(ss, Own(b)), batch + drain, |batch|)
    ensures OthersUntouched(at.base, ss[|batch + drain|].db, Own(b))
  {
    var acts, own := batch + drain, Own(b);
    OnlyBatchAndWorkers(batch, drain, b);
    OwnUntil(cfg, at, b, ss, acts, |acts|);
    StartIsFresh(at, b);
    OwnRun(cfg, ss, acts, own);
    PartsFollowRunner(POLICY, run, cfg, ss, acts, own);
    PartOfBatch(at, b, |b.ids|);
  }

  lemma OnlyBatchAndWorkers(batch: seq<Action>, drain: seq<Action>, b: Batch)
    requires BatchActions(batch, b) && forall a :: a in drain ==> WorkerStep(a)
    ensures forall k :: 0 <= k < |batch + drain| ==>
            BatchAction((batch + drain)[k], b) || WorkerStep((batch + drain)[k])
    ensures forall k :: |batch| <= k < |batch + drain| ==> WorkerStep((batch + drain)[k])
  {
    forall k | 0 <= k < |batch + drain|
      ensures if k < |batch| then BatchAction((batch + drain)[k], b) else WorkerStep((batch + drain)[k])
    {
      if k < |batch| {
        assert (batch + drain)[k] == batch[k];
      } else {
        assert (batch + drain)[k] == drain[k - |batch|];
      }
    }
  }

  lemma StubWritesPlainly(batch: seq<Action>, drain: seq<Action>, b: Batch, runner: RunnerSpec)
    requires BatchActions(batch, b) && (forall a :: a in drain ==> FromRunner(runner, a))
    requires forall j: JobId, n: nat :: runner.result(j, n).artifactPayload.Absent?
    ensures PlainWrites(batch + drain)
  {
    forall k | 0 <= k < |batch + drain|
      ensures (batch + drain)[k].WriteArtifact? ==> (batch + drain)[k].result.artifactPayload.Absent?
    {
      if k < |batch| {
        assert (batch + drain)[k] == batch[k] && BatchAction(batch[k], b);
      } else {
        assert (batch + drain)[k] == drain[k - |batch|] && FromRunner(runner, drain[k - |batch|]);
      }
    }
  }

  // ----- the whole program -----

  datatype ProofResult =
    | InvalidArguments | MissingArtifact
    | Rejected(errors: seq<ProofError>) | Accepted(report: ReliabilityReport)

  method WorkerPool(n: nat, db: Database, queue: RedisStreamsQueue, store: ArtifactStore, runner: RunnerSpec,
                    ghost cfg: Config)
    returns (workers: seq<Worker>)
    requires StandardConfig(cfg, store.format)
    ensures |workers| == n && Pool(workers, db, queue, store, POLICY, runner, cfg)
  {
    workers := [];
    while |workers| < n
      invariant |workers| <= n && Pool(workers, db, queue, store, POLICY, runner, cfg)
    {
      var w := new Worker(|workers|, db, queue, store, true, POLICY, runner);
      workers := workers + [w];
    }
  }

  /** The default policy for every worker, and one store for all. */
  ghost predicate StandardConfig(cfg: Config, f: Format) {
    (forall i: ActorId :: cfg.policyOf(i) == POLICY && cfg.hasStore(i)) && cfg.artifact == Writer(f)
  }

  /** What the stub makes of the row of a job. */
  function RowOutcome(rows: map<JobId, JobRecord>): Runner {
    (j: JobId, a: nat) => if j in rows then StubOutcome(rows[j].payload, rows[j].timeoutSeconds) else Success
  }

  /** The stub runner over the rows; its result is always the same. */
  function StubSpec(rows: map<JobId, JobRecord>, stamp: (JobId, nat) -> string): RunnerSpec {
    RunnerSpec(RowOutcome(rows), (j: JobId, a: nat) => RunnerResult("stub job completed", Absent), stamp)
  }

  lemma RowOutcomeIsStub(base: Db, b: Batch)
    requires ValidBatch(b)
    ensures StubRunner(b, RowOutcome(BatchDb(base, b, |b.ids|).jobs))
  {
    forall i, a: nat | 0 <= i < |b.ids|
      ensures RowOutcome(BatchDb(base, b, |b.ids|).jobs)(b.ids[i], a)
           == StubOutcome(b.SubmissionAt(i).payload, b.SubmissionAt(i).timeoutSeconds)
    {
      RowAt(base, b, |b.ids|, i);
    }
  }

  lemma PathKeepsInv(policy: BudgetPolicy, run: Runner, cfg: Config, s: State, acts: seq<Action>, s': State)
    requires Inv(s) && RunnerPath(policy, run, cfg, s, acts, s')
    ensures Inv(s')
  {
    var ss :| RunnerSteps(policy, run, cfg, ss, acts) && ss[0] == s && ss[|acts|] == s';
    StepsKeepInv(cfg, ss, acts, |acts|);
  }

  lemma PathsCompose(policy: BudgetPolicy, run: Runner, cfg: Config, s: State, a: seq<Action>, mid: State,
                     b: seq<Action>, s': State)
    returns (ss: seq<State>)
    requires RunnerPath(policy, run, cfg, s, a, mid) && RunnerPath(policy, run, cfg, mid, b, s')
    ensures RunnerSteps(policy, run, cfg, ss, a + b) && ss[0] == s && ss[|a|] == mid && ss[|a + b|] == s'
  {
    var tt :| RunnerSteps(policy, run, cfg, tt, a) && tt[0] == s && tt[|a|] == mid;
    ss := RunnerStepsProlong(policy, run, cfg, tt, a, b, s');
  }

  lemma PlanIsBatch(b: Batch, order: seq<nat>, includeTimeouts: bool)
    requires Distinct(b.ids) && PlannedBatch(b, order, includeTimeouts)
    ensures ValidBatch(b)
  {
    forall i | 0 <= i < |b.failures|
      ensures b.failures[i].index == i
    {
      var p := PlanCoversIndexes(order, Modes(includeTimeouts), i);
    }
  }

  method SubmitAndDrain(repository: JobRepository, queue: RedisStreamsQueue, store: ArtifactStore, b: Batch,
                        workers: nat, now: int, repeatSubmissions: bool, stamp: (JobId, nat) -> string,
                        ghost cfg: Config)
    returns (replays: nat, ghost pp: seq<State>, ghost acts: seq<Action>, ghost m: nat)
    requires workers > 0 && StandardConfig(cfg, store.format)
    requires queue.View() == EMPTY_QUEUE && Vacant(Site(repository.db.View(), store.files, workers), b)
    modifies repository.db, queue, store
    ensures replays == if repeatSubmissions then First(b, |b.ids|, DuplicateSubmission) else 0
    ensures ReliabilityRun(b, RowOutcome(BatchDb(old(repository.db.View()), b, |b.ids|).jobs), cfg, pp, acts, m)
    ensures pp[|acts|] == PartOf(Snap(repository.db, queue, store, AllIdle(workers)), Own(b))
    ensures OthersUntouched(old(repository.db.View()), repository.db.View(), Own(b)) && TablesInv(repository.db.View())
  {
    ghost var at := Site(repository.db.View(), store.files, workers);
    ghost var run := RowOutcome(BatchDb(at.base, b, |b.ids|).jobs);
    ghost var start, mid := BatchState(at, b, 0, 0), BatchState(at, b, |b.ids|, |b.ids|);
    RowOutcomeIsStub(at.base, b);
    StartIsFresh(at, b);
    ghost var batch;
    replays, batch := SubmitReliabilityBatch(repository, queue, b, repeatSubmissions, POLICY, run, cfg, at);
    PathKeepsInv(POLICY, run, cfg, start, batch, mid);
    var runner := StubSpec(repository.db.jobs, stamp);
    assert repository.db.jobs == repository.db.View().jobs;
    var pool := WorkerPool(workers, repository.db, queue, store, runner, cfg);
    assert Snap(repository.db, queue, store, AllIdle(workers)) == mid;
    assert queue.pending == queue.View().pending;
    ghost var drain := DrainQueue(pool, now, cfg, repository.db, queue, store, POLICY, runner);
    ghost var end := Snap(repository.db, queue, store, AllIdle(workers));
    pp, acts, m := Assemble(at, b, run, runner, cfg, batch, drain, end);
  }

  lemma Assemble(at: Site, b: Batch, run: Runner, runner: RunnerSpec, cfg: Config, batch: seq<Action>,
                 drain: seq<Action>, end: State)
    returns (pp: seq<State>, acts: seq<Action>, m: nat)
    requires Vacant(at, b) && StubRunner(b, run) && Drained(end) && run == runner.outcome
    requires Inv(BatchState(at, b, |b.ids|, |b.ids|))
    requires BatchPath(POLICY, run, cfg, BatchState(at, b, 0, 0), batch, BatchState(at, b, |b.ids|, |b.ids|), b)
    requires RunnerPath(POLICY, run, cfg, BatchState(at, b, |b.ids|, |b.ids|), drain, end)
    requires forall a :: a in drain ==> WorkerStep(a) && FromRunner(runner, a)
    requires forall j: JobId, n: nat :: runner.result(j, n).artifactPayload.Absent?
    ensures ReliabilityRun(b, run, cfg, pp, acts, m) && pp[|acts|] == PartOf(end, Own(b))
    ensures OthersUntouched(at.base, end.db, Own(b)) && TablesInv(end.db)
  {
    PathKeepsInv(POLICY, run, cfg, BatchState(at, b, |b.ids|, |b.ids|), drain, end);
    var ss := PathsCompose(POLICY, run, cfg, BatchState(at, b, 0, 0), batch, BatchState(at, b, |b.ids|, |b.ids|), drain,
                           end);
    StubWritesPlainly(batch, drain, b, runner);
    OwnReliabilityRun(at, b, run, cfg, ss, batch, drain);
    pp, acts, m := Parts(ss, Own(b)), batch + drain, |batch|;
  }

  /** run_reliability_proof on any tables that know nothing of this run, with the job ids, the
      clock and the random source as parameters. It never misses an artifact, it accepts
      exactly when enough failures were injected, and it leaves all other jobs alone. */
  method RunReliabilityProof(repository: JobRepository, queue: RedisStreamsQueue, store: ArtifactStore, run: RunId,
                             ids: seq<JobId>, hash: Payload -> Digest, stamp: (JobId, nat) -> string,
                             random: nat -> nat, now: int, jobs: int, workers: int, failureRate: real,
                             includeTimeouts: bool, repeatSubmissions: bool)
    returns (r: ProofResult)
    requires TablesInv(repository.db.View()) && NewRun(repository.db.View(), run, ids) && queue.View() == EMPTY_QUEUE
    requires RoundTrips(store.format.codec) && forall p :: p in store.files ==> p.0 !in ids
    requires Distinct(ids) && (jobs > 0 ==> |ids| == jobs)
    modifies repository.db, queue, store
    ensures r.InvalidArguments? <==> jobs <= 0 || workers <= 0 || !(0.0 <= failureRate <= 1.0)
    ensures !r.MissingArtifact?
    ensures !r.InvalidArguments? ==>
              var k := (jobs as real * failureRate).Floor;
              && (r.Accepted? <==> EnoughFailures(k, failureRate, includeTimeouts, repeatSubmissions))
              && (r.Accepted? ==> k >= 0 && ExpectedNumbers(r.report, jobs, k, includeTimeouts, repeatSubmissions))
              && (r.Rejected? ==> r.errors == MissingEvidence(k, failureRate, includeTimeouts, repeatSubmissions))
    ensures OthersUntouched(old(repository.db.View()), repository.db.View(), set j | j in ids)
    ensures TablesInv(repository.db.View())
  {
    if jobs <= 0 || workers <= 0 || !(0.0 <= failureRate <= 1.0) {
      return InvalidArguments;
    }
    FailureCountFits(jobs, failureRate);
    var count := (jobs as real * failureRate).Floor;
    var failures;
    ghost var order;
    failures, order := FailureInjection.ReliabilityProof(random, count, includeTimeouts);
    var b := Batch(run, ids, failures, 0, hash);
    PlanIsBatch(b, order, includeTimeouts);
    var report;
    ghost var pp, acts, m, runner, cfg;
    report, pp, acts, m, runner, cfg :=
        RunAndReport(repository, queue, store, b, workers, now, repeatSubmissions, stamp);
    AlwaysFound(report, b, repeatSubmissions, workers, runner, cfg, store.format, pp, acts, m);
    if report.None? {
      return MissingArtifact;
    }
    ProofPassesIff(report.value, b, order, includeTimeouts, repeatSubmissions, failureRate, workers, runner, cfg, pp,
                   acts, m);
    var errors := ValidateReliabilityProof(report.value, jobs, failureRate, includeTimeouts, repeatSubmissions);
    return if errors == [] then Accepted(report.value) else Rejected(errors);
  }

  /** The report on the run's jobs, seen through these jobs alone. */
  ghost predicate ReportOnOwn(report: Option<ReliabilityReport>, b: Batch, repeatSubmissions: bool, workers: nat,
                              f: Format, s: State) {
    && (report.Some? <==> AllArtifactsOk(f.codec, s.files, RunEvents(s.db, s.db.events, b.run)))
    && (report.Some? ==>
          && Reflects(report.value, s.db, s.q, workers, b.run, b.ids)
          && report.value.replays == if repeatSubmissions then First(b, |b.ids|, DuplicateSubmission) else 0)
  }

  method RunAndReport(repository: JobRepository, queue: RedisStreamsQueue, store: ArtifactStore, b: Batch, workers: nat,
                      now: int, repeatSubmissions: bool, stamp: (JobId, nat) -> string)
    returns (report: Option<ReliabilityReport>, ghost pp: seq<State>, ghost acts: seq<Action>, ghost m: nat,
             ghost runner: Runner, ghost cfg: Config)
    requires workers > 0 && queue.View() == EMPTY_QUEUE && Vacant(Site(repository.db.View(), store.files, workers), b)
    requires RoundTrips(store.format.codec)
    modifies repository.db, queue, store
    ensures ReliabilityRun(b, runner, cfg, pp, acts, m) && StoredRun(cfg, store.format, pp, acts)
    ensures ReportOnOwn(report, b, repeatSubmissions, workers, store.format, pp[|acts|])
    ensures OthersUntouched(old(repository.db.View()), repository.db.View(), Own(b)) && TablesInv(repository.db.View())
  {
    ghost var base := repository.db.View();
    cfg := Config((i: ActorId) => POLICY, (i: ActorId) => true, Writer(store.format));
    runner := RowOutcome(BatchDb(base, b, |b.ids|).jobs);
    var replays;
    replays, pp, acts, m := SubmitAndDrain(repository, queue, store, b, workers, now, repeatSubmissions, stamp, cfg);
    RunnerRunIsSingleFlight(POLICY, runner, cfg, pp, acts);
    ghost var end := Snap(repository.db, queue, store, AllIdle(workers));
    RowsOfRun(base, b, runner, cfg, pp, acts, m, end);
    report := BuildReport(repository.db, queue, store, b.run, b.ids, workers, replays);
    OwnReport(report, b, repeatSubmissions, workers, runner, cfg, store.format, pp, acts, m, end);
  }

  /** The run's rows are the jobs of the batch, in the whole tables as in their part. */
  lemma RowsOfRun(base: Db, b: Batch, runner: Runner, cfg: Config, pp: seq<State>, acts: seq<Action>, m: nat,
                  end: State)
    requires ReliabilityRun(b, runner, cfg, pp, acts, m) && pp[|acts|] == PartOf(end, Own(b))
    requires OthersUntouched(base, end.db, Own(b)) && NewRun(base, b.run, b.ids)
    ensures Foreign(end.db, Own(b), b.run) && RunRows(end.db, b.run, b.ids)
  {
    forall i | 0 <= i < |b.ids|
      ensures JobDone(pp[|acts|], b, i)
    {
      JobIsDone(b, runner, cfg, pp, acts, m, i);
    }
    EndState(b, runner, cfg, pp, acts, m);
    BatchIsRun(pp[|acts|], b);
    OwnRows(end.db, Own(b), b.run, b.ids);
  }

  lemma OwnReport(report: Option<ReliabilityReport>, b: Batch, repeatSubmissions: bool, workers: nat, runner: Runner,
                  cfg: Config, f: Format, pp: seq<State>, acts: seq<Action>, m: nat, end: State)
    requires ReliabilityRun(b, runner, cfg, pp, acts, m) && StoredRun(cfg, f, pp, acts)
             && pp[|acts|] == PartOf(end, Own(b))
    requires Foreign(end.db, Own(b), b.run) && RunRows(end.db, b.run, b.ids)
             && ReportOnOwn(report, b, repeatSubmissions, workers, f, end)
    ensures ReportOnOwn(report, b, repeatSubmissions, workers, f, pp[|acts|])
  {
    var own, s := Own(b), pp[|acts|];
    OwnRunEvents(end.db, end.db.events, own, b.run);
    var events := RunEvents(s.db, s.db.events, b.run);
    RunEventsMembers(s.db, s.db.events, b.run);
    forall x | x in events && x.body.CompletedBody? && x.body.artifact.Some?
      ensures x.body.artifact.value.meta.path.0 in own
    {
      CompletedPath(cfg, f, pp, acts, |acts|, x);
    }
    OwnArtifacts(f.codec, end.files, own, events);
    if report.Some? {
      ReflectsPart(report.value, end.db, end.q, workers, b);
    }
  }

  lemma ReflectsPart(r: ReliabilityReport, db: Db, q: Queue, workers: nat, b: Batch)
    requires Foreign(db, Own(b), b.run) && Reflects(r, db, q, workers, b.run, b.ids)
    ensures Reflects(r, Part(db, Own(b)), q, workers, b.run, b.ids)
  {
    OwnStatus(db, Own(b), b.ids, |b.ids|, Running);
    OwnRunConflicts(db, db.conflicts, Own(b), b.run);
    OwnRows(db, Own(b), b.run, b.ids);
    OwnLifecycle(db, Own(b), b.ids, |b.ids|);
    OwnDuplicates(db, Own(b), b.run);
    OwnRunEvents(db, db.events, Own(b), b.run);
  }

  lemma FailureCountFits(jobs: int, failureRate: real)
    requires jobs > 0 && 0.0 <= failureRate <= 1.0
    ensures 0 <= (jobs as real * failureRate).Floor <= jobs
  {
    assert 0.0 <= jobs as real * failureRate <= jobs as real;
  }

  /** No artifact of the run is missing or invalid. */
  lemma AlwaysFound(report: Option<ReliabilityReport>, b: Batch, repeatSubmissions: bool, workers: nat, runner: Runner,
                    cfg: Config, f: Format, pp: seq<State>, acts: seq<Action>, m: nat)
    requires ReliabilityRun(b, runner, cfg, pp, acts, m) && StoredRun(cfg, f, pp, acts)
    requires ReportOnOwn(report, b, repeatSubmissions, workers, f, pp[|acts|])
    ensures report.Some?
  {
    ArtifactsValidate(b, runner, cfg, f, pp, acts, m);
  }

  // ----- the smoke command -----

  datatype SmokeError =
    | SmokeSubmitted | SmokeTerminal | SmokeCompleted | SmokeDuplicates
    | SmokeCompleteness | SmokeUnchecked | SmokeInvalid | SmokeCost

  /** The report violates the expectation that the error names. */
  ghost predicate SmokeViolated(r: ReliabilityReport, expectedJobs: nat, e: SmokeError) {
    match e
    case SmokeSubmitted => r.submitted != expectedJobs
    case SmokeTerminal =>
      r.lifecycle.completed + r.lifecycle.failed + r.lifecycle.timedOut + r.lifecycle.cancelled != expectedJobs
    case SmokeCompleted => r.lifecycle.completed != expectedJobs
    case SmokeDuplicates => r.duplicates > 0
    case SmokeCompleteness => r.valid < r.lifecycle.completed
    case SmokeUnchecked => r.checked != r.lifecycle.completed
    case SmokeInvalid => r.valid != r.checked
    case SmokeCost => r.costCents != 0
  }

  predicate AboutCounts(e: SmokeError) {
    e.SmokeSubmitted? || e.SmokeTerminal? || e.SmokeCompleted? || e.SmokeDuplicates?
  }

  method ValidateSmokeCounts(r: ReliabilityReport, expectedJobs: nat) returns (errors: seq<SmokeError>)
    ensures forall e :: e in errors <==> AboutCounts(e) && SmokeViolated(r, expectedJobs, e)
  {
    errors := [];
    if r.submitted != expectedJobs { errors := errors + [SmokeSubmitted]; }
    if r.Terminal() != expectedJobs { errors := errors + [SmokeTerminal]; }
    if r.lifecycle.completed != expectedJobs { errors := errors + [SmokeCompleted]; }
    if r.duplicates != 0 { errors := errors + [SmokeDuplicates]; }
  }

  method ValidateSmokeArtifacts(r: ReliabilityReport, expectedJobs: nat) returns (errors: seq<SmokeError>)
    ensures forall e :: e in errors <==> !AboutCounts(e) && SmokeViolated(r, expectedJobs, e)
  {
    errors := [];
    IncompleteIff(r);
    if r.Completeness() < 1.0 { errors := errors + [SmokeCompleteness]; }
    if r.checked != r.lifecycle.completed { errors := errors + [SmokeUnchecked]; }
    if r.valid != r.checked { errors := errors + [SmokeInvalid]; }
    if r.costCents != 0 { errors := errors + [SmokeCost]; }
  }

  /** validate_smoke_report: the violated expectations. */
  method ValidateSmokeReport(r: ReliabilityReport, expectedJobs: nat) returns (errors: seq<SmokeError>)
    ensures forall e :: e in errors <==> SmokeViolated(r, expectedJobs, e)
    ensures errors == [] <==> forall e :: !SmokeViolated(r, expectedJobs, e)
  {
    var counts := ValidateSmokeCounts(r, expectedJobs);
    var artifacts := ValidateSmokeArtifacts(r, expectedJobs);
    errors := counts + artifacts;
    assert errors != [] ==> errors[0] in errors;
  }

  datatype SmokeResult =
    | SmokeArguments | SmokeMissingArtifact
    | SmokeRejected(errors: seq<SmokeError>) | SmokeAccepted(report: ReliabilityReport)

  /** Nothing is left to do, nothing conflicted, nothing was retried. */
  ghost predicate Quiet(r: ReliabilityReport) {
    r.conflicts == 0 && r.pressure == Backpressure(0, 0, 0, 0, 0, 0.0, 0.0)
  }

  /** run_smoke on any tables that know nothing of this run: with valid arguments it always
      passes, and its report shows every job completed without a retry. */
  method RunSmoke(repository: JobRepository, queue: RedisStreamsQueue, store: ArtifactStore, run: RunId,
                  ids: seq<JobId>, hash: Payload -> Digest, stamp: (JobId, nat) -> string, now: int, jobs: int,
                  workers: int, failureRate: real, mode: string)
    returns (r: SmokeResult)
    requires TablesInv(repository.db.View()) && NewRun(repository.db.View(), run, ids) && queue.View() == EMPTY_QUEUE
    requires RoundTrips(store.format.codec) && forall p :: p in store.files ==> p.0 !in ids
    requires Distinct(ids) && (jobs > 0 ==> |ids| == jobs)
    modifies repository.db, queue, store
    ensures if jobs <= 0 || workers <= 0 || mode != "stub" || failureRate != 0.0 then r == SmokeArguments
            else
              && r.SmokeAccepted? && r.report.lifecycle == Lifecycle(0, 0, jobs, 0, 0, 0, 0) && r.report.retries == 0
              && Quiet(r.report)
    ensures OthersUntouched(old(repository.db.View()), repository.db.View(), set j | j in ids)
    ensures TablesInv(repository.db.View())
  {
    if jobs <= 0 || workers <= 0 || mode != "stub" || failureRate != 0.0 {
      return SmokeArguments;
    }
    var b := Batch(run, ids, [], 1, hash);
    assert PlannedBatch(b, [], false);
    var report;
    ghost var pp, acts, m, runner, cfg;
    report, pp, acts, m, runner, cfg := RunAndReport(repository, queue, store, b, workers, now, false, stamp);
    AlwaysFound(report, b, false, workers, runner, cfg, store.format, pp, acts, m);
    if report.None? {
      return SmokeMissingArtifact;
    }
    SmokeFound(report.value, b, [], workers, runner, cfg, pp, acts, m);
    var errors := ValidateSmokeReport(report.value, jobs);
    return if errors == [] then SmokeAccepted(report.value) else SmokeRejected(errors);
  }

  /** Without failures every job completes at its first attempt, and the report says so. */
  lemma SmokeFound(report: ReliabilityReport, b: Batch, order: seq<nat>, workers: nat, runner: Runner, cfg: Config,
                   pp: seq<State>, acts: seq<Action>, m: nat)
    requires order == [] && PlannedBatch(b, order, false) && ReliabilityRun(b, runner, cfg, pp, acts, m)
    requires Reflects(report, pp[|acts|].db, pp[|acts|].q, workers, b.run, b.ids) && report.replays == 0
    ensures report.lifecycle == Lifecycle(0, 0, |b.ids|, 0, 0, 0, 0) && report.retries == 0 && Quiet(report)
    ensures Passes(report, |b.ids|, 0.0, false, false)
  {
    ProofPassesIff(report, b, order, false, false, 0.0, workers, runner, cfg, pp, acts, m);
    AllCompleted(report, |b.ids|);
  }

  lemma AllCompleted(r: ReliabilityReport, n: nat)
    requires ExpectedNumbers(r, n, 0, false, false)
    ensures r.lifecycle == Lifecycle(0, 0, n, 0, 0, 0, 0) && r.retries == 0 && Quiet(r)
  {
    NoShare(3, 0);
    NoShare(3, 1);
  }
}
