/** The reliability run: the batch that a failure plan leads to, what the stub runner does
    with it, and the exact outcome of every fault-free drain. */
module Reliability {
  import opened Domain
  import opened Store
  import opened Streams
  import opened Protocol
  import opened Safety
  import opened Determinism
  import opened Runtime
  import opened Repository
  import opened Reports
  import opened Rounds
  import opened FailureInjection

  // ----- the stub runner -----

  /** StubJobRunner.run under run_with_timeout, without a cancellation request. */
  function StubOutcome(payload: Payload, timeoutSeconds: nat): Outcome {
    if payload.mode == "transient_error" then TransientError
    else if payload.mode == "policy_error" || payload.mode == "permanent_error" then PolicyError
    else if payload.mode == "sleep" && payload.durationSeconds >= timeoutSeconds then RunTimedOut
    else Success
  }

  // ----- the batch -----

  /** The run id, the fresh job ids in order of use, the plan, max_retries of a job without a
      transient failure (0 in the reliability batch, 1 in the smoke batch), the payload hash. */
  datatype Batch = Batch(run: RunId, ids: seq<JobId>, failures: seq<InjectedFailure>, baseRetries: nat,
                         hash: Payload -> Digest)
  {
    function ModeAt(index: nat): Option<FailureMode> {
      if index < |failures| then Some(failures[index].mode) else None
    }

    function PayloadAt(index: nat): Payload {
      if ModeAt(index).Some? then PayloadFor(ModeAt(index).value, index) else Payload("success", 1, false, index)
    }

    function SubmissionAt(index: nat): Submission {
      Submission(
        run, "stub", PayloadAt(index), hash(PayloadAt(index)), Key(run, index),
        if ModeAt(index) == Some(Timeout) then 1 else 30,
        if ModeAt(index) == Some(Transient) then 1 else baseRetries,
        None)
    }
  }

  function Decimal(n: nat): string {
    if n < 10 then ["0123456789"[n]] else Decimal(n / 10) + ["0123456789"[n % 10]]
  }

  /** The idempotency key of a job of the batch. */
  function Key(run: RunId, index: nat): string {
    Decimal(run) + ":" + Decimal(index)
  }

  lemma {:induction false} DecimalIsInjective(m: nat, n: nat)
    requires Decimal(m) == Decimal(n)
    ensures m == n
  {
    DecimalLast(m);
    DecimalLast(n);
    if m >= 10 && n >= 10 {
      DecimalIsInjective(m / 10, n / 10);
    }
  }

  lemma {:induction false} DecimalLast(n: nat)
    ensures var d := Decimal(n);
            && |d| >= 1 && d[|d| - 1] == "0123456789"[n % 10]
            && (n >= 10 <==> |d| >= 2) && (n >= 10 ==> d[..|d| - 1] == Decimal(n / 10))
  {
    if n >= 10 {
      DecimalLast(n / 10);
    }
  }

  lemma KeysDiffer(run: RunId, i: nat, j: nat)
    requires i != j
    ensures Key(run, i) != Key(run, j)
  {
    if Decimal(i) == Decimal(j) {
      DecimalIsInjective(i, j);
    }
    var n := |Decimal(run) + ":"|;
    assert Key(run, i)[n..] == Decimal(i) && Key(run, j)[n..] == Decimal(j);
  }

  ghost predicate ValidBatch(b: Batch) {
    Distinct(b.ids) && |b.failures| <= |b.ids| && forall i :: 0 <= i < |b.failures| ==> b.failures[i].index == i
  }

  /** Tables that know nothing of the batch: no row has its run id, its job ids or its keys. */
  ghost predicate NewRun(db: Db, run: RunId, ids: seq<JobId>) {
    && (forall j :: j in db.jobs ==> j !in ids && db.jobs[j].runId != run)
    && (forall j, i: nat :: j in db.jobs ==> db.jobs[j].key != Key(run, i))
  }

  /** The batch can be submitted on the tables. */
  ghost predicate Ground(base: Db, b: Batch) {
    ValidBatch(b) && TablesInv(base) && NewRun(base, b.run, b.ids)
  }

  /** The tables after the first n jobs of the batch were submitted. */
  ghost function BatchDb(base: Db, b: Batch, n: nat): Db
    requires n <= |b.ids|
  {
    if n == 0 then base else InsertJob(BatchDb(base, b, n - 1), b.ids[n - 1], b.SubmissionAt(n - 1))
  }

  ghost function BatchQueue(b: Batch, n: nat): Queue
    requires n <= |b.ids|
  {
    EMPTY_QUEUE.(entries := seq(n, k requires 0 <= k < n => Message(b.ids[k], 1, FromSubmitter)))
  }

  lemma {:induction false} RowAt(base: Db, b: Batch, n: nat, k: nat)
    requires ValidBatch(b) && k < n <= |b.ids|
    ensures b.ids[k] in BatchDb(base, b, n).jobs && BatchDb(base, b, n).jobs[b.ids[k]] == FreshRecord(b.SubmissionAt(k))
  {
    if k < n - 1 {
      RowAt(base, b, n - 1, k);
    }
  }

  /** A row is one of the batch or was there before. */
  lemma {:induction false} RowIndex(base: Db, b: Batch, n: nat, j: JobId) returns (k: nat)
    requires Ground(base, b) && n <= |b.ids| && j in BatchDb(base, b, n).jobs
    ensures k <= n && if k < n then b.ids[k] == j else j in base.jobs && BatchDb(base, b, n).jobs[j] == base.jobs[j]
  {
    if n == 0 {
      k := 0;
    } else if j == b.ids[n - 1] {
      k := n - 1;
    } else {
      k := RowIndex(base, b, n - 1, j);
      k := if k == n - 1 then n else k;
    }
  }

  /** The next job of the batch is new, and so is its key. */
  lemma NextIsFresh(base: Db, b: Batch, n: nat)
    requires Ground(base, b) && n < |b.ids|
    ensures b.ids[n] !in BatchDb(base, b, n).jobs && !KeyTaken(BatchDb(base, b, n), b.SubmissionAt(n).key)
    ensures Legal(BatchDb(base, b, n), SubmitTx(BatchDb(base, b, n), b.ids[n], b.SubmissionAt(n)))
  {
    if b.ids[n] in BatchDb(base, b, n).jobs {
      var k := RowIndex(base, b, n, b.ids[n]);
    }
    forall j | j in BatchDb(base, b, n).jobs
      ensures BatchDb(base, b, n).jobs[j].key != b.SubmissionAt(n).key
    {
      var k := RowIndex(base, b, n, j);
      if k < n {
        RowAt(base, b, n, k);
        KeysDiffer(b.run, k, n);
      }
    }
  }

  lemma {:induction false} BatchSound(base: Db, b: Batch, n: nat)
    requires Ground(base, b) && n <= |b.ids|
    ensures SubmitInv(BatchDb(base, b, n)) && RowsInv(BatchDb(base, b, n))
  {
    if n > 0 {
      BatchSound(base, b, n - 1);
      BatchStep(base, b, n - 1);
      SubmitKeeps(BatchDb(base, b, n - 1), CreateTx(b.ids[n - 1], b.SubmissionAt(n - 1)));
    }
  }

  lemma BatchStep(base: Db, b: Batch, n: nat)
    requires Ground(base, b) && n < |b.ids|
    ensures var tx := CreateTx(b.ids[n], b.SubmissionAt(n));
            Legal(BatchDb(base, b, n), tx) && BatchDb(base, b, n + 1) == Apply(BatchDb(base, b, n), tx)
  {
    NextIsFresh(base, b, n);
  }

  /** A second submission of the job just inserted finds its own row. */
  lemma ReplayFindsRow(base: Db, b: Batch, n: nat)
    requires Ground(base, b) && n < |b.ids|
    ensures KeyTaken(BatchDb(base, b, n + 1), b.SubmissionAt(n).key)
    ensures Answer(BatchDb(base, b, n + 1), b.ids[n], b.SubmissionAt(n)) == Job(b.ids[n])
  {
    BatchSound(base, b, n + 1);
    RowAt(base, b, n + 1, n);
    OwnerAnswers(BatchDb(base, b, n + 1), b.ids[n], b.ids[n], b.SubmissionAt(n));
  }

  // ----- the batch as a path of protocol steps -----

  /** Where the batch starts: the tables, the artifact files, a fresh stream, idle workers. */
  datatype Site = Site(base: Db, files: map<Path, Bytes>, workers: nat)

  ghost function BatchState(at: Site, b: Batch, n: nat, published: nat): State
    requires n <= |b.ids| && published <= |b.ids|
  {
    State(BatchDb(at.base, b, n), BatchQueue(b, published), at.files, AllIdle(at.workers))
  }

  lemma SubmitsNext(policy: BudgetPolicy, run: Runner, cfg: Config, at: Site, b: Batch, n: nat)
    requires Ground(at.base, b) && n < |b.ids|
    ensures var s, s', a := BatchState(at, b, n, n), BatchState(at, b, n + 1, n), Submit(b.ids[n], b.SubmissionAt(n));
            Step(cfg, s, a, s') && RunnerStep(policy, run, cfg, s, a)
  {
    NextIsFresh(at.base, b, n);
    NotPublishedYet(at, b, n, n);
  }

  lemma NotPublishedYet(at: Site, b: Batch, m: nat, n: nat)
    requires ValidBatch(b) && m <= |b.ids| && n < |b.ids|
    ensures forall e :: 0 <= e < |BatchState(at, b, m, n).q.entries| ==>
            BatchState(at, b, m, n).q.entries[e].job != b.ids[n]
  {
    var s := BatchState(at, b, m, n);
    forall e | 0 <= e < |s.q.entries|
      ensures s.q.entries[e].job != b.ids[n]
    {
      assert s.q.entries[e].job == b.ids[e];
    }
  }

  lemma ReplayChangesNothing(policy: BudgetPolicy, run: Runner, cfg: Config, at: Site, b: Batch, n: nat)
    requires Ground(at.base, b) && n < |b.ids|
    ensures var s, a := BatchState(at, b, n + 1, n), Submit(b.ids[n], b.SubmissionAt(n));
            Step(cfg, s, a, s) && RunnerStep(policy, run, cfg, s, a)
  {
    ReplayFindsRow(at.base, b, n);
    NotPublishedYet(at, b, n + 1, n);
  }

  lemma PublishesNext(policy: BudgetPolicy, run: Runner, cfg: Config, at: Site, b: Batch, n: nat)
    requires ValidBatch(b) && n < |b.ids|
    ensures var s, s', a := BatchState(at, b, n + 1, n), BatchState(at, b, n + 1, n + 1), PublishInitial(b.ids[n]);
            Step(cfg, s, a, s') && RunnerStep(policy, run, cfg, s, a)
  {
    NotPublishedYet(at, b, n + 1, n);
    assert BatchQueue(b, n + 1).entries == BatchQueue(b, n).entries + [Message(b.ids[n], 1, FromSubmitter)];
  }

  /** The submitter's action on a job of the batch. */
  ghost predicate BatchAction(a: Action, b: Batch) {
    match a
    case Submit(id, sub) => exists i: nat :: i < |b.ids| && id == b.ids[i] && sub == b.SubmissionAt(i)
    case PublishInitial(j) => j in b.ids
    case _ => false
  }

  ghost predicate BatchActions(acts: seq<Action>, b: Batch) {
    forall a :: a in acts ==> BatchAction(a, b)
  }

  /** A path of batch actions from the start to a state. */
  ghost predicate BatchPath(policy: BudgetPolicy, run: Runner, cfg: Config, start: State, acts: seq<Action>, s: State,
                            b: Batch) {
    RunnerPath(policy, run, cfg, start, acts, s) && BatchActions(acts, b)
  }

  lemma BatchPathSnoc(policy: BudgetPolicy, run: Runner, cfg: Config, start: State, acts: seq<Action>, s: State,
                      b: Batch, a: Action, s': State)
    requires BatchPath(policy, run, cfg, start, acts, s, b)
    requires Step(cfg, s, a, s') && RunnerStep(policy, run, cfg, s, a) && BatchAction(a, b)
    ensures BatchPath(policy, run, cfg, start, acts + [a], s', b)
  {
    RunnerPathSnoc(policy, run, cfg, start, acts, s, a, s');
  }

  lemma NextJobPath(policy: BudgetPolicy, run: Runner, cfg: Config, at: Site, b: Batch, n: nat, replay: bool,
                    start: State, before: seq<Action>) returns (acts: seq<Action>)
    requires Ground(at.base, b) && n < |b.ids|
    requires BatchPath(policy, run, cfg, start, before, BatchState(at, b, n, n), b)
    ensures BatchPath(policy, run, cfg, start, acts, BatchState(at, b, n + 1, n + 1), b)
  {
    var s0, s1, s2 := BatchState(at, b, n, n), BatchState(at, b, n + 1, n), BatchState(at, b, n + 1, n + 1);
    var submit, publish := Submit(b.ids[n], b.SubmissionAt(n)), PublishInitial(b.ids[n]);
    assert BatchAction(submit, b) && BatchAction(publish, b);
    SubmitsNext(policy, run, cfg, at, b, n);
    BatchPathSnoc(policy, run, cfg, start, before, s0, b, submit, s1);
    acts := before + [submit];
    if replay {
      ReplayChangesNothing(policy, run, cfg, at, b, n);
      BatchPathSnoc(policy, run, cfg, start, acts, s1, b, submit, s1);
      acts := acts + [submit];
    }
    PublishesNext(policy, run, cfg, at, b, n);
    BatchPathSnoc(policy, run, cfg, start, acts, s1, b, publish, s2);
    acts := acts + [publish];
  }

  /** failures_by_index */
  method FailuresByIndex(failures: seq<InjectedFailure>) returns (modes: map<nat, FailureMode>)
    requires forall i :: 0 <= i < |failures| ==> failures[i].index == i
    ensures forall i: nat :: i in modes <==> i < |failures|
    ensures forall i :: 0 <= i < |failures| ==> modes[i] == failures[i].mode
  {
    modes := map[];
    var k := 0;
    while k < |failures|
      invariant k <= |failures|
      invariant forall i: nat :: i in modes <==> i < k
      invariant forall i :: 0 <= i < k ==> modes[i] == failures[i].mode
    {
      modes := modes[failures[k].index := failures[k].mode];
      k := k + 1;
    }
  }

  /** How many of the first n jobs have the failure mode. */
  ghost function First(b: Batch, n: nat, mode: FailureMode): nat {
    if n == 0 then 0 else First(b, n - 1, mode) + if b.ModeAt(n - 1) == Some(mode) then 1 else 0
  }

  /** _submit_reliability_batch (or, without failures, _submit_smoke_batch) on any tables that
      know nothing of the run, and a fresh stream. A replayed submission is answered with the
      job's own id, so the consistency check in the loop never fails. */
  method SubmitReliabilityBatch(repository: JobRepository, queue: RedisStreamsQueue, b: Batch, repeatSubmissions: bool,
                                ghost policy: BudgetPolicy, ghost run: Runner, ghost cfg: Config, ghost at: Site)
    returns (replays: nat, ghost acts: seq<Action>)
    requires Ground(at.base, b)
    requires repository.db.View() == at.base && queue.View() == EMPTY_QUEUE
    modifies repository.db, queue
    ensures repository.db.View() == BatchDb(at.base, b, |b.ids|) && queue.View() == BatchQueue(b, |b.ids|)
    ensures replays == if repeatSubmissions then First(b, |b.ids|, DuplicateSubmission) else 0
    ensures BatchPath(policy, run, cfg, BatchState(at, b, 0, 0), acts, BatchState(at, b, |b.ids|, |b.ids|), b)
  {
    var modes := FailuresByIndex(b.failures);
    replays, acts := 0, [];
    ghost var start := BatchState(at, b, 0, 0);
    RunnerPathStart(policy, run, cfg, start);
    var index := 0;
    while index < |b.ids|
      invariant index <= |b.ids|
      invariant repository.db.View() == BatchDb(at.base, b, index) && queue.View() == BatchQueue(b, index)
      invariant replays == if repeatSubmissions then First(b, index, DuplicateSubmission) else 0
      invariant BatchPath(policy, run, cfg, start, acts, BatchState(at, b, index, index), b)
    {
      var mode := if index in modes then Some(modes[index]) else None;
      assert mode == b.ModeAt(index);
      var again := repeatSubmissions && mode == Some(DuplicateSubmission);
      SubmitJob(repository, queue, at.base, b, index, again);
      if again {
        replays := replays + 1;
      }
      acts := NextJobPath(policy, run, cfg, at, b, index, again, start, acts);
      index := index + 1;
    }
  }

  /** The body of the loop: create, replay if asked to, publish. */
  method SubmitJob(repository: JobRepository, queue: RedisStreamsQueue, ghost base: Db, b: Batch, index: nat,
                   again: bool)
    requires Ground(base, b) && index < |b.ids|
    requires repository.db.View() == BatchDb(base, b, index) && queue.View() == BatchQueue(b, index)
    modifies repository.db, queue
    ensures repository.db.View() == BatchDb(base, b, index + 1) && queue.View() == BatchQueue(b, index + 1)
  {
    var job := CreateNext(repository, base, b, index);
    if again {
      var replayed := ReplayNext(repository, base, b, index);
      assert replayed == job;
    }
    var _ := queue.PublishJob(Message(b.ids[index], 1, FromSubmitter));
    assert BatchQueue(b, index + 1).entries == BatchQueue(b, index).entries + [Message(b.ids[index], 1, FromSubmitter)];
  }

  method CreateNext(repository: JobRepository, ghost base: Db, b: Batch, index: nat) returns (job: Created)
    requires Ground(base, b) && index < |b.ids| && repository.db.View() == BatchDb(base, b, index)
    modifies repository.db
    ensures repository.db.View() == BatchDb(base, b, index + 1) && job == Job(b.ids[index])
  {
    NextIsFresh(base, b, index);
    BatchSound(base, b, index);
    job := repository.CreateJob(b.ids[index], b.SubmissionAt(index));
  }

  /** The second submission gives the same job back and changes nothing. */
  method ReplayNext(repository: JobRepository, ghost base: Db, b: Batch, index: nat) returns (job: Created)
    requires Ground(base, b) && index < |b.ids| && repository.db.View() == BatchDb(base, b, index + 1)
    modifies repository.db
    ensures job == Job(b.ids[index])
    ensures repository.db.View() == old(repository.db.View())
  {
    ReplayFindsRow(base, b, index);
    BatchSound(base, b, index + 1);
    job := repository.CreateJob(b.ids[index], b.SubmissionAt(index));
  }
}
