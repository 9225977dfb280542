/** The delivery protocol as a transition system. Every committed transaction, publish,
    lease, acknowledgement, dead-letter add and artifact write is one step of one actor;
    actors interleave freely and can crash between any two steps. */
module Protocol {
  import opened Domain
  import opened Store
  import opened Streams

  /** Where an actor goes after acknowledging: a worker returns, a recovery pass
      continues with the leases it still has to handle. */
  datatype Cont = ToIdle | ToPass(rest: seq<EntryId>)

  datatype Pc =
    | Idle
    | Leased(e: EntryId)                              // process_one holds a message
    | Executing(e: EntryId, job: JobRecord)           // running committed, runner in flight
    | Wrote(e: EntryId, job: JobRecord, stored: Stored) // artifact file written, not yet committed
    | Recovering(todo: seq<EntryId>)                  // stale leases found, not yet handled
    | Publishing(e: EntryId, m: Message, cont: Cont)  // retry or requeue committed, not yet published
    | DeadLettering(e: EntryId, cont: Cont)           // failure committed, not yet in the dead-letter stream
    | Acking(e: EntryId, published: bool, cont: Cont) // nothing left but the acknowledgement

  datatype Outcome = Success | TransientError | PolicyError | RunTimedOut | RunCancelled

  datatype Action =
    | Submit(id: JobId, sub: Submission)
    | PublishInitial(job: JobId)
    | CancelQueued(job: JobId)
    | Renew(consumer: ActorId, entry: EntryId, now: int)
    | LeaseNext(i: ActorId, now: int)
    | Start(i: ActorId)
    | WriteArtifact(i: ActorId, result: RunnerResult, createdAt: string)
    | Finish(i: ActorId, outcome: Outcome)
    | Publish(i: ActorId)
    | Ack(i: ActorId)
    | FindStale(i: ActorId, now: int, staleAfter: int, count: nat)
    | Plan(i: ActorId)
    | MoveToDeadLetter(i: ActorId)
    | EndPass(i: ActorId)
    | Crash(i: ActorId)

  /** files holds the bytes of the artifact files. */
  datatype State = State(
    db: Db, q: Queue, files: map<Path, Bytes>, actors: seq<Pc>)

  /** Every worker has its own budget policy, and the artifact store or none; artifact is what
      the store makes of a request. */
  datatype Config = Config(
    policyOf: ActorId -> BudgetPolicy, hasStore: ActorId -> bool, artifact: WriteRequest -> Written)

  datatype Effect = Effect(tx: DbOp, op: QueueOp, pc: Pc)

  /** First transaction of _process_message. The dispatch budget block acknowledges before
      its transaction ends, so commit and acknowledgement are one step. */
  function StartEffect(cfg: Config, s: State, i: ActorId, e: EntryId): Effect
    requires e < |s.q.entries|
  {
    var m := s.q.entries[e];
    if m.job !in s.db.jobs || s.db.jobs[m.job].status.Terminal() then
      Effect(NoTx, NoOp, Acking(e, false, ToIdle))
    else
      var job := s.db.jobs[m.job];
      if cfg.policyOf(i).ValidateDispatch(job).Some? then
        Effect(FinalizeTx(m.job, Failed, BudgetBlockedBody(i, m.attempt)), AckOp(e), Idle)
      else
        Effect(RecordTx(m.job, Running, RunningBody(i, m.attempt)), NoOp, Executing(e, job))
  }

  /** The retry branch of _handle_transient_error. */
  predicate Retries(policy: BudgetPolicy, job: JobRecord, attempt: nat) {
    attempt <= job.maxRetries && policy.RetryAllowed(attempt + 1)
  }

  /** The transaction that ends an execution, by outcome. The retry branch writes the
      status without loading the row again. */
  function FinishEffect(cfg: Config, i: ActorId, m: Message, e: EntryId, job: JobRecord,
                        artifact: Option<Stored>, outcome: Outcome): Effect
  {
    var done := Acking(e, false, ToIdle);
    match outcome
    case Success => Effect(FinalizeTx(m.job, Completed, CompletedBody(i, m.attempt, artifact)), NoOp, done)
    case PolicyError => Effect(FinalizeTx(m.job, Failed, FailedBody(i, m.attempt, false)), NoOp, done)
    case RunTimedOut => Effect(FinalizeTx(m.job, TimedOut, TimedOutBody(i, m.attempt)), NoOp, done)
    case RunCancelled => Effect(FinalizeTx(m.job, Cancelled, CancelledBody(m.attempt, true)), NoOp, done)
    case TransientError =>
      if Retries(cfg.policyOf(i), job, m.attempt) then
        Effect(RecordTx(m.job, Queued, RetryScheduledBody(i, m.attempt, m.attempt + 1)), NoOp,
               Publishing(e, Message(m.job, m.attempt + 1, FromRetry(e)), ToIdle))
      else if m.attempt <= job.maxRetries then
        Effect(FinalizeTx(m.job, Failed, BudgetBlockedBody(i, m.attempt)), NoOp, done)
      else
        Effect(FinalizeTx(m.job, Failed, FailedBody(i, m.attempt, true)), NoOp, done)
  }

  /** _plan_recovery_action for one stale lease. It does not look at the retry budget. */
  function PlanEffect(s: State, i: ActorId, e: EntryId, rest: seq<EntryId>): Effect
    requires e < |s.q.entries|
  {
    var m := s.q.entries[e];
    if m.job !in s.db.jobs || s.db.jobs[m.job].status.Terminal() then
      Effect(NoTx, NoOp, Acking(e, false, ToPass(rest)))
    else if m.attempt <= s.db.jobs[m.job].maxRetries then
      Effect(RecordTx(m.job, Queued, StaleRecoveredBody(i, m.attempt, m.attempt + 1, e)), NoOp,
             Publishing(e, Message(m.job, m.attempt + 1, FromRecovery(e)), ToPass(rest)))
    else
      Effect(FinalizeTx(m.job, Failed, FailedBody(i, m.attempt, true)), NoOp, DeadLettering(e, ToPass(rest)))
  }

  function Resume(cont: Cont): Pc {
    match cont
    case ToIdle => Idle
    case ToPass(rest) => Recovering(rest)
  }

  /** The actor that takes the action is at the point where the action happens. */
  predicate Ready(s: State, a: Action) {
    match a
    case Submit(_, _) => true
    case PublishInitial(_) => true
    case CancelQueued(_) => true
    case Renew(_, _, _) => true
    case LeaseNext(i, _) => i < |s.actors| && s.actors[i].Idle? && s.q.cursor < |s.q.entries|
    case Start(i) => i < |s.actors| && s.actors[i].Leased? && s.actors[i].e < |s.q.entries|
    case WriteArtifact(i, _, _) => i < |s.actors| && s.actors[i].Executing? && s.actors[i].e < |s.q.entries|
    case Finish(i, o) =>
      && i < |s.actors| && (s.actors[i].Executing? || (s.actors[i].Wrote? && o.Success?))
      && s.actors[i].e < |s.q.entries|
    case Publish(i) => i < |s.actors| && s.actors[i].Publishing?
    case Ack(i) => i < |s.actors| && s.actors[i].Acking?
    case FindStale(i, _, _, _) => i < |s.actors| && s.actors[i].Idle?
    case Plan(i) =>
      && i < |s.actors| && s.actors[i].Recovering? && s.actors[i].todo != []
      && s.actors[i].todo[0] < |s.q.entries|
    case MoveToDeadLetter(i) => i < |s.actors| && s.actors[i].DeadLettering? && s.actors[i].e < |s.q.entries|
    case EndPass(i) => i < |s.actors| && s.actors[i] == Recovering([])
    case Crash(i) => i < |s.actors|
  }

  /** create_job inserts unless the key is taken; with a taken key it changes nothing. */
  ghost function SubmitTx(db: Db, id: JobId, sub: Submission): DbOp {
    if KeyTaken(db, sub.key) then NoTx else CreateTx(id, sub)
  }

  ghost function EffectOf(cfg: Config, s: State, a: Action): Effect
    requires Ready(s, a)
  {
    match a
    case Submit(id, sub) => Effect(SubmitTx(s.db, id, sub), NoOp, Idle)
    case PublishInitial(j) => Effect(NoTx, PublishOp(Message(j, 1, FromSubmitter)), Idle)
    case CancelQueued(j) => Effect(FinalizeTx(j, Cancelled, CancelledBody(0, false)), NoOp, Idle)
    case Renew(c, e, now) => Effect(NoTx, RenewOp(e, c, now), Idle)
    case LeaseNext(i, now) => Effect(NoTx, LeaseOp(i, now), Leased(s.q.cursor))
    case Start(i) => StartEffect(cfg, s, i, s.actors[i].e)
    case WriteArtifact(i, result, at) =>
      Effect(NoTx, NoOp, Wrote(s.actors[i].e, s.actors[i].job, Stored(result, at, cfg.artifact(RequestOf(s, a)).meta)))
    case Finish(i, o) =>
      var pc := s.actors[i];
      FinishEffect(cfg, i, s.q.entries[pc.e], pc.e, pc.job, if pc.Wrote? then Some(pc.stored) else None, o)
    case Publish(i) =>
      var pc := s.actors[i];
      Effect(NoTx, PublishOp(pc.m), Acking(pc.e, true, pc.cont))
    case Ack(i) => Effect(NoTx, AckOp(s.actors[i].e), Resume(s.actors[i].cont))
    case FindStale(i, now, after, count) => Effect(NoTx, NoOp, Recovering(StaleFrom(s.q, 0, now, after, count)))
    case Plan(i) => PlanEffect(s, i, s.actors[i].todo[0], s.actors[i].todo[1..])
    case MoveToDeadLetter(i) =>
      var pc := s.actors[i];
      var m := s.q.entries[pc.e];
      Effect(NoTx, DeadLetterOp(DeadLetter(m.job, m.attempt, m.attempt)), Acking(pc.e, false, pc.cont))
    case EndPass(i) => Effect(NoTx, NoOp, Idle)
    case Crash(i) => Effect(NoTx, NoOp, Idle)
  }

  /** What a worker that has finished executing asks the store to write. */
  function RequestOf(s: State, a: Action): WriteRequest
    requires a.WriteArtifact? && Ready(s, a)
  {
    var pc := s.actors[a.i];
    var m := s.q.entries[pc.e];
    WriteRequest(m.job, pc.job.runId, pc.job.payload, a.i, m.attempt, a.createdAt, a.result)
  }

  predicate External(a: Action) {
    a.Submit? || a.PublishInitial? || a.CancelQueued? || a.Renew?
  }

  /** A worker with a store writes the artifact before it records a success; one without
      never writes. A payload that is no dictionary raises in the store, which ends the worker
      without a write. */
  predicate StoreFirst(cfg: Config, s: State, a: Action)
    requires Ready(s, a)
  {
    && (a.WriteArtifact? ==> cfg.hasStore(a.i) && !a.result.artifactPayload.NotADict?)
    && (a.Finish? && a.outcome.Success? && s.actors[a.i].Executing? ==> !cfg.hasStore(a.i))
  }

  /** A step can happen when its actor is there and its transaction meets the schema.
      A new job id is a fresh UUID: no row and no stream entry has it. */
  ghost predicate Enabled(cfg: Config, s: State, a: Action) {
    && Ready(s, a)
    && Legal(s.db, EffectOf(cfg, s, a).tx)
    && StoreFirst(cfg, s, a)
    && (a.Submit? ==> forall e :: 0 <= e < |s.q.entries| ==> s.q.entries[e].job != a.id)
  }

  ghost function Next(cfg: Config, s: State, a: Action): State
    requires Enabled(cfg, s, a)
  {
    var eff := EffectOf(cfg, s, a);
    State(
      Apply(s.db, eff.tx),
      ApplyQ(s.q, eff.op),
      if a.WriteArtifact? then
        var r := RequestOf(s, a);
        s.files[(r.job, r.attempt) := cfg.artifact(r).bytes]
      else s.files,
      if External(a) then s.actors else s.actors[a.i := eff.pc])
  }

  ghost predicate Init(s: State) {
    && s.db == EMPTY_DB && s.q == EMPTY_QUEUE && s.files == map[]
    && forall i :: 0 <= i < |s.actors| ==> s.actors[i] == Idle
  }

  ghost predicate Step(cfg: Config, s: State, a: Action, s': State) {
    Enabled(cfg, s, a) && s' == Next(cfg, s, a)
  }

  /** A run: states and the actions between them, from an initial state on. */
  ghost predicate Steps(cfg: Config, ss: seq<State>, acts: seq<Action>) {
    && |ss| == |acts| + 1
    && forall k :: 0 <= k < |acts| ==> Step(cfg, ss[k], acts[k], ss[k + 1])
  }

  ghost predicate Run(cfg: Config, ss: seq<State>, acts: seq<Action>) {
    Steps(cfg, ss, acts) && Init(ss[0])
  }

  ghost predicate Stopped(s: State) {
    forall i :: 0 <= i < |s.actors| ==> s.actors[i] == Idle
  }

  lemma ExtendSteps(cfg: Config, ss: seq<State>, acts: seq<Action>, a: Action)
    returns (ss': seq<State>, acts': seq<Action>)
    requires Steps(cfg, ss, acts) && Enabled(cfg, ss[|acts|], a)
    ensures Steps(cfg, ss', acts') && acts' == acts + [a]
    ensures ss' == ss + [Next(cfg, ss[|acts|], a)]
  {
    acts' := acts + [a];
    ss' := ss + [Next(cfg, ss[|acts|], a)];
    assert Step(cfg, ss[|acts|], a, ss'[|acts| + 1]);
    forall k | 0 <= k < |acts'|
      ensures Step(cfg, ss'[k], acts'[k], ss'[k + 1])
    {
      assert k < |acts| ==> Step(cfg, ss[k], acts[k], ss[k + 1]);
    }
  }

  lemma ExtendRun(cfg: Config, ss: seq<State>, acts: seq<Action>, a: Action)
    returns (ss': seq<State>, acts': seq<Action>)
    requires Run(cfg, ss, acts) && Enabled(cfg, ss[|acts|], a)
    ensures Run(cfg, ss', acts') && acts' == acts + [a]
    ensures ss' == ss + [Next(cfg, ss[|acts|], a)]
  {
    ss', acts' := ExtendSteps(cfg, ss, acts, a);
  }

  lemma StepsCompose(cfg: Config, ss: seq<State>, acts: seq<Action>, tt: seq<State>, more: seq<Action>)
    returns (uu: seq<State>)
    requires Steps(cfg, ss, acts) && Steps(cfg, tt, more) && tt[0] == ss[|acts|]
    ensures Steps(cfg, uu, acts + more) && uu[0] == ss[0] && uu[|acts + more|] == tt[|more|]
  {
    uu := ss + tt[1..];
    forall k | 0 <= k < |acts + more|
      ensures Step(cfg, uu[k], (acts + more)[k], uu[k + 1])
    {
      if k < |acts| {
        assert Step(cfg, ss[k], acts[k], ss[k + 1]);
      } else {
        assert Step(cfg, tt[k - |acts|], more[k - |acts|], tt[k - |acts| + 1]);
      }
    }
  }

  /** The actions, taken one after the other from s, end in s'. */
  ghost predicate Leads(cfg: Config, s: State, acts: seq<Action>, s': State) {
    exists ss :: Steps(cfg, ss, acts) && ss[0] == s && ss[|acts|] == s'
  }

  lemma LeadsNowhere(cfg: Config, s: State)
    ensures Leads(cfg, s, [], s)
  {
    assert Steps(cfg, [s], []);
  }

  lemma LeadsSnoc(cfg: Config, s: State, acts: seq<Action>, mid: State, a: Action, s': State)
    requires Leads(cfg, s, acts, mid) && Step(cfg, mid, a, s')
    ensures Leads(cfg, s, acts + [a], s')
  {
    var ss :| Steps(cfg, ss, acts) && ss[0] == s && ss[|acts|] == mid;
    var ss', acts' := ss + [s'], acts + [a];
    forall k | 0 <= k < |acts'|
      ensures Step(cfg, ss'[k], acts'[k], ss'[k + 1])
    {
      assert k < |acts| ==> Step(cfg, ss[k], acts[k], ss[k + 1]);
    }
    assert Steps(cfg, ss', acts');
  }
}
