/** Idempotent finalization over whole runs, and when the status column can be trusted. */
module Guard {
  import opened Domain
  import opened Store
  import opened Streams
  import opened Protocol
  import opened Safety

  // ----- one finalization per job -----

  /** How many of the first n steps committed a finalize_job call. */
  ghost function FinalizeCalls(cfg: Config, ss: seq<State>, acts: seq<Action>, n: nat): nat
    requires Steps(cfg, ss, acts) && n <= |acts|
  {
    if n == 0 then 0
    else
      assert Step(cfg, ss[n - 1], acts[n - 1], ss[n]);
      FinalizeCalls(cfg, ss, acts, n - 1) + if EffectOf(cfg, ss[n - 1], acts[n - 1]).tx.FinalizeTx? then 1 else 0
  }

  lemma FinalizeAccounting(db: Db, tx: DbOp)
    requires Legal(db, tx)
    ensures |Apply(db, tx).finals| + |Apply(db, tx).conflicts|
         == |db.finals| + |db.conflicts| + if tx.FinalizeTx? then 1 else 0
  {
  }

  /** Every committed finalize call ends up either as the job's only guard row or as a
      conflict row. */
  lemma {:induction false} EveryFinalizeCallIsAccountedFor(cfg: Config, ss: seq<State>, acts: seq<Action>, n: nat)
    requires Run(cfg, ss, acts) && n <= |acts|
    ensures |ss[n].db.finals| + |ss[n].db.conflicts| == FinalizeCalls(cfg, ss, acts, n)
  {
    if n > 0 {
      EveryFinalizeCallIsAccountedFor(cfg, ss, acts, n - 1);
      assert Step(cfg, ss[n - 1], acts[n - 1], ss[n]);
      EffectSummary(cfg, ss[n - 1], acts[n - 1]);
      FinalizeAccounting(ss[n - 1].db, EffectOf(cfg, ss[n - 1], acts[n - 1]).tx);
    }
  }

  lemma GrowsTransitive(a: Db, b: Db, c: Db)
    requires Grows(a, b) && Grows(b, c)
    ensures Grows(a, c)
  {
  }

  lemma {:induction false} StepsGrow(cfg: Config, ss: seq<State>, acts: seq<Action>, m: nat, n: nat)
    requires Steps(cfg, ss, acts) && m <= n <= |acts| && QueueInv(ss[m].q)
    ensures Grows(ss[m].db, ss[n].db) && QueueInv(ss[n].q)
    decreases n
  {
    if m < n {
      StepsGrow(cfg, ss, acts, m, n - 1);
      NextExtends(cfg, ss[n - 1], acts[n - 1]);
      GrowsTransitive(ss[m].db, ss[n - 1].db, ss[n].db);
    }
  }

  /** In every run: a guard row is never changed or removed; a job has exactly one final
      event if it has a row and none if it has not, of the kind in the row; and the
      duplicate-terminal-event query is empty for every run filter. */
  lemma OneFinalizationPerJob(cfg: Config, ss: seq<State>, acts: seq<Action>, m: nat, n: nat, j: JobId)
    requires Run(cfg, ss, acts) && m <= n <= |acts|
    ensures j in ss[m].db.finals ==> j in ss[n].db.finals && ss[n].db.finals[j] == ss[m].db.finals[j]
    ensures j in ss[n].db.jobs ==> Count(ss[n].db.events, j, IS_FINAL) == if j in ss[n].db.finals then 1 else 0
    ensures forall k :: 0 <= k < |ss[n].db.events| && ss[n].db.events[k].body.Kind().Final() ==>
              var x := ss[n].db.events[k];
              x.job in ss[n].db.finals
                  && ss[n].db.finals[x.job] == Finalization(x.body.Kind().FinalStatus(), x.body.Kind())
    ensures forall run: Option<RunId> :: |DuplicateTerminalJobs(ss[n].db, run)| == 0
  {
    RunKeepsInv(cfg, ss, acts);
    assert Inv(ss[m]) && Inv(ss[n]);
    StepsGrow(cfg, ss, acts, m, n);
    forall run: Option<RunId>
      ensures DuplicateTerminalJobs(ss[n].db, run) == {}
    {
      NoDuplicateTerminalEvents(ss[n].db, run);
    }
  }

  // ----- the status column -----

  /** A job with a guard row shows the status of that row. */
  ghost predicate Agree(db: Db) {
    forall j :: j in db.finals && j in db.jobs ==> db.jobs[j].status == db.finals[j].status
  }

  /** Nothing is logged for a job after its final event. */
  ghost predicate FinalEventLast(db: Db) {
    forall x, y :: 0 <= x < y < |db.events| && db.events[x].job == db.events[y].job ==>
      !db.events[x].body.Kind().Final()
  }

  /** The worker i commits a retry for a job that already has a guard row: the one write
      that is made without looking at the row again. */
  ghost predicate LateRetry(cfg: Config, s: State, a: Action) {
    && Enabled(cfg, s, a)
    && a.Finish? && a.outcome.TransientError?
    && Retries(cfg.policyOf(a.i), s.actors[a.i].job, s.q.entries[s.actors[a.i].e].attempt)
    && s.q.entries[s.actors[a.i].e].job in s.db.finals
  }

  lemma OnlyRetryWritesBlindly(cfg: Config, s: State, a: Action, tx: DbOp)
    requires Enabled(cfg, s, a) && tx == EffectOf(cfg, s, a).tx
    ensures LateRetry(cfg, s, a) ==> tx.RecordTx? && tx.job in s.db.finals
    ensures tx.RecordTx? && !LateRetry(cfg, s, a) ==> tx.job !in s.db.finals || !s.db.jobs[tx.job].status.Terminal()
  {
  }

  lemma AgreeTx(db: Db, tx: DbOp)
    requires Legal(db, tx) && GuardInv(db) && Agree(db) && FinalEventLast(db)
    requires tx.RecordTx? ==> tx.job !in db.finals
    ensures Agree(Apply(db, tx)) && FinalEventLast(Apply(db, tx))
  {
  }

  lemma LateRetryTx(db: Db, tx: DbOp)
    requires Legal(db, tx) && GuardInv(db) && tx.RecordTx? && tx.job in db.finals
    ensures !Agree(Apply(db, tx)) && !FinalEventLast(Apply(db, tx))
  {
    var db' := Apply(db, tx);
    FinalEventExists(db.events, tx.job);
    var x :| 0 <= x < |db.events| && db.events[x].job == tx.job && db.events[x].body.Kind().Final();
    assert db'.events[x] == db.events[x] && db'.events[|db.events|].job == tx.job;
  }

  lemma {:induction false} FinalEventExists(events: seq<Event>, j: JobId)
    requires Count(events, j, IS_FINAL) > 0
    ensures exists x :: 0 <= x < |events| && events[x].job == j && events[x].body.Kind().Final()
  {
    var n := |events| - 1;
    if !(events[n].job == j && events[n].body.Kind().Final()) {
      FinalEventExists(events[..n], j);
      var x :| 0 <= x < n && events[..n][x].job == j && events[..n][x].body.Kind().Final();
      assert events[x].job == j;
    }
  }

  /** In an agreeing state a step keeps agreement and the final event last exactly when it
      is not a late retry. */
  lemma AgreeStep(cfg: Config, s: State, a: Action, s': State)
    requires GuardInv(s.db) && Enabled(cfg, s, a) && s' == Next(cfg, s, a) && Agree(s.db) && FinalEventLast(s.db)
    ensures LateRetry(cfg, s, a) ==> !Agree(s'.db) && !FinalEventLast(s'.db)
    ensures !LateRetry(cfg, s, a) ==> Agree(s'.db) && FinalEventLast(s'.db)
  {
    var tx := EffectOf(cfg, s, a).tx;
    EffectSummary(cfg, s, a);
    OnlyRetryWritesBlindly(cfg, s, a, tx);
    if LateRetry(cfg, s, a) {
      LateRetryTx(s.db, tx);
    } else {
      AgreeTx(s.db, tx);
    }
  }

  ghost predicate AgreesThroughout(ss: seq<State>) {
    forall k :: 0 <= k < |ss| ==> Agree(ss[k].db) && FinalEventLast(ss[k].db)
  }

  ghost predicate NoLateRetry(cfg: Config, ss: seq<State>, acts: seq<Action>) {
    forall k :: 0 <= k < |acts| && k < |ss| ==> !LateRetry(cfg, ss[k], acts[k])
  }

  lemma {:induction false} AgreeUntil(cfg: Config, ss: seq<State>, acts: seq<Action>, k: nat)
    requires Run(cfg, ss, acts) && k <= |acts| && NoLateRetry(cfg, ss, acts)
    ensures Agree(ss[k].db) && FinalEventLast(ss[k].db)
  {
    if k > 0 {
      AgreeUntil(cfg, ss, acts, k - 1);
      RunKeepsInv(cfg, ss, acts);
      AgreeStep(cfg, ss[k - 1], acts[k - 1], ss[k]);
    }
  }

  /** In every run a terminal status is backed by a guard row with that status. The
      converse, together with the final event being the last one of its job, holds
      throughout a run if and only if no step of the run is a late retry. */
  lemma StatusTrustedIffNoLateRetry(cfg: Config, ss: seq<State>, acts: seq<Action>)
    requires Run(cfg, ss, acts)
    ensures forall k :: 0 <= k < |ss| ==> StatusBacked(ss[k].db)
    ensures AgreesThroughout(ss) <==> NoLateRetry(cfg, ss, acts)
  {
    RunKeepsInv(cfg, ss, acts);
    if NoLateRetry(cfg, ss, acts) {
      forall k | 0 <= k < |ss|
        ensures Agree(ss[k].db) && FinalEventLast(ss[k].db)
      {
        AgreeUntil(cfg, ss, acts, k);
      }
    }
    if AgreesThroughout(ss) {
      forall k | 0 <= k < |acts|
        ensures !LateRetry(cfg, ss[k], acts[k])
      {
        AgreeStep(cfg, ss[k], acts[k], ss[k + 1]);
      }
    }
  }

  /** A freshly submitted job that worker 0 has just started. */
  ghost function Started(sub: Submission): State {
    State(
      Db(map[0 := FreshRecord(sub).(status := Running)],
         [Event(0, SubmittedBody), Event(0, RunningBody(0, 1))], map[], []),
      Queue([Message(0, 1, FromSubmitter)], 1, map[0 := Lease(0, 0)], []),
      map[], [Executing(0, FreshRecord(sub))])
  }

  /** A job that was just published, with the given idle actors. */
  lemma PublishedIsReachable(cfg: Config, sub: Submission, idle: seq<Pc>) returns (ss: seq<State>, acts: seq<Action>)
    requires forall i :: 0 <= i < |idle| ==> idle[i] == Idle
    ensures Run(cfg, ss, acts) && acts == [Submit(0, sub), PublishInitial(0)]
    ensures ss[|acts|] == State(
      Db(map[0 := FreshRecord(sub)], [Event(0, SubmittedBody)], map[], []),
      Queue([Message(0, 1, FromSubmitter)], 0, map[], []), map[], idle)
  {
    ss, acts := [State(EMPTY_DB, EMPTY_QUEUE, map[], idle)], [];
    ss, acts := ExtendRun(cfg, ss, acts, Submit(0, sub));
    ss, acts := ExtendRun(cfg, ss, acts, PublishInitial(0));
  }

  // ----- a late retry without any cancellation -----

  /** Worker 0 executes the job, and its lease looks stale to actor 1. */
  ghost function Slow(sub: Submission): State {
    Started(sub).(actors := [Executing(0, FreshRecord(sub)), Idle])
  }

  /** Actor 1 has requeued the job and is idle again; worker 0 still executes. */
  ghost function Overtaken(sub: Submission): State {
    State(
      Db(map[0 := FreshRecord(sub).(status := Queued)],
         [Event(0, SubmittedBody), Event(0, RunningBody(0, 1)), Event(0, StaleRecoveredBody(1, 1, 2, 0))], map[], []),
      Queue([Message(0, 1, FromSubmitter), Message(0, 2, FromRecovery(0))], 1, map[], []),
      map[], [Executing(0, FreshRecord(sub)), Idle])
  }

  /** Actor 1 has failed the requeued job for good. */
  ghost function FailedElsewhere(sub: Submission, now: int): State {
    State(
      Db(map[0 := FreshRecord(sub).(status := Failed)],
         Overtaken(sub).db.events + [Event(0, RunningBody(1, 2)), Event(0, FailedBody(1, 2, false))],
         map[0 := Finalization(Failed, KFailed)], []),
      Queue(Overtaken(sub).q.entries, 2, map[1 := Lease(1, now)], []),
      map[], [Executing(0, FreshRecord(sub)), Acking(1, false, ToIdle)])
  }

  /** What happens once the slow worker's lease is older than the threshold: actor 1 requeues
      the job, takes it, and fails it for good; then worker 0 reports a transient error. */
  function Overtaking(now: int, staleAfter: int): seq<Action> {
    [FindStale(1, now, staleAfter, 1), Plan(1), Publish(1), Ack(1), EndPass(1), LeaseNext(1, now), Start(1),
     Finish(1, PolicyError), Finish(0, TransientError)]
  }

  lemma SlowIsReachable(cfg: Config, sub: Submission) returns (ss: seq<State>, acts: seq<Action>)
    requires cfg.policyOf(0).ValidateDispatch(FreshRecord(sub)).None?
    ensures Run(cfg, ss, acts) && ss[|acts|] == Slow(sub)
    ensures acts == [Submit(0, sub), PublishInitial(0), LeaseNext(0, 0), Start(0)]
  {
    ss, acts := LeasedIsReachable(cfg, sub);
    ss, acts := ExtendRun(cfg, ss, acts, Start(0));
  }

  lemma LeasedIsReachable(cfg: Config, sub: Submission) returns (ss: seq<State>, acts: seq<Action>)
    ensures Run(cfg, ss, acts) && acts == [Submit(0, sub), PublishInitial(0), LeaseNext(0, 0)]
    ensures ss[|acts|] == State(
      Db(map[0 := FreshRecord(sub)], [Event(0, SubmittedBody)], map[], []), Slow(sub).q, map[], [Leased(0), Idle])
  {
    ss, acts := PublishedIsReachable(cfg, sub, [Idle, Idle]);
    ss, acts := ExtendRun(cfg, ss, acts, LeaseNext(0, 0));
  }

  lemma RequeuePlanned(cfg: Config, sub: Submission, now: int, staleAfter: int)
    returns (tt: seq<State>, more: seq<Action>)
    requires now >= staleAfter && sub.maxRetries >= 1
    ensures Steps(cfg, tt, more) && tt[0] == Slow(sub) && more == Overtaking(now, staleAfter)[..2]
    ensures tt[|more|] == State(
      Overtaken(sub).db, Slow(sub).q, map[],
      [Executing(0, FreshRecord(sub)), Publishing(0, Message(0, 2, FromRecovery(0)), ToPass([]))])
  {
    assert StaleFrom(Slow(sub).q, 0, now, staleAfter, 1) == [0];
    tt, more := ExtendSteps(cfg, [Slow(sub)], [], FindStale(1, now, staleAfter, 1));
    tt, more := ExtendSteps(cfg, tt, more, Plan(1));
  }

  lemma OvertakenFollows(cfg: Config, sub: Submission, now: int, staleAfter: int)
    returns (tt: seq<State>, more: seq<Action>)
    requires now >= staleAfter && sub.maxRetries >= 1
    ensures Steps(cfg, tt, more) && tt[0] == Slow(sub) && more == Overtaking(now, staleAfter)[..5]
    ensures tt[|more|] == Overtaken(sub)
  {
    tt, more := RequeuePlanned(cfg, sub, now, staleAfter);
    tt, more := ExtendSteps(cfg, tt, more, Publish(1));
    tt, more := ExtendSteps(cfg, tt, more, Ack(1));
    tt, more := ExtendSteps(cfg, tt, more, EndPass(1));
  }

  lemma RetakenFollows(cfg: Config, sub: Submission, now: int, staleAfter: int)
    returns (tt: seq<State>, more: seq<Action>)
    requires now >= staleAfter && sub.maxRetries >= 1
    ensures Steps(cfg, tt, more) && tt[0] == Slow(sub) && more == Overtaking(now, staleAfter)[..6]
    ensures tt[|more|] == State(
      Overtaken(sub).db, FailedElsewhere(sub, now).q, map[], [Executing(0, FreshRecord(sub)), Leased(1)])
  {
    tt, more := OvertakenFollows(cfg, sub, now, staleAfter);
    tt, more := ExtendSteps(cfg, tt, more, LeaseNext(1, now));
  }

  lemma RestartFollows(cfg: Config, sub: Submission, now: int, staleAfter: int)
    returns (tt: seq<State>, more: seq<Action>)
    requires now >= staleAfter && sub.maxRetries >= 1
    requires cfg.policyOf(1).ValidateDispatch(FreshRecord(sub)).None?
    ensures Steps(cfg, tt, more) && tt[0] == Slow(sub) && more == Overtaking(now, staleAfter)[..7]
    ensures tt[|more|] == State(
      Db(map[0 := FreshRecord(sub).(status := Running)],
         Overtaken(sub).db.events + [Event(0, RunningBody(1, 2))], map[], []),
      FailedElsewhere(sub, now).q, map[],
      [Executing(0, FreshRecord(sub)), Executing(1, FreshRecord(sub).(status := Queued))])
  {
    tt, more := RetakenFollows(cfg, sub, now, staleAfter);
    tt, more := ExtendSteps(cfg, tt, more, Start(1));
  }

  lemma FailedElsewhereFollows(cfg: Config, sub: Submission, now: int, staleAfter: int)
    returns (tt: seq<State>, more: seq<Action>)
    requires now >= staleAfter && sub.maxRetries >= 1
    requires cfg.policyOf(1).ValidateDispatch(FreshRecord(sub)).None?
    ensures Steps(cfg, tt, more) && tt[0] == Slow(sub) && more == Overtaking(now, staleAfter)[..8]
    ensures tt[|more|] == FailedElsewhere(sub, now)
  {
    tt, more := RestartFollows(cfg, sub, now, staleAfter);
    tt, more := ExtendSteps(cfg, tt, more, Finish(1, PolicyError));
    assert Overtaken(sub).db.events + [Event(0, RunningBody(1, 2))] + [Event(0, FailedBody(1, 2, false))]
        == FailedElsewhere(sub, now).db.events;
  }

  /** The job has failed for good and is queued again. */
  ghost predicate FailedButQueued(db: Db, j: JobId) {
    j in db.jobs && j in db.finals && db.finals[j].status == Failed && db.jobs[j].status == Queued
  }

  lemma LateRetryFollows(cfg: Config, sub: Submission, now: int, staleAfter: int)
    returns (tt: seq<State>, more: seq<Action>)
    requires now >= staleAfter && sub.maxRetries >= 1
    requires cfg.policyOf(1).ValidateDispatch(FreshRecord(sub)).None? && cfg.policyOf(0).RetryAllowed(2)
    ensures Steps(cfg, tt, more) && tt[0] == Slow(sub) && more == Overtaking(now, staleAfter)
    ensures FailedButQueued(tt[|more|].db, 0)
  {
    tt, more := FailedElsewhereFollows(cfg, sub, now, staleAfter);
    tt, more := ExtendSteps(cfg, tt, more, Finish(0, TransientError));
  }

  /** The hypothesis is needed, whatever the threshold: a pass takes a slow worker for a dead
      one, the requeued job fails for good on another worker, the slow one then reports a
      transient error, and the failed job is queued again. Nobody cancels anything. */
  lemma LateRetryHappens(cfg: Config, sub: Submission, staleAfter: int) returns (ss: seq<State>, acts: seq<Action>)
    requires sub.maxRetries >= 1 && cfg.policyOf(0).ValidateDispatch(FreshRecord(sub)).None?
    requires cfg.policyOf(1).ValidateDispatch(FreshRecord(sub)).None? && cfg.policyOf(0).RetryAllowed(2)
    ensures Run(cfg, ss, acts) && forall a :: a in acts ==> !a.CancelQueued?
    ensures FailedButQueued(ss[|acts|].db, 0) && !AgreesThroughout(ss)
  {
    ss, acts := SlowIsReachable(cfg, sub);
    var tt, more := LateRetryFollows(cfg, sub, staleAfter, staleAfter);
    ss := StepsCompose(cfg, ss, acts, tt, more);
    acts := acts + more;
    assert !Agree(ss[|acts|].db);
  }

  /** A disagreement lasts: a job whose status differs from its guard row shows a status that
      is not terminal, now and in every later state, whatever happens. */
  lemma {:induction false} DisagreementLasts(cfg: Config, ss: seq<State>, acts: seq<Action>, m: nat, n: nat, j: JobId)
    requires Run(cfg, ss, acts) && m <= n <= |acts|
    requires j in ss[m].db.finals && j in ss[m].db.jobs && ss[m].db.jobs[j].status != ss[m].db.finals[j].status
    ensures j in ss[n].db.finals && j in ss[n].db.jobs && !ss[n].db.jobs[j].status.Terminal()
    decreases n
  {
    if m == n {
      RunKeepsInv(cfg, ss, acts);
      assert Inv(ss[m]);
    } else {
      DisagreementLasts(cfg, ss, acts, m, n - 1, j);
      assert Step(cfg, ss[n - 1], acts[n - 1], ss[n]);
      EffectSummary(cfg, ss[n - 1], acts[n - 1]);
      OpenStatusStays(ss[n - 1].db, EffectOf(cfg, ss[n - 1], acts[n - 1]).tx, j);
    }
  }

  lemma OpenStatusStays(db: Db, tx: DbOp, j: JobId)
    requires Legal(db, tx) && j in db.finals && j in db.jobs && !db.jobs[j].status.Terminal()
    ensures var db' := Apply(db, tx); j in db'.finals && j in db'.jobs && !db'.jobs[j].status.Terminal()
  {
  }
}
