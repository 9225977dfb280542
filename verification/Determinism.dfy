/** Fault-free runs with a runner whose outcome depends only on the job and the attempt,
    and one budget policy for all workers: the trail of a finished job is then a function
    of the job, whatever the interleaving. */
module Determinism {
  import opened Domain
  import opened Store
  import opened Streams
  import opened Protocol
  import opened Safety
  import opened SingleFlight
  import opened FaultFree

  type Runner = (JobId, nat) -> Outcome

  /** The part of a job row that never changes. */
  function Blueprint(job: JobRecord): JobRecord {
    job.(status := Submitted)
  }

  function FinalKind(o: Outcome): Kind {
    match o
    case Success => KCompleted
    case RunTimedOut => KTimedOut
    case RunCancelled => KCancelled
    case _ => KFailed
  }

  /** The trail that job j ends with when its attempt a is about to be delivered. */
  ghost function FinalTrail(policy: BudgetPolicy, run: Runner, j: JobId, job: JobRecord, a: nat): seq<Mark>
    requires a >= 1
    decreases job.maxRetries + 1 - a
  {
    if policy.ValidateDispatch(job).Some? then Cycles(a - 1) + [Mark(KBudgetBlocked, a, false)]
    else if run(j, a).TransientError? && Retries(policy, job, a) then FinalTrail(policy, run, j, job, a + 1)
    else if run(j, a).TransientError? && a <= job.maxRetries then
      Cycles(a - 1) + [Mark(KRunning, a, false), Mark(KBudgetBlocked, a, false)]
    else Cycles(a - 1) + [Mark(KRunning, a, false), Mark(FinalKind(run(j, a)), a, run(j, a).TransientError?)]
  }

  ghost predicate RunnerStep(policy: BudgetPolicy, run: Runner, cfg: Config, s: State, a: Action) {
    && FaultFreeStep(s, a)
    && (!External(a) ==> cfg.policyOf(a.i) == policy)
    && (a.Finish? && a.i < |s.actors| && Busy(s.actors[a.i]) && s.actors[a.i].e < |s.q.entries| ==>
          a.outcome == run(s.q.entries[s.actors[a.i].e].job, s.q.entries[s.actors[a.i].e].attempt))
  }

  ghost predicate RunnerRun(policy: BudgetPolicy, run: Runner, cfg: Config, ss: seq<State>, acts: seq<Action>) {
    Run(cfg, ss, acts) && forall k :: 0 <= k < |acts| ==> RunnerStep(policy, run, cfg, ss[k], acts[k])
  }

  /** Attempt a of job j still leads to the final trail that attempt 1 leads to. */
  ghost predicate OnTrack(policy: BudgetPolicy, run: Runner, db: Db, j: JobId, a: nat) {
    j in db.jobs && a >= 1 ==>
      FinalTrail(policy, run, j, Blueprint(db.jobs[j]), a) == FinalTrail(policy, run, j, Blueprint(db.jobs[j]), 1)
  }

  ghost predicate EntriesOnTrack(policy: BudgetPolicy, run: Runner, s: State) {
    forall e :: 0 <= e < |s.q.entries| ==> OnTrack(policy, run, s.db, s.q.entries[e].job, s.q.entries[e].attempt)
  }

  ghost predicate PublishersOnTrack(policy: BudgetPolicy, run: Runner, s: State) {
    forall i :: 0 <= i < |s.actors| && s.actors[i].Publishing? ==>
      OnTrack(policy, run, s.db, s.actors[i].m.job, s.actors[i].m.attempt)
  }

  ghost predicate FinalsOnTrack(policy: BudgetPolicy, run: Runner, db: Db) {
    forall j :: j in db.finals && j in db.jobs ==>
      Trail(db.events, j) == FinalTrail(policy, run, j, Blueprint(db.jobs[j]), 1)
  }

  ghost predicate TrackInv(policy: BudgetPolicy, run: Runner, s: State) {
    EntriesOnTrack(policy, run, s) && PublishersOnTrack(policy, run, s) && FinalsOnTrack(policy, run, s.db)
  }

  lemma OnTrackStays(policy: BudgetPolicy, run: Runner, s: State, s': State, j: JobId, a: nat)
    requires OnTrack(policy, run, s.db, j, a) && Grows(s.db, s'.db) && (j in s'.db.jobs ==> j in s.db.jobs)
    ensures OnTrack(policy, run, s'.db, j, a)
  {
  }

  /** Where a busy worker goes next keeps its job on track. */
  lemma FinishOnTrack(policy: BudgetPolicy, run: Runner, cfg: Config, s: State, i: ActorId, pc: Pc,
                      artifact: Option<Stored>, s': State, eff: Effect)
    requires QueueInv(s.q) && Busy(pc) && PcShape(s, pc) && PcTrail(s, pc) && s.q.entries[pc.e].attempt >= 1
    requires var m := s.q.entries[pc.e];
             && cfg.policyOf(i) == policy
                && eff == FinishEffect(cfg, i, m, pc.e, pc.job, artifact, run(m.job, m.attempt))
             && policy.ValidateDispatch(Blueprint(s.db.jobs[m.job])).None?
    requires Legal(s.db, eff.tx) && s'.db == Apply(s.db, eff.tx)
    ensures eff.tx.RecordTx? || eff.tx.FinalizeTx?
    ensures eff.tx.job == s.q.entries[pc.e].job && (eff.tx.RecordTx? ==> eff.tx.job !in s'.db.finals)
    ensures eff.pc.Publishing? ==>
            eff.tx.RecordTx? && eff.pc.m.job == eff.tx.job && eff.pc.m.attempt == s.q.entries[pc.e].attempt + 1
    ensures var m := s.q.entries[pc.e];
            var goal := FinalTrail(policy, run, m.job, Blueprint(s.db.jobs[m.job]), m.attempt);
            if eff.tx.FinalizeTx? then Trail(s'.db.events, m.job) == goal
            else
              && eff.pc.Publishing?
              && goal == FinalTrail(policy, run, m.job, Blueprint(s.db.jobs[m.job]), m.attempt + 1)
  {
    ExecutingTrail(s, pc, eff.tx, s');
    var m := s.q.entries[pc.e];
    assert Blueprint(pc.job) == Blueprint(s.db.jobs[m.job]);
    assert Cycles(m.attempt - 1) + [Mark(KRunning, m.attempt, false), MarkOf(eff.tx.body)]
        == Cycles(m.attempt - 1) + ([Mark(KRunning, m.attempt, false)] + [MarkOf(eff.tx.body)]);
  }

  lemma StartOnTrack(policy: BudgetPolicy, run: Runner, cfg: Config, s: State, i: ActorId, e: EntryId, s': State,
                     eff: Effect)
    requires e < |s.q.entries| && PcTrail(s, Leased(e)) && s.q.entries[e].attempt >= 1
    requires cfg.policyOf(i) == policy && eff == StartEffect(cfg, s, i, e) && eff.tx.FinalizeTx?
    requires Legal(s.db, eff.tx) && s'.db == Apply(s.db, eff.tx)
    ensures var m := s.q.entries[e];
            Trail(s'.db.events, m.job) == FinalTrail(policy, run, m.job, Blueprint(s.db.jobs[m.job]), m.attempt)
  {
    OwnTrail(s.db, eff.tx, s'.db);
  }

  /** Only jobs that passed the dispatch check execute. */
  ghost predicate BusyDispatched(policy: BudgetPolicy, s: State) {
    forall i :: 0 <= i < |s.actors| && Busy(s.actors[i]) ==> policy.ValidateDispatch(s.actors[i].job).None?
  }

  lemma BusyDispatchedStep(policy: BudgetPolicy, run: Runner, cfg: Config, s: State, a: Action, s': State)
    requires BusyDispatched(policy, s) && Enabled(cfg, s, a) && RunnerStep(policy, run, cfg, s, a)
             && s' == Next(cfg, s, a)
    ensures BusyDispatched(policy, s')
  {
  }

  lemma EntriesTrackStep(policy: BudgetPolicy, run: Runner, s: State, s': State, m: Option<Message>)
    requires EntriesOnTrack(policy, run, s) && Extends(s, s')
    requires s'.q.entries == s.q.entries + (if m.Some? then [m.value] else [])
    requires m.Some? ==> OnTrack(policy, run, s'.db, m.value.job, m.value.attempt)
    ensures EntriesOnTrack(policy, run, s')
  {
    forall e | 0 <= e < |s'.q.entries|
      ensures OnTrack(policy, run, s'.db, s'.q.entries[e].job, s'.q.entries[e].attempt)
    {
      if e < |s.q.entries| {
        OnTrackStays(policy, run, s, s', s.q.entries[e].job, s.q.entries[e].attempt);
      }
    }
  }

  /** What a publish adds is on track. */
  lemma PublishedOnTrack(policy: BudgetPolicy, run: Runner, cfg: Config, s: State, a: Action, s': State)
    returns (m: Option<Message>)
    requires PublishersOnTrack(policy, run, s) && Enabled(cfg, s, a) && s' == Next(cfg, s, a)
    ensures s'.q.entries == s.q.entries + (if m.Some? then [m.value] else [])
    ensures m.Some? ==> OnTrack(policy, run, s'.db, m.value.job, m.value.attempt)
  {
    m := match a
      case Publish(i) => Some(s.actors[i].m)
      case PublishInitial(j) => Some(Message(j, 1, FromSubmitter))
      case _ => None;
  }

  /** Finals and publishers after a worker's transaction on its job. */
  lemma OwnTrackStep(policy: BudgetPolicy, run: Runner, s: State, i: ActorId, tx: DbOp, pc: Pc, s': State, e: EntryId)
    requires FinalsOnTrack(policy, run, s.db) && PublishersOnTrack(policy, run, s) && Extends(s, s')
    requires i < |s.actors| && e < |s.q.entries| && (tx.RecordTx? || tx.FinalizeTx?) && tx.job == s.q.entries[e].job
    requires tx.job in s.db.jobs && OnTrack(policy, run, s.db, tx.job, s.q.entries[e].attempt)
             && s.q.entries[e].attempt >= 1
    requires forall k :: 0 <= k < |s.actors| && s.actors[k].Publishing? ==> s.actors[k].m.job in s.db.jobs
    requires Legal(s.db, tx) && s'.db == Apply(s.db, tx) && s'.actors == s.actors[i := pc]
    requires var goal := FinalTrail(policy, run, tx.job, Blueprint(s.db.jobs[tx.job]), s.q.entries[e].attempt);
             && (tx.job in s'.db.finals ==> Trail(s'.db.events, tx.job) == goal)
             && (pc.Publishing? ==>
                   && pc.m.job == tx.job && pc.m.attempt == s.q.entries[e].attempt + 1
                   && goal == FinalTrail(policy, run, tx.job, Blueprint(s.db.jobs[tx.job]), pc.m.attempt))
    ensures FinalsOnTrack(policy, run, s'.db) && PublishersOnTrack(policy, run, s')
  {
    OtherTrails(s.db, tx, s'.db);
    forall j | j in s'.db.finals && j in s'.db.jobs
      ensures Trail(s'.db.events, j) == FinalTrail(policy, run, j, Blueprint(s'.db.jobs[j]), 1)
    {
      if j != tx.job {
        assert SameFor(s.db, s'.db, j);
      }
    }
    forall k | 0 <= k < |s'.actors| && s'.actors[k].Publishing?
      ensures OnTrack(policy, run, s'.db, s'.actors[k].m.job, s'.actors[k].m.attempt)
    {
      if k != i {
        OnTrackStays(policy, run, s, s', s.actors[k].m.job, s.actors[k].m.attempt);
      }
    }
  }

  /** Steps that touch no existing job keep finals and publishers on track. */
  lemma IdleTrackStep(policy: BudgetPolicy, run: Runner, cfg: Config, s: State, a: Action, s': State)
    requires FinalsOnTrack(policy, run, s.db) && PublishersOnTrack(policy, run, s) && Extends(s, s') && RowsInv(s.db)
    requires Enabled(cfg, s, a) && s' == Next(cfg, s, a)
    requires var tx := EffectOf(cfg, s, a).tx; tx.NoTx? || tx.CreateTx?
    requires forall k :: 0 <= k < |s.actors| && s.actors[k].Publishing? ==> s.actors[k].m.job in s.db.jobs
    ensures FinalsOnTrack(policy, run, s'.db) && PublishersOnTrack(policy, run, s')
  {
    var tx := EffectOf(cfg, s, a).tx;
    OtherTrails(s.db, tx, s'.db);
    forall j | j in s'.db.finals && j in s'.db.jobs
      ensures Trail(s'.db.events, j) == FinalTrail(policy, run, j, Blueprint(s'.db.jobs[j]), 1)
    {
      assert tx.CreateTx? ==> j != tx.id;
      assert SameFor(s.db, s'.db, j);
    }
    NoNewPublisher(cfg, s, a);
    forall k | 0 <= k < |s'.actors| && s'.actors[k].Publishing?
      ensures OnTrack(policy, run, s'.db, s'.actors[k].m.job, s'.actors[k].m.attempt)
    {
      assert s'.actors[k] == s.actors[k];
      OnTrackStays(policy, run, s, s', s.actors[k].m.job, s.actors[k].m.attempt);
    }
  }

  lemma NoNewPublisher(cfg: Config, s: State, a: Action)
    requires Ready(s, a) && (EffectOf(cfg, s, a).tx.NoTx? || EffectOf(cfg, s, a).tx.CreateTx?)
    ensures !EffectOf(cfg, s, a).pc.Publishing?
  {
  }

  ghost predicate PublishersKnown(s: State) {
    forall k :: 0 <= k < |s.actors| && s.actors[k].Publishing? ==> s.actors[k].m.job in s.db.jobs
  }

  lemma StartTrackStep(policy: BudgetPolicy, run: Runner, cfg: Config, s: State, a: Action, s': State, eff: Effect)
    requires QueueInv(s.q) && EntriesInv(s) && RowsInv(s.db) && TrackInv(policy, run, s) && Extends(s, s')
             && PublishersKnown(s)
    requires a.Start? && Ready(s, a) && PcTrail(s, s.actors[a.i]) && cfg.policyOf(a.i) == policy
    requires eff == StartEffect(cfg, s, a.i, s.actors[a.i].e) && !eff.tx.NoTx?
    requires Legal(s.db, eff.tx) && s'.db == Apply(s.db, eff.tx) && s'.actors == s.actors[a.i := eff.pc]
    ensures FinalsOnTrack(policy, run, s'.db) && PublishersOnTrack(policy, run, s')
  {
    var e := s.actors[a.i].e;
    assert InRange(s.db, s.q.entries[e].job, s.q.entries[e].attempt);
    if eff.tx.FinalizeTx? {
      StartOnTrack(policy, run, cfg, s, a.i, e, s', eff);
    }
    OwnTrackStep(policy, run, s, a.i, eff.tx, eff.pc, s', e);
  }

  lemma FinishTrackStep(policy: BudgetPolicy, run: Runner, cfg: Config, s: State, a: Action, s': State, eff: Effect,
                        artifact: Option<Stored>)
    requires QueueInv(s.q) && Extends(s, s') && PublishersKnown(s) && a.Finish? && Ready(s, a)
    requires FinalsOnTrack(policy, run, s.db) && PublishersOnTrack(policy, run, s)
    requires policy.ValidateDispatch(s.actors[a.i].job).None?
    requires var m := s.q.entries[s.actors[a.i].e]; m.attempt >= 1 && OnTrack(policy, run, s.db, m.job, m.attempt)
    requires PcShape(s, s.actors[a.i]) && PcTrail(s, s.actors[a.i]) && RunnerStep(policy, run, cfg, s, a)
    requires eff == FinishEffect(cfg, a.i, s.q.entries[s.actors[a.i].e], s.actors[a.i].e, s.actors[a.i].job, artifact,
                                 a.outcome)
    requires Legal(s.db, eff.tx) && s'.db == Apply(s.db, eff.tx) && s'.actors == s.actors[a.i := eff.pc]
    ensures FinalsOnTrack(policy, run, s'.db) && PublishersOnTrack(policy, run, s')
  {
    var pc := s.actors[a.i];
    FinishOnTrack(policy, run, cfg, s, a.i, pc, artifact, s', eff);
    OwnTrackStep(policy, run, s, a.i, eff.tx, eff.pc, s', pc.e);
  }

  lemma TrackStep(policy: BudgetPolicy, run: Runner, cfg: Config, s: State, a: Action, s': State)
    requires QueueInv(s.q) && EntriesInv(s) && RowsInv(s.db) && TrackInv(policy, run, s) && PublishersKnown(s)
    requires BusyDispatched(policy, s)
             && (!External(a) && Ready(s, a) ==> PcShape(s, s.actors[a.i]) && PcTrail(s, s.actors[a.i]))
    requires Enabled(cfg, s, a) && RunnerStep(policy, run, cfg, s, a) && s' == Next(cfg, s, a)
    ensures TrackInv(policy, run, s')
  {
    NextExtends(cfg, s, a);
    EffectSummary(cfg, s, a);
    var m := PublishedOnTrack(policy, run, cfg, s, a, s');
    EntriesTrackStep(policy, run, s, s', m);
    var eff := EffectOf(cfg, s, a);
    if eff.tx.NoTx? || eff.tx.CreateTx? {
      IdleTrackStep(policy, run, cfg, s, a, s');
    } else {
      WhoWrites(cfg, s, a, eff);
      if a.Start? {
        StartTrackStep(policy, run, cfg, s, a, s', eff);
      } else {
        var pc := s.actors[a.i];
        assert InRange(s.db, s.q.entries[pc.e].job, s.q.entries[pc.e].attempt);
        FinishTrackStep(policy, run, cfg, s, a, s', eff, if pc.Wrote? then Some(pc.stored) else None);
      }
    }
  }

  lemma RunnerInvStep(policy: BudgetPolicy, run: Runner, cfg: Config, s: State, a: Action, s': State)
    requires FaultFreeInv(s) && TrackInv(policy, run, s) && BusyDispatched(policy, s)
    requires RunnerStep(policy, run, cfg, s, a) && Step(cfg, s, a, s')
    ensures TrackInv(policy, run, s') && BusyDispatched(policy, s')
  {
    forall k | 0 <= k < |s.actors| && s.actors[k].Publishing?
      ensures s.actors[k].m.job in s.db.jobs
    {
      assert PcShape(s, s.actors[k]);
    }
    if !External(a) {
      assert PcShape(s, s.actors[a.i]) && PcTrail(s, s.actors[a.i]);
    }
    TrackStep(policy, run, cfg, s, a, s');
    BusyDispatchedStep(policy, run, cfg, s, a, s');
  }

  lemma {:induction false} RunnerUntil(policy: BudgetPolicy, run: Runner, cfg: Config, ss: seq<State>,
                                       acts: seq<Action>, k: nat)
    requires RunnerRun(policy, run, cfg, ss, acts) && k <= |acts|
    ensures FaultFreeInv(ss[k]) && TrackInv(policy, run, ss[k]) && BusyDispatched(policy, ss[k])
  {
    if k == 0 {
      FaultFreeInit(ss[0]);
    } else {
      RunnerUntil(policy, run, cfg, ss, acts, k - 1);
      FaultFreeInvStep(cfg, ss[k - 1], acts[k - 1], ss[k]);
      RunnerInvStep(policy, run, cfg, ss[k - 1], acts[k - 1], ss[k]);
    }
  }

  /** Whatever the interleaving, a job that is finished has the final trail that its row,
      the budget policy and the runner determine. */
  lemma OutcomeIsDetermined(policy: BudgetPolicy, run: Runner, cfg: Config, ss: seq<State>, acts: seq<Action>, k: nat,
                            j: JobId)
    requires RunnerRun(policy, run, cfg, ss, acts) && k < |ss| && j in ss[k].db.finals
    ensures j in ss[k].db.jobs
    ensures Trail(ss[k].db.events, j) == FinalTrail(policy, run, j, Blueprint(ss[k].db.jobs[j]), 1)
  {
    RunnerUntil(policy, run, cfg, ss, acts, k);
  }

  /** A path of fault-free steps that follow the runner and the budget policy. */
  ghost predicate RunnerSteps(policy: BudgetPolicy, run: Runner, cfg: Config, ss: seq<State>, acts: seq<Action>) {
    Steps(cfg, ss, acts) && forall k :: 0 <= k < |acts| ==> RunnerStep(policy, run, cfg, ss[k], acts[k])
  }

  ghost predicate RunnerPath(policy: BudgetPolicy, run: Runner, cfg: Config, s: State, acts: seq<Action>, s': State) {
    exists ss :: RunnerSteps(policy, run, cfg, ss, acts) && ss[0] == s && ss[|acts|] == s'
  }

  lemma RunnerPathStart(policy: BudgetPolicy, run: Runner, cfg: Config, s: State)
    ensures RunnerPath(policy, run, cfg, s, [], s)
  {
    assert RunnerSteps(policy, run, cfg, [s], []);
  }

  lemma RunnerPathSnoc(policy: BudgetPolicy, run: Runner, cfg: Config, s: State, acts: seq<Action>, mid: State,
                       a: Action, s': State)
    requires RunnerPath(policy, run, cfg, s, acts, mid) && Step(cfg, mid, a, s') && RunnerStep(policy, run, cfg, mid, a)
    ensures RunnerPath(policy, run, cfg, s, acts + [a], s')
  {
    var ss :| RunnerSteps(policy, run, cfg, ss, acts) && ss[0] == s && ss[|acts|] == mid;
    var ss', acts' := ss + [s'], acts + [a];
    forall k | 0 <= k < |acts'|
      ensures Step(cfg, ss'[k], acts'[k], ss'[k + 1]) && RunnerStep(policy, run, cfg, ss'[k], acts'[k])
    {
      assert k < |acts| ==> Step(cfg, ss[k], acts[k], ss[k + 1]);
    }
    assert RunnerSteps(policy, run, cfg, ss', acts');
  }

  /** Steps that reach s can be prolonged by every runner path from s. */
  lemma RunnerStepsProlong(policy: BudgetPolicy, run: Runner, cfg: Config, ss: seq<State>, acts: seq<Action>,
                           more: seq<Action>, s': State) returns (ss': seq<State>)
    requires RunnerSteps(policy, run, cfg, ss, acts) && RunnerPath(policy, run, cfg, ss[|acts|], more, s')
    ensures RunnerSteps(policy, run, cfg, ss', acts + more) && ss'[|acts| + |more|] == s'
    ensures ss <= ss' && ss'[0] == ss[0] && ss'[|acts|] == ss[|acts|]
  {
    var tt :| RunnerSteps(policy, run, cfg, tt, more) && tt[0] == ss[|acts|] && tt[|more|] == s';
    ss' := ss + tt[1..];
    var acts' := acts + more;
    forall k | 0 <= k < |acts'|
      ensures Step(cfg, ss'[k], acts'[k], ss'[k + 1]) && RunnerStep(policy, run, cfg, ss'[k], acts'[k])
    {
      if k < |acts| {
        assert Step(cfg, ss[k], acts[k], ss[k + 1]);
      } else {
        assert Step(cfg, tt[k - |acts|], more[k - |acts|], tt[k - |acts| + 1]);
      }
    }
  }
}
