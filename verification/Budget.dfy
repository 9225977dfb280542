/** Dispatch budgets over whole runs: nothing runs that its worker's policy does not admit. */
module Budget {
  import opened Domain
  import opened Store
  import opened Streams
  import opened Protocol
  import opened Safety
  import opened Guard
  import opened SingleFlight

  /** What a policy is for: stub mode runs no live job, live mode only jobs whose budget is
      within both limits, and no other mode runs anything. */
  predicate Admits(p: BudgetPolicy, job: JobRecord) {
    || (p.mode == "stub" && !("live." <= job.jobType))
    || (&& p.mode == "live" && p.runBudgetCents.Some? && p.perJobBudgetCents.Some? && job.budgetCents.Some?
        && job.budgetCents.value <= p.perJobBudgetCents.value && job.budgetCents.value <= p.runBudgetCents.value)
  }

  /** The same, said of what was submitted. */
  predicate AdmitsSubmission(p: BudgetPolicy, sub: Submission) {
    if p.mode == "stub" then !("live." <= sub.jobType)
    else
      && p.mode == "live" && p.runBudgetCents.Some? && p.perJobBudgetCents.Some? && sub.budgetCents.Some?
      && sub.budgetCents.value <= p.runBudgetCents.value && sub.budgetCents.value <= p.perJobBudgetCents.value
  }

  lemma RowAdmission(p: BudgetPolicy, row: JobRecord, sub: Submission)
    requires RowOf(row, sub)
    ensures Admits(p, row) <==> AdmitsSubmission(p, sub)
    ensures p.ValidateDispatch(row).None? <==> AdmitsSubmission(p, sub)
  {
    assert "stub"[0] != "live"[0];
    AdmitsIff(p, row);
  }

  /** The reason that a refused dispatch gives: the first of the checks that fails. */
  lemma DispatchReasons(p: BudgetPolicy, job: JobRecord)
    ensures var r := p.ValidateDispatch(job);
            var live, limits := p.mode == "live", p.runBudgetCents.Some? && p.perJobBudgetCents.Some?;
            var priced := live && limits && job.budgetCents.Some?;
            && (r == Some("stub_live_job_blocked") <==> p.mode == "stub" && "live." <= job.jobType)
            && (p.mode != "stub" && !live ==> r == Some("unsupported_budget_mode:" + p.mode))
            && (live && !limits ==> r == Some("missing_live_run_or_job_budget"))
            && (live && limits && job.budgetCents.None? ==> r == Some("missing_job_budget"))
            && (priced && job.budgetCents.value > p.perJobBudgetCents.value ==> r == Some("per_job_budget_overrun"))
            && (priced && p.runBudgetCents.value < job.budgetCents.value <= p.perJobBudgetCents.value ==>
                  r == Some("run_budget_overrun"))
  {
    assert "stub"[0] != "live"[0];
    assert "stub_live_job_blocked"[0] == 's' && "unsupported_budget_mode:"[0] == 'u';
    assert "missing_live_run_or_job_budget"[0] == 'm' && "missing_job_budget"[0] == 'm';
    assert "per_job_budget_overrun"[0] == 'p' && "run_budget_overrun"[0] == 'r';
    if p.mode != "stub" && p.mode != "live" {
      assert ("unsupported_budget_mode:" + p.mode)[0] == 'u';
    }
  }

  lemma AdmitsIff(p: BudgetPolicy, job: JobRecord)
    ensures p.ValidateDispatch(job).None? <==> Admits(p, job)
  {
    assert "stub"[0] != "live"[0];
  }

  /** A worker that starts on a job which is not terminal logs a running event and executes if
      and only if its policy admits the job; otherwise the job is finalized as failed by the
      budget (or a conflict is recorded if it has a guard row) and the message is acknowledged. */
  lemma StartRunsIffAdmitted(cfg: Config, s: State, i: ActorId, s': State, e: EntryId, m: Message)
    requires QueueInv(s.q) && Step(cfg, s, Start(i), s') && s.actors[i] == Leased(e) && e < s.q.cursor
    requires m == s.q.entries[e] && m.job in s.db.jobs && !s.db.jobs[m.job].status.Terminal()
    ensures var admitted := Admits(cfg.policyOf(i), s.db.jobs[m.job]);
            && (s'.actors[i].Executing? <==> admitted)
            && (admitted ==> s'.db.events == s.db.events + [Event(m.job, RunningBody(i, m.attempt))])
            && (Acked(s'.q, e) <==> Acked(s.q, e) || !admitted)
            && (!admitted ==> m.job in s'.db.finals)
            && (!admitted && m.job !in s.db.finals ==>
                  && s'.db.finals[m.job] == Finalization(Failed, KBudgetBlocked)
                  && s'.db.events == s.db.events + [Event(m.job, BudgetBlockedBody(i, m.attempt))])
            && (!admitted && m.job in s.db.finals ==> s'.db == s.db.(conflicts := s'.db.conflicts))
  {
    AdmitsIff(cfg.policyOf(i), s.db.jobs[m.job]);
  }

  lemma AdmissionIgnoresStatus(policy: BudgetPolicy, a: JobRecord, b: JobRecord)
    requires SameExceptStatus(a, b)
    ensures Admits(policy, a) == Admits(policy, b)
  {
  }

  /** Only the execution of the job by a worker writes such an event. */
  predicate ByExecution(body: Body) {
    || body.RunningBody? || body.RetryScheduledBody? || body.CompletedBody? || body.TimedOutBody?
    || (body.FailedBody? && !body.retryable)
  }

  /** Every event of an execution was admitted by the policy of the worker it names. */
  ghost predicate EventsAdmitted(cfg: Config, db: Db) {
    forall k :: 0 <= k < |db.events| && ByExecution(db.events[k].body) ==>
      db.events[k].job in db.jobs && Admits(cfg.policyOf(db.events[k].body.worker), db.jobs[db.events[k].job])
  }

  ghost predicate BusyAdmitted(cfg: Config, s: State) {
    forall i :: 0 <= i < |s.actors| && Busy(s.actors[i]) ==> Admits(cfg.policyOf(i), s.actors[i].job)
  }

  lemma ExecutionIsAdmitted(cfg: Config, s: State, a: Action, eff: Effect)
    requires QueueInv(s.q) && Ready(s, a) && eff == EffectOf(cfg, s, a) && BusyAdmitted(cfg, s)
    requires !External(a) ==> PcShape(s, s.actors[a.i])
    ensures !External(a) && Busy(eff.pc) ==> Admits(cfg.policyOf(a.i), eff.pc.job)
    ensures (eff.tx.RecordTx? || eff.tx.FinalizeTx?) && ByExecution(eff.tx.body) ==>
              eff.tx.job in s.db.jobs && Admits(cfg.policyOf(eff.tx.body.worker), s.db.jobs[eff.tx.job])
  {
    if a.Start? {
      var m := s.q.entries[s.actors[a.i].e];
      if m.job in s.db.jobs {
        AdmitsIff(cfg.policyOf(a.i), s.db.jobs[m.job]);
      }
    }
    if a.Finish? {
      AdmissionIgnoresStatus(cfg.policyOf(a.i), s.actors[a.i].job, s.db.jobs[s.q.entries[s.actors[a.i].e].job]);
    }
  }

  lemma AdmittedTx(cfg: Config, db: Db, tx: DbOp)
    requires EventsAdmitted(cfg, db) && Legal(db, tx)
    requires (tx.RecordTx? || tx.FinalizeTx?) && ByExecution(tx.body) ==>
               tx.job in db.jobs && Admits(cfg.policyOf(tx.body.worker), db.jobs[tx.job])
    ensures EventsAdmitted(cfg, Apply(db, tx))
  {
    var db' := Apply(db, tx);
    ApplyGrows(db, tx);
    forall k | 0 <= k < |db'.events| && ByExecution(db'.events[k].body)
      ensures db'.events[k].job in db'.jobs
              && Admits(cfg.policyOf(db'.events[k].body.worker), db'.jobs[db'.events[k].job])
    {
      var x := db'.events[k];
      assert k < |db.events| ==> db.events[k] == x;
      assert x.job in db.jobs;
      AdmissionIgnoresStatus(cfg.policyOf(x.body.worker), db.jobs[x.job], db'.jobs[x.job]);
    }
  }

  lemma ShapeAt(cfg: Config, ss: seq<State>, acts: seq<Action>, k: nat)
    requires Run(cfg, ss, acts) && k < |ss|
    ensures QueueInv(ss[k].q) && forall i :: 0 <= i < |ss[k].actors| ==> PcShape(ss[k], ss[k].actors[i])
  {
    RunKeepsInv(cfg, ss, acts);
    assert Inv(ss[k]);
  }

  lemma {:induction false} AdmittedUntil(cfg: Config, ss: seq<State>, acts: seq<Action>, k: nat)
    requires Run(cfg, ss, acts) && k <= |acts|
    ensures EventsAdmitted(cfg, ss[k].db) && BusyAdmitted(cfg, ss[k])
  {
    if k > 0 {
      AdmittedUntil(cfg, ss, acts, k - 1);
      assert Step(cfg, ss[k - 1], acts[k - 1], ss[k]);
      ShapeAt(cfg, ss, acts, k - 1);
      AdmittedStep(cfg, ss[k - 1], acts[k - 1], ss[k]);
    }
  }

  lemma AdmittedStep(cfg: Config, s: State, a: Action, s': State)
    requires QueueInv(s.q) && Step(cfg, s, a, s') && (!External(a) ==> PcShape(s, s.actors[a.i]))
    requires EventsAdmitted(cfg, s.db) && BusyAdmitted(cfg, s)
    ensures EventsAdmitted(cfg, s'.db) && BusyAdmitted(cfg, s')
  {
    var eff := EffectOf(cfg, s, a);
    EffectSummary(cfg, s, a);
    ExecutionIsAdmitted(cfg, s, a, eff);
    AdmittedTx(cfg, s.db, eff.tx);
  }

  /** Worker w has executed job j. */
  ghost predicate RanOn(db: Db, j: JobId, w: ActorId) {
    exists k :: 0 <= k < |db.events| && db.events[k].job == j && ByExecution(db.events[k].body)
        && db.events[k].body.worker == w
  }

  /** In every run, whatever a worker has started, retried, completed, timed out or failed for
      good was admitted by its policy. */
  lemma OnlyAdmittedJobsRun(cfg: Config, ss: seq<State>, acts: seq<Action>, k: nat, j: JobId, w: ActorId)
    requires Run(cfg, ss, acts) && k < |ss| && RanOn(ss[k].db, j, w)
    ensures j in ss[k].db.jobs && Admits(cfg.policyOf(w), ss[k].db.jobs[j])
  {
    AdmittedUntil(cfg, ss, acts, k);
  }

  /** So a job that no worker's policy admits never completes or times out. */
  lemma UnadmittedNeverCompletes(cfg: Config, ss: seq<State>, acts: seq<Action>, k: nat, j: JobId)
    requires Run(cfg, ss, acts) && k < |ss| && j in ss[k].db.finals && j in ss[k].db.jobs
    requires forall w: ActorId :: !Admits(cfg.policyOf(w), ss[k].db.jobs[j])
    ensures var kind := ss[k].db.finals[j].kind; kind == KBudgetBlocked || kind == KFailed || kind == KCancelled
  {
    var x := FinalEventOf(cfg, ss, acts, k, j);
    var db := ss[k].db;
    if ByExecution(db.events[x].body) {
      assert RanOn(db, j, db.events[x].body.worker);
      OnlyAdmittedJobsRun(cfg, ss, acts, k, j, db.events[x].body.worker);
    }
  }

  lemma FinalEventOf(cfg: Config, ss: seq<State>, acts: seq<Action>, k: nat, j: JobId) returns (x: nat)
    requires Run(cfg, ss, acts) && k < |ss| && j in ss[k].db.finals && j in ss[k].db.jobs
    ensures x < |ss[k].db.events| && ss[k].db.events[x].job == j
    ensures ss[k].db.events[x].body.Kind() == ss[k].db.finals[j].kind && ss[k].db.finals[j].kind.Final()
  {
    RunKeepsInv(cfg, ss, acts);
    assert Inv(ss[k]);
    FinalEventExists(ss[k].db.events, j);
    x :| 0 <= x < |ss[k].db.events| && ss[k].db.events[x].job == j && ss[k].db.events[x].body.Kind().Final();
  }
}
