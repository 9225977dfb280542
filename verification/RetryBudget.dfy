/** How far attempt numbers go, and when the workers' retry budget bounds them: recovery does
    not look at that budget. */
module RetryBudget {
  import opened Domain
  import opened Streams
  import opened Protocol
  import opened Safety
  import opened Guard
  import opened FanOut
  import opened Recovery

  ghost predicate WithinBudget(s: State, budget: nat) {
    forall e :: 0 <= e < |s.q.entries| ==> s.q.entries[e].attempt <= budget + 1
  }

  /** A pass publishes a requeue of an entry whose attempt is already above the budget. */
  ghost predicate OverBudgetRequeue(s: State, a: Action, budget: nat) {
    && a.Publish? && Ready(s, a) && s.actors[a.i].cont.ToPass?
    && s.actors[a.i].e < |s.q.entries| && s.q.entries[s.actors[a.i].e].attempt > budget
  }

  ghost predicate NoOverBudgetRequeue(ss: seq<State>, acts: seq<Action>, budget: nat) {
    forall k :: 0 <= k < |acts| && k < |ss| ==> !OverBudgetRequeue(ss[k], acts[k], budget)
  }

  /** The next attempt that a worker is about to publish is within its budget. */
  ghost predicate RetriesWithin(s: State, budget: nat) {
    forall i :: 0 <= i < |s.actors| && s.actors[i].Publishing? && s.actors[i].cont.ToIdle? ==>
      s.actors[i].m.attempt <= budget + 1
  }

  lemma BudgetStep(cfg: Config, budget: nat, s: State, a: Action, s': State)
    requires QueueInv(s.q) && Step(cfg, s, a, s') && (!External(a) ==> PcShape(s, s.actors[a.i]))
    requires WithinBudget(s, budget) && RetriesWithin(s, budget)
    requires forall w: ActorId :: cfg.policyOf(w).retryBudget <= budget
    ensures RetriesWithin(s', budget)
    ensures WithinBudget(s', budget) <==> !OverBudgetRequeue(s, a, budget)
  {
    if a.Publish? {
      assert s'.q.entries == s.q.entries + [s.actors[a.i].m];
      assert s'.q.entries[|s.q.entries|] == s.actors[a.i].m;
    }
  }

  lemma {:induction false} BudgetUntil(cfg: Config, budget: nat, ss: seq<State>, acts: seq<Action>, k: nat)
    requires Run(cfg, ss, acts) && k < |ss| && NoOverBudgetRequeue(ss, acts, budget)
    requires forall w: ActorId :: cfg.policyOf(w).retryBudget <= budget
    ensures WithinBudget(ss[k], budget) && RetriesWithin(ss[k], budget)
  {
    if k > 0 {
      BudgetUntil(cfg, budget, ss, acts, k - 1);
      RunKeepsInv(cfg, ss, acts);
      assert Inv(ss[k - 1]) && Step(cfg, ss[k - 1], acts[k - 1], ss[k]);
      BudgetStep(cfg, budget, ss[k - 1], acts[k - 1], ss[k]);
    }
  }

  /** The workers' retry budget bounds the attempts of a run if and only if no pass of the
      run requeues an entry that is already above that budget. */
  lemma RetryBudgetBoundsIff(cfg: Config, budget: nat, ss: seq<State>, acts: seq<Action>)
    requires Run(cfg, ss, acts)
    requires forall w: ActorId :: cfg.policyOf(w).retryBudget <= budget
    ensures (forall k :: 0 <= k < |ss| ==> WithinBudget(ss[k], budget)) <==> NoOverBudgetRequeue(ss, acts, budget)
  {
    if NoOverBudgetRequeue(ss, acts, budget) {
      forall k | 0 <= k < |ss|
        ensures WithinBudget(ss[k], budget)
      {
        BudgetUntil(cfg, budget, ss, acts, k);
      }
    }
    if k :| 0 <= k < |acts| && OverBudgetRequeue(ss[k], acts[k], budget) {
      RunKeepsInv(cfg, ss, acts);
      assert Inv(ss[k]) && Step(cfg, ss[k], acts[k], ss[k + 1]);
      OverBudgetShows(cfg, budget, ss[k], acts[k], ss[k + 1]);
    }
  }

  lemma OverBudgetShows(cfg: Config, budget: nat, s: State, a: Action, s': State)
    requires QueueInv(s.q) && OverBudgetRequeue(s, a, budget) && PcShape(s, s.actors[a.i]) && Step(cfg, s, a, s')
    ensures !WithinBudget(s', budget)
  {
    assert s'.q.entries[|s.q.entries|] == s.actors[a.i].m;
  }

  function Min(a: nat, b: nat): nat {
    if a <= b then a else b
  }

  /** In such runs no attempt of a job goes beyond min(max_retries, retry_budget) + 1. */
  lemma AttemptsWithinBothBudgets(cfg: Config, budget: nat, ss: seq<State>, acts: seq<Action>, k: nat, e: EntryId)
    requires Run(cfg, ss, acts) && k < |ss| && NoOverBudgetRequeue(ss, acts, budget)
    requires forall w: ActorId :: cfg.policyOf(w).retryBudget <= budget
    requires e < |ss[k].q.entries| && ss[k].q.entries[e].job in ss[k].db.jobs
    ensures 1 <= ss[k].q.entries[e].attempt <= Min(ss[k].db.jobs[ss[k].q.entries[e].job].maxRetries, budget) + 1
  {
    BudgetUntil(cfg, budget, ss, acts, k);
    AttemptBounds(cfg, ss, acts, k);
    assert InRange(ss[k].db, ss[k].q.entries[e].job, ss[k].q.entries[e].attempt);
  }

  // ----- recovery alone reaches every attempt -----

  /** Job 0 waits in the stream with attempt n + 1, everything older is acknowledged. */
  ghost predicate WaitsAt(s: State, sub: Submission, n: nat) {
    && s.actors == [Idle] && QueueInv(s.q)
    && s.q.cursor == n && |s.q.entries| == n + 1 && s.q.pending == map[]
    && s.q.entries[n].job == 0 && s.q.entries[n].attempt == n + 1
    && 0 in s.db.jobs && !s.db.jobs[0].status.Terminal() && s.db.jobs[0].maxRetries == sub.maxRetries
  }

  lemma LeasedAndCrashed(cfg: Config, s: State, n: nat) returns (s': State)
    requires s.actors == [Idle] && s.q.cursor == n && |s.q.entries| == n + 1 && s.q.pending == map[]
    ensures Leads(cfg, s, [LeaseNext(0, 0), Crash(0)], s')
    ensures s' == s.(q := s.q.(cursor := n + 1, pending := map[n := Lease(0, 0)]))
  {
    var leased := s.(q := ApplyQ(s.q, LeaseOp(0, 0)), actors := [Leased(n)]);
    s' := leased.(actors := [Idle]);
    assert leased.actors == s.actors[0 := Leased(n)] && s'.actors == leased.actors[0 := Idle];
    LeadsNowhere(cfg, s);
    LeadsSnoc(cfg, s, [], s, LeaseNext(0, 0), leased);
    LeadsSnoc(cfg, s, [LeaseNext(0, 0)], leased, Crash(0), s');
    assert [] + [LeaseNext(0, 0)] == [LeaseNext(0, 0)] && [LeaseNext(0, 0)] + [Crash(0)] == [LeaseNext(0, 0), Crash(0)];
  }

  /** A worker leases the message and dies; a pass with threshold 0 requeues it. */
  lemma Requeued(cfg: Config, sub: Submission, s: State, n: nat) returns (acts: seq<Action>, s': State)
    requires WaitsAt(s, sub, n) && n < sub.maxRetries
    ensures Leads(cfg, s, acts, s') && WaitsAt(s', sub, n + 1)
  {
    var crashed := LeasedAndCrashed(cfg, s, n);
    var pass := PassLeads(cfg, 0, crashed, 0, 0, 1);
    s' := Pass(0, crashed, 0, 0, 1);
    acts := LeadsCompose(cfg, s, [LeaseNext(0, 0), Crash(0)], crashed, pass, s');
    LoneLease(crashed.q, n);
    RequeuedState(sub, crashed, n);
  }

  lemma LoneLease(q: Queue, n: EntryId)
    requires QueueInv(q) && n < q.cursor && q.pending == map[n := Lease(0, 0)]
    ensures StaleFrom(q, 0, 0, 0, 1) == [n]
  {
    StaleFromIsScan(q, 0, 0, 0, 1);
    assert Stale(q, n, 0, 0);
  }

  lemma RequeuedState(sub: Submission, s: State, n: nat)
    requires s.actors == [Idle] && QueueInv(s.q) && s.q.cursor == n + 1 == |s.q.entries|
    requires s.q.pending == map[n := Lease(0, 0)] && StaleFrom(s.q, 0, 0, 0, 1) == [n]
    requires s.q.entries[n].job == 0 && s.q.entries[n].attempt == n + 1 && n < sub.maxRetries
    requires 0 in s.db.jobs && !s.db.jobs[0].status.Terminal() && s.db.jobs[0].maxRetries == sub.maxRetries
    ensures WaitsAt(Pass(0, s, 0, 0, 1), sub, n + 1)
  {
    var s' := HandleLease(0, s, n);
    assert [n][1..] == [];
    assert HandleLeases(0, s, [n]) == HandleLeases(0, s', []) == s';
  }

  lemma RunThenLeads(cfg: Config, ss: seq<State>, acts: seq<Action>, more: seq<Action>, s': State)
    returns (ss': seq<State>, acts': seq<Action>)
    requires Run(cfg, ss, acts) && Leads(cfg, ss[|acts|], more, s')
    ensures Run(cfg, ss', acts') && ss'[|acts'|] == s'
  {
    var tt :| Steps(cfg, tt, more) && tt[0] == ss[|acts|] && tt[|more|] == s';
    acts' := acts + more;
    ss' := StepsCompose(cfg, ss, acts, tt, more);
  }

  /** Crashes and passes alone take a job to every attempt up to max_retries + 1, whatever the
      retry budgets of the workers are. */
  lemma {:induction false} RecoveryReaches(cfg: Config, sub: Submission, n: nat)
    returns (ss: seq<State>, acts: seq<Action>)
    requires n <= sub.maxRetries
    ensures Run(cfg, ss, acts) && WaitsAt(ss[|acts|], sub, n)
    ensures forall budget: nat :: budget < n ==> !WithinBudget(ss[|acts|], budget)
  {
    if n == 0 {
      ss, acts := PublishedIsReachable(cfg, sub, [Idle]);
    } else {
      ss, acts := RecoveryReaches(cfg, sub, n - 1);
      var more, s' := Requeued(cfg, sub, ss[|acts|], n - 1);
      ss, acts := RunThenLeads(cfg, ss, acts, more, s');
    }
  }
}
