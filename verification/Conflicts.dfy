/** Conflict rows and dead letters outside of the worst case: in single-flight runs only a
    cancellation that comes too late conflicts, and fault-free runs leave neither. */
module Conflicts {
  import opened Domain
  import opened Store
  import opened Streams
  import opened Protocol
  import opened Safety
  import opened Guard
  import opened SingleFlight
  import opened FaultFree
  import opened FanOut

  /** A cancellation of a job that has its guard row already. */
  ghost predicate LateCancel(s: State, a: Action) {
    a.CancelQueued? && a.job in s.db.finals
  }

  /** Workers and passes finalize only jobs that are still open. */
  lemma FinalizesOpenJob(cfg: Config, s: State, a: Action, tx: DbOp)
    requires QueueInv(s.q) && RowsInv(s.db) && Agree(s.db) && BusyInv(s) && Ready(s, a)
    requires !External(a) ==> PcShape(s, s.actors[a.i])
    requires tx == EffectOf(cfg, s, a).tx && tx.FinalizeTx? && tx.job in s.db.finals
    ensures LateCancel(s, a)
  {
  }

  lemma ConflictStep(cfg: Config, s: State, a: Action, s': State)
    requires Inv(s) && SfInv(s) && Step(cfg, s, a, s')
    ensures s'.db.conflicts
         == s.db.conflicts + if LateCancel(s, a) then [Conflict(a.job, Cancelled, KCancelled)] else []
  {
    var tx := EffectOf(cfg, s, a).tx;
    EffectSummary(cfg, s, a);
    if tx.FinalizeTx? && tx.job in s.db.finals {
      FinalizesOpenJob(cfg, s, a, tx);
    }
  }

  /** The conflict rows that the first n steps leave if only late cancellations conflict. */
  ghost function LateCancels(ss: seq<State>, acts: seq<Action>, n: nat): seq<Conflict>
    requires n <= |acts| < |ss|
  {
    if n == 0 then []
    else
      LateCancels(ss, acts, n - 1)
      + if LateCancel(ss[n - 1], acts[n - 1]) then [Conflict(acts[n - 1].job, Cancelled, KCancelled)] else []
  }

  /** In single-flight runs the conflict rows are exactly those of the cancellations of jobs
      that were finalized before, in order. */
  lemma {:induction false} ConflictsAreLateCancels(cfg: Config, ss: seq<State>, acts: seq<Action>, n: nat)
    requires SingleFlightRun(cfg, ss, acts) && n <= |acts|
    ensures ss[n].db.conflicts == LateCancels(ss, acts, n)
  {
    if n > 0 {
      ConflictsAreLateCancels(cfg, ss, acts, n - 1);
      SfUntil(cfg, ss, acts, n - 1);
      assert Step(cfg, ss[n - 1], acts[n - 1], ss[n]);
      ConflictStep(cfg, ss[n - 1], acts[n - 1], ss[n]);
    }
  }

  // ----- fault-free runs -----

  ghost predicate Clean(s: State) {
    s.q.dlq == [] && forall i :: 0 <= i < |s.actors| ==> !InPass(s.actors[i]) && !s.actors[i].DeadLettering?
  }

  lemma CleanStep(cfg: Config, s: State, a: Action, s': State)
    requires Clean(s) && Step(cfg, s, a, s') && !a.FindStale?
    ensures Clean(s')
  {
  }

  /** Fault-free runs leave no conflict row and no dead letter. */
  lemma {:induction false} FaultFreeIsClean(cfg: Config, ss: seq<State>, acts: seq<Action>, n: nat)
    requires FaultFreeRun(cfg, ss, acts) && n <= |acts|
    ensures ss[n].db.conflicts == [] && Clean(ss[n])
  {
    if n > 0 {
      FaultFreeIsClean(cfg, ss, acts, n - 1);
      FaultFreeUntil(cfg, ss, acts, n - 1);
      assert Step(cfg, ss[n - 1], acts[n - 1], ss[n]);
      ConflictStep(cfg, ss[n - 1], acts[n - 1], ss[n]);
      CleanStep(cfg, ss[n - 1], acts[n - 1], ss[n]);
    }
  }
}
