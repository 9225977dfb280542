/** The drain loop of the smoke and reliability commands: rounds in which every worker of
    the pool runs process_one concurrently, until a round in which nobody found a message. */
module Rounds {
  import opened Domain
  import opened Streams
  import opened Protocol
  import opened Safety
  import opened FaultFree
  import opened Determinism
  import opened Drain
  import opened Runtime
  import opened Artifacts

  ghost function AllIdle(n: nat): seq<Pc> {
    seq(n, _ => Idle)
  }

  function Ids(n: nat): (ids: set<ActorId>)
    ensures forall i: ActorId :: i in ids <==> i < n
  {
    if n == 0 then {} else Ids(n - 1) + {n - 1}
  }

  /** The workers of one pool: ids are positions, and they share everything. */
  ghost predicate Pool(workers: seq<Worker>, db: Database, queue: RedisStreamsQueue, store: ArtifactStore,
                       policy: BudgetPolicy, runner: RunnerSpec, cfg: Config)
  {
    forall i :: 0 <= i < |workers| ==>
      var w := workers[i];
      && w.id == i && w.db == db && w.queue == queue && w.store == store
      && w.policy == policy && w.runner == runner && w.Configured(cfg)
  }

  /** Workers that have written an artifact are about to record a success. */
  ghost predicate WrittenSucceeds(run: Runner, s: State) {
    forall i :: 0 <= i < |s.actors| && s.actors[i].Wrote? && s.actors[i].e < |s.q.entries| ==>
      var m := s.q.entries[s.actors[i].e];
      run(m.job, m.attempt).Success?
  }

  ghost predicate DrainInv(run: Runner, s: State) {
    Inv(s) && NoPass(s) && PendingHeld(s) && WrittenSucceeds(run, s)
  }

  /** A worker's step follows the runner. */
  ghost predicate Follows(run: Runner, s: State, a: Action, s': State) {
    && WorkerStep(a) && a.i < |s.actors| == |s'.actors|
    && (s.actors[a.i].Executing? && a.Finish? && s.actors[a.i].e < |s.q.entries| ==>
          a.outcome == run(s.q.entries[s.actors[a.i].e].job, s.q.entries[s.actors[a.i].e].attempt))
    && (s'.actors[a.i].Wrote? ==>
          && s.actors[a.i].Executing? && s'.actors[a.i].e == s.actors[a.i].e && s.actors[a.i].e < |s.q.entries|
          && run(s.q.entries[s.actors[a.i].e].job, s.q.entries[s.actors[a.i].e].attempt).Success?)
  }

  lemma FollowingIsRunnerStep(policy: BudgetPolicy, run: Runner, cfg: Config, s: State, a: Action, s': State)
    requires WrittenSucceeds(run, s) && Follows(run, s, a, s') && Ready(s, a) && cfg.policyOf(a.i) == policy
    ensures RunnerStep(policy, run, cfg, s, a)
  {
  }

  lemma WrittenStays(run: Runner, s: State, a: Action, s': State)
    requires WrittenSucceeds(run, s) && Follows(run, s, a, s') && s.q.entries <= s'.q.entries
    requires forall i :: 0 <= i < |s.actors| && i != a.i ==> s'.actors[i] == s.actors[i]
    requires forall i :: 0 <= i < |s.actors| && s.actors[i].Wrote? ==> s.actors[i].e < |s.q.entries|
    ensures WrittenSucceeds(run, s')
  {
  }

  lemma DrainInvStep(policy: BudgetPolicy, run: Runner, cfg: Config, s: State, a: Action, s': State)
    requires DrainInv(run, s) && Step(cfg, s, a, s') && Follows(run, s, a, s') && cfg.policyOf(a.i) == policy
    ensures DrainInv(run, s') && RunnerStep(policy, run, cfg, s, a) && Drops(s, a, s')
  {
    WorkerStepKeeps(cfg, s, a, s');
    FollowingIsRunnerStep(policy, run, cfg, s, a, s');
    HolderSteps(run, cfg, s, a, s');
  }

  lemma HolderSteps(run: Runner, cfg: Config, s: State, a: Action, s': State)
    requires QueueInv(s.q) && PendingHeld(s) && WrittenSucceeds(run, s) && Step(cfg, s, a, s') && Follows(run, s, a, s')
    requires forall i :: 0 <= i < |s.actors| ==> PcShape(s, s.actors[i])
    ensures PendingHeld(s') && WrittenSucceeds(run, s')
  {
    EffectSummary(cfg, s, a);
    NextExtends(cfg, s, a);
    PendingHeldStep(cfg, s, a, s', EffectOf(cfg, s, a));
    forall i | 0 <= i < |s.actors| && s.actors[i].Wrote?
      ensures s.actors[i].e < |s.q.entries|
    {
      assert PcShape(s, s.actors[i]);
    }
    WrittenStays(run, s, a, s');
  }

  ghost function Snap(db: Database, queue: RedisStreamsQueue, store: ArtifactStore, pcs: seq<Pc>): State
    reads db, queue, store
  {
    State(db.View(), queue.View(), store.files, pcs)
  }

  /** A path of worker steps that follow the runner, from a state fit for draining. */
  ghost predicate DrainSteps(policy: BudgetPolicy, spec: RunnerSpec, cfg: Config, ss: seq<State>, acts: seq<Action>) {
    && Steps(cfg, ss, acts) && DrainInv(spec.outcome, ss[0])
    && forall k :: 0 <= k < |acts| ==>
         Follows(spec.outcome, ss[k], acts[k], ss[k + 1]) && cfg.policyOf(acts[k].i) == policy
             && FromRunner(spec, acts[k])
  }

  /** What is written is a result of the runner. */
  ghost predicate FromRunner(spec: RunnerSpec, a: Action) {
    a.WriteArtifact? ==> exists j: JobId, n: nat :: a.result == spec.result(j, n)
  }

  ghost predicate DrainPath(policy: BudgetPolicy, spec: RunnerSpec, cfg: Config, s: State, acts: seq<Action>,
                            s': State) {
    exists ss :: DrainSteps(policy, spec, cfg, ss, acts) && ss[0] == s && ss[|acts|] == s'
  }

  lemma {:induction false} DrainUntil(policy: BudgetPolicy, spec: RunnerSpec, cfg: Config, ss: seq<State>,
                                      acts: seq<Action>, n: nat)
    requires DrainSteps(policy, spec, cfg, ss, acts) && n <= |acts|
    ensures DrainInv(spec.outcome, ss[n])
    ensures forall k :: 0 <= k < n ==> DropsAt(ss, acts, k) && RunnerStep(policy, spec.outcome, cfg, ss[k], acts[k])
  {
    if n > 0 {
      DrainUntil(policy, spec, cfg, ss, acts, n - 1);
      assert Step(cfg, ss[n - 1], acts[n - 1], ss[n]);
      DrainInvStep(policy, spec.outcome, cfg, ss[n - 1], acts[n - 1], ss[n]);
    }
  }

  lemma DrainPathStart(policy: BudgetPolicy, spec: RunnerSpec, cfg: Config, s: State)
    requires DrainInv(spec.outcome, s)
    ensures DrainPath(policy, spec, cfg, s, [], s)
  {
    assert DrainSteps(policy, spec, cfg, [s], []);
  }

  lemma DrainPathSnoc(policy: BudgetPolicy, spec: RunnerSpec, cfg: Config, s: State, acts: seq<Action>, mid: State,
                      a: Action, s': State)
    requires DrainPath(policy, spec, cfg, s, acts, mid) && Step(cfg, mid, a, s')
    requires Follows(spec.outcome, mid, a, s') && cfg.policyOf(a.i) == policy && FromRunner(spec, a)
    ensures DrainPath(policy, spec, cfg, s, acts + [a], s')
  {
    var ss :| DrainSteps(policy, spec, cfg, ss, acts) && ss[0] == s && ss[|acts|] == mid;
    var ss', acts' := ss + [s'], acts + [a];
    forall k | 0 <= k < |acts'|
      ensures Step(cfg, ss'[k], acts'[k], ss'[k + 1])
      ensures Follows(spec.outcome, ss'[k], acts'[k], ss'[k + 1]) && cfg.policyOf(acts'[k].i) == policy
      ensures FromRunner(spec, acts'[k])
    {
      assert k < |acts| ==> Step(cfg, ss[k], acts[k], ss[k + 1]);
    }
    assert DrainSteps(policy, spec, cfg, ss', acts');
  }

  /** Where a drain path leads is fit for draining, and the path is no longer than the
      measure allows. */
  lemma DrainPathKeeps(policy: BudgetPolicy, spec: RunnerSpec, cfg: Config, s: State, acts: seq<Action>, s': State)
    requires DrainPath(policy, spec, cfg, s, acts, s')
    ensures DrainInv(spec.outcome, s') && |acts| + Measure(s') <= Measure(s)
            && RunnerPath(policy, spec.outcome, cfg, s, acts, s')
  {
    var ss :| DrainSteps(policy, spec, cfg, ss, acts) && ss[0] == s && ss[|acts|] == s';
    DrainUntil(policy, spec, cfg, ss, acts, |acts|);
    DropsAddUp(ss, acts, |acts|);
    assert RunnerSteps(policy, spec.outcome, cfg, ss, acts);
  }

  /** What a worker needs to know before it moves. */
  lemma WorkerFit(policy: BudgetPolicy, spec: RunnerSpec, cfg: Config, start: State, acts: seq<Action>, s: State,
                  i: ActorId)
    requires DrainPath(policy, spec, cfg, start, acts, s) && i < |s.actors|
    ensures QueueInv(s.q) && PcShape(s, s.actors[i]) && WorkerPc(s.actors[i])
  {
    DrainPathKeeps(policy, spec, cfg, start, acts, s);
  }

  method DrainQueue(workers: seq<Worker>, now: int, ghost cfg: Config, db: Database, queue: RedisStreamsQueue,
                    store: ArtifactStore, ghost policy: BudgetPolicy, ghost runner: RunnerSpec)
    returns (ghost acts: seq<Action>)
    requires |workers| > 0 && Pool(workers, db, queue, store, policy, runner, cfg)
    requires Inv(Snap(db, queue, store, AllIdle(|workers|))) && queue.pending == map[]
    modifies db, queue, store
    ensures var s := Snap(db, queue, store, AllIdle(|workers|));
            && Drained(s) && PublishedJobsFinalized(s)
            && RunnerPath(policy, runner.outcome, cfg, old(Snap(db, queue, store, AllIdle(|workers|))), acts, s)
    ensures forall a :: a in acts ==> WorkerStep(a) && FromRunner(runner, a)
  {
    var n := |workers|;
    ghost var start := Snap(db, queue, store, AllIdle(n));
    acts := [];
    DrainPathStart(policy, runner, cfg, start);
    var any := true;
    while any
      invariant DrainPath(policy, runner, cfg, start, acts, Snap(db, queue, store, AllIdle(n)))
      invariant |acts| <= Measure(start)
      invariant !any ==> queue.cursor == |queue.entries|
      decreases Measure(start) - |acts|, any
    {
      any, acts := GatherRound(workers, now, cfg, db, queue, store, policy, runner, start, acts);
    }
    FullyDrained(policy, runner, cfg, start, acts, Snap(db, queue, store, AllIdle(n)));
  }

  lemma OnlyWorkersStep(policy: BudgetPolicy, spec: RunnerSpec, cfg: Config, start: State, acts: seq<Action>, s: State)
    requires DrainPath(policy, spec, cfg, start, acts, s)
    ensures forall a :: a in acts ==> WorkerStep(a) && FromRunner(spec, a)
  {
    var ss :| DrainSteps(policy, spec, cfg, ss, acts) && ss[0] == start && ss[|acts|] == s;
    forall a | a in acts
      ensures WorkerStep(a) && FromRunner(spec, a)
    {
      var k :| 0 <= k < |acts| && acts[k] == a;
      assert Follows(spec.outcome, ss[k], acts[k], ss[k + 1]);
    }
  }

  lemma FullyDrained(policy: BudgetPolicy, spec: RunnerSpec, cfg: Config, start: State, acts: seq<Action>, s: State)
    requires DrainPath(policy, spec, cfg, start, acts, s) && Stopped(s) && s.q.cursor == |s.q.entries|
    ensures Drained(s) && PublishedJobsFinalized(s) && RunnerPath(policy, spec.outcome, cfg, start, acts, s)
    ensures forall a :: a in acts ==> WorkerStep(a) && FromRunner(spec, a)
  {
    OnlyWorkersStep(policy, spec, cfg, start, acts, s);
    DrainPathKeeps(policy, spec, cfg, start, acts, s);
    NothingPending(s);
    DrainedMeansFinalized(s);
  }

  ghost predicate IsTurnOf(a: Action, i: ActorId) {
    WorkerStep(a) && a.i == i
  }

  /** How many messages worker i leased from position `from` of the actions on. */
  ghost function LeasesBy(acts: seq<Action>, from: nat, i: ActorId): nat {
    if |acts| <= from then 0
    else
      var last := acts[|acts| - 1];
      LeasesBy(acts[..|acts| - 1], from, i) + if last.LeaseNext? && last.i == i then 1 else 0
  }

  /** Every worker has leased at most one message since then, and one that still has to take
      its turn from the start has leased none. */
  ghost predicate OneEach(acts: seq<Action>, from: nat, todo: set<ActorId>, pcs: seq<Pc>) {
    && (forall i: ActorId :: i < |pcs| ==> LeasesBy(acts, from, i) <= 1)
    && (forall i: ActorId :: i in todo && i < |pcs| && pcs[i].Idle? ==> LeasesBy(acts, from, i) == 0)
  }

  lemma OneEachTurn(earlier: seq<Action>, acts: seq<Action>, from: nat, todo: set<ActorId>, i: ActorId, pcs: seq<Pc>,
                    pcs': seq<Pc>)
    requires OneEach(earlier, from, todo, pcs) && i in todo && i < |pcs| == |pcs'|
    requires from <= |earlier| && |acts| == |earlier| + 1 && earlier <= acts && IsTurnOf(acts[|earlier|], i)
    requires acts[|earlier|].LeaseNext? <==> pcs[i].Idle?
    requires forall k :: 0 <= k < |pcs| && k != i ==> pcs'[k] == pcs[k]
    ensures OneEach(acts, from, if pcs'[i].Idle? then todo - {i} else todo, pcs')
  {
    assert acts[..|acts| - 1] == earlier;
    forall k: ActorId
      ensures LeasesBy(acts, from, k) == LeasesBy(earlier, from, k) + if k == i && pcs[i].Idle? then 1 else 0
    {
    }
  }

  /** One asyncio.gather over the pool: the workers' segments interleave in any order, and
      each worker processes at most one message. */
  method GatherRound(workers: seq<Worker>, now: int, ghost cfg: Config, db: Database, queue: RedisStreamsQueue,
                     store: ArtifactStore, ghost policy: BudgetPolicy, ghost runner: RunnerSpec, ghost start: State,
                     ghost before: seq<Action>)
    returns (any: bool, ghost acts: seq<Action>)
    requires |workers| > 0 && Pool(workers, db, queue, store, policy, runner, cfg) && |before| <= Measure(start)
    requires DrainPath(policy, runner, cfg, start, before, Snap(db, queue, store, AllIdle(|workers|)))
    modifies db, queue, store
    ensures DrainPath(policy, runner, cfg, start, acts, Snap(db, queue, store, AllIdle(|workers|)))
    ensures |acts| <= Measure(start) && before <= acts && (any <==> |before| < |acts|)
    ensures OneEach(acts, |before|, {}, AllIdle(|workers|))
    ensures !any ==> queue.cursor == |queue.entries|
  {
    var n := |workers|;
    var pcs: seq<Pc> := seq(n, _ => Idle);
    assert pcs == AllIdle(n);
    var todo: set<ActorId> := Ids(n);
    any, acts := false, before;
    while todo != {}
      invariant |pcs| == n && (forall i :: i in todo ==> i < n)
                && (forall i: ActorId :: i < n && i !in todo ==> pcs[i] == Idle)
      invariant DrainPath(policy, runner, cfg, start, acts, Snap(db, queue, store, pcs))
      invariant |acts| <= Measure(start) && before <= acts && (any <==> |before| < |acts|)
      invariant OneEach(acts, |before|, todo, pcs)
      invariant !any ==> 0 in todo || queue.cursor == |queue.entries|
      decreases Measure(start) - |acts|, todo
    {
      var i: ActorId :| i in todo;
      if pcs[i].Idle? && queue.cursor == |queue.entries| {
        todo := todo - {i};
      } else {
        pcs, todo, acts := TakeTurnOf(workers, i, pcs, todo, now, cfg, db, queue, store, policy, runner, start, acts,
                                      |before|);
        any := true;
      }
    }
    assert pcs == AllIdle(n);
  }

  /** A turn, after which the worker may be through with its message. */
  method TakeTurnOf(workers: seq<Worker>, i: ActorId, pcs: seq<Pc>, todo: set<ActorId>, now: int, ghost cfg: Config,
                    db: Database, queue: RedisStreamsQueue, store: ArtifactStore, ghost policy: BudgetPolicy,
                    ghost runner: RunnerSpec, ghost start: State, ghost before: seq<Action>, ghost from: nat)
    returns (pcs': seq<Pc>, todo': set<ActorId>, ghost acts: seq<Action>)
    requires i < |workers| == |pcs| && Pool(workers, db, queue, store, policy, runner, cfg)
    requires DrainPath(policy, runner, cfg, start, before, Snap(db, queue, store, pcs))
    requires i in todo && from <= |before| && OneEach(before, from, todo, pcs)
    requires pcs[i].Idle? ==> queue.cursor != |queue.entries|
    modifies db, queue, store
    ensures |pcs'| == |pcs| && forall k :: 0 <= k < |pcs| && k != i ==> pcs'[k] == pcs[k]
    ensures todo' == if pcs'[i].Idle? then todo - {i} else todo
    ensures DrainPath(policy, runner, cfg, start, acts, Snap(db, queue, store, pcs'))
    ensures |acts| == |before| + 1 <= Measure(start) && before <= acts && OneEach(acts, from, todo', pcs')
  {
    pcs', acts := TakeTurn(workers, i, pcs, now, cfg, db, queue, store, policy, runner, start, before);
    OneEachTurn(before, acts, from, todo, i, pcs, pcs');
    todo' := if pcs'[i].Idle? then todo - {i} else todo;
  }

  /** The event loop gives worker i its turn, up to the next await. */
  method TakeTurn(workers: seq<Worker>, i: ActorId, pcs: seq<Pc>, now: int, ghost cfg: Config, db: Database,
                  queue: RedisStreamsQueue, store: ArtifactStore, ghost policy: BudgetPolicy, ghost runner: RunnerSpec,
                  ghost start: State, ghost before: seq<Action>)
    returns (pcs': seq<Pc>, ghost acts: seq<Action>)
    requires i < |workers| == |pcs| && Pool(workers, db, queue, store, policy, runner, cfg)
    requires DrainPath(policy, runner, cfg, start, before, Snap(db, queue, store, pcs))
    requires pcs[i].Idle? ==> queue.cursor != |queue.entries|
    modifies db, queue, store
    ensures |pcs'| == |pcs| && forall k :: 0 <= k < |pcs| && k != i ==> pcs'[k] == pcs[k]
    ensures DrainPath(policy, runner, cfg, start, acts, Snap(db, queue, store, pcs'))
    ensures |acts| == |before| + 1 <= Measure(start) && before <= acts && IsTurnOf(acts[|before|], i)
    ensures acts[|before|].LeaseNext? <==> pcs[i].Idle?
  {
    ghost var s := Snap(db, queue, store, pcs);
    assert pcs[i := pcs[i]] == pcs;
    WorkerFit(policy, runner, cfg, start, before, s, i);
    var pc: Pc;
    ghost var a: Action;
    pc, a := workers[i].Advance(pcs[i], now, cfg, pcs);
    pcs' := pcs[i := pc];
    acts := before + [a];
    TurnTaken(policy, runner, cfg, start, before, s, a, Snap(db, queue, store, pcs'));
  }

  lemma TurnTaken(policy: BudgetPolicy, spec: RunnerSpec, cfg: Config, start: State, before: seq<Action>, s: State,
                  a: Action, s': State)
    requires DrainPath(policy, spec, cfg, start, before, s) && Step(cfg, s, a, s') && Follows(spec.outcome, s, a, s')
    requires cfg.policyOf(a.i) == policy && FromRunner(spec, a)
    ensures DrainPath(policy, spec, cfg, start, before + [a], s') && |before| + 1 <= Measure(start)
  {
    DrainPathSnoc(policy, spec, cfg, start, before, s, a, s');
    DrainPathKeeps(policy, spec, cfg, start, before + [a], s');
  }
}
