/** How many entries one publish can grow into, and how far attempt numbers go. */
module FanOut {
  import opened Domain
  import opened Streams
  import opened Protocol
  import opened Safety
  import opened SingleFlight

  // ----- attempt bounds -----

  /** In every run, every entry and every event that names a leased attempt stays within
      1..maxRetries + 1, and every dead letter belongs to a finalized job and carries
      exactly the last attempt. */
  lemma AttemptBounds(cfg: Config, ss: seq<State>, acts: seq<Action>, k: nat)
    requires Run(cfg, ss, acts) && k < |ss|
    ensures EntriesInv(ss[k]) && EventsInv(ss[k].db) && DlqInv(ss[k])
  {
    RunKeepsInv(cfg, ss, acts);
    assert Inv(ss[k]);
  }

  predicate InPass(pc: Pc) {
    pc.Recovering? || ((pc.Publishing? || pc.DeadLettering? || pc.Acking?) && pc.cont.ToPass?)
  }

  // ----- lineage -----

  /** Every entry but a submitter's continues an older, delivered entry of the same job. */
  ghost predicate Lineage(q: Queue) {
    forall x :: 0 <= x < |q.entries| ==> Linked(q, x)
  }

  ghost predicate Linked(q: Queue, x: EntryId)
    requires x < |q.entries|
  {
    if q.entries[x].origin.FromSubmitter? then q.entries[x].attempt == 1
    else Continues(q, q.entries[x].origin.parent, x)
  }

  ghost predicate Continues(q: Queue, p: EntryId, x: EntryId)
    requires x < |q.entries|
  {
    p < q.cursor && p < |q.entries| && q.entries[p].job == q.entries[x].job
        && q.entries[x].attempt == q.entries[p].attempt + 1
  }

  ghost predicate NoChild(q: Queue, o: Origin) {
    forall x :: 0 <= x < |q.entries| ==> q.entries[x].origin != o
  }

  ghost predicate OneChild(q: Queue, o: Origin) {
    forall x, y ::
      0 <= x < |q.entries| && 0 <= y < |q.entries| && q.entries[x].origin == o && q.entries[y].origin == o ==> x == y
  }

  /** The actor is a worker that may still publish a retry for e. */
  predicate WorksOn(pc: Pc, e: EntryId) {
    ((pc.Leased? || pc.Executing? || pc.Wrote?) && pc.e == e) || (pc.Publishing? && pc.e == e && pc.cont.ToIdle?)
  }

  /** Each entry is leased to one worker once, so it has at most one retry. */
  ghost predicate RetryInv(s: State) {
    && (forall p: EntryId :: OneChild(s.q, FromRetry(p)))
    && (forall i, e: EntryId :: 0 <= i < |s.actors| && WorksOn(s.actors[i], e) ==> NoChild(s.q, FromRetry(e)))
    && (forall i, k, e: EntryId ::
          0 <= i < |s.actors| && 0 <= k < |s.actors| && WorksOn(s.actors[i], e) && WorksOn(s.actors[k], e) ==> i == k)
  }

  /** The actor is a recovery pass that may still publish a requeue for e. */
  predicate MayRequeue(pc: Pc, e: EntryId) {
    match pc
    case Recovering(todo) => e in todo
    case Publishing(x, _, ToPass(rest)) => x == e || e in rest
    case DeadLettering(_, ToPass(rest)) => e in rest
    case Acking(_, _, ToPass(rest)) => e in rest
    case _ => false
  }

  /** One pass at a time, and no pass dies between a requeue and its acknowledgement. */
  ghost predicate CarefulStep(s: State, a: Action) {
    && (a.FindStale? ==> forall i :: 0 <= i < |s.actors| ==> !InPass(s.actors[i]))
    && (a.Crash? && a.i < |s.actors| ==> !(s.actors[a.i].Acking? && s.actors[a.i].published && InPass(s.actors[a.i])))
  }

  /** A requeued entry is acknowledged, or its pass acknowledges it next. */
  ghost predicate RequeueSettled(s: State, p: EntryId) {
    p !in s.q.pending
    || exists i ::
         && 0 <= i < |s.actors| && s.actors[i].Acking? && s.actors[i].published && s.actors[i].e == p
         && InPass(s.actors[i])
  }

  ghost predicate RequeueInv(s: State) {
    && (forall p: EntryId :: OneChild(s.q, FromRecovery(p)))
    && (forall i, k ::
          0 <= i < |s.actors| && 0 <= k < |s.actors| && InPass(s.actors[i]) && InPass(s.actors[k]) ==> i == k)
    && (forall i, e: EntryId :: 0 <= i < |s.actors| && MayRequeue(s.actors[i], e) ==> NoChild(s.q, FromRecovery(e)))
    && (forall i :: 0 <= i < |s.actors| ==> DistinctPc(s.actors[i]))
    && (forall p: EntryId :: NoChild(s.q, FromRecovery(p)) || RequeueSettled(s, p))
  }

  lemma LineageStep(cfg: Config, s: State, a: Action)
    requires QueueInv(s.q) && Lineage(s.q) && Enabled(cfg, s, a) && (!External(a) ==> PcShape(s, s.actors[a.i]))
    ensures Lineage(Next(cfg, s, a).q)
  {
    var q' := Next(cfg, s, a).q;
    forall x | 0 <= x < |q'.entries|
      ensures Linked(q', x)
    {
      assert x < |s.q.entries| ==> Linked(s.q, x);
    }
  }

  lemma AddedEntry(cfg: Config, s: State, a: Action) returns (m: Option<Message>)
    requires Enabled(cfg, s, a)
    ensures Next(cfg, s, a).q.entries == s.q.entries + (if m.Some? then [m.value] else [])
    ensures m.Some? ==> (a.Publish? && m.value == s.actors[a.i].m) || m.value.origin == FromSubmitter
  {
    m := match a
      case Publish(i) => Some(s.actors[i].m)
      case PublishInitial(j) => Some(Message(j, 1, FromSubmitter))
      case _ => None;
  }

  /** What a step does to the entry its actor may still retry. */
  lemma WorksOnChange(cfg: Config, s: State, a: Action, eff: Effect)
    requires Ready(s, a) && !External(a) && eff == EffectOf(cfg, s, a)
    ensures forall e: EntryId :: WorksOn(eff.pc, e) ==> WorksOn(s.actors[a.i], e) || (a.LeaseNext? && e == s.q.cursor)
    ensures a.Publish? ==> forall e: EntryId :: !WorksOn(eff.pc, e)
  {
  }

  lemma RetryStep(cfg: Config, s: State, a: Action, s': State, eff: Effect, m: Option<Message>)
    requires QueueInv(s.q) && Lineage(s.q) && RetryInv(s) && Ready(s, a) && eff == EffectOf(cfg, s, a)
    requires forall i :: 0 <= i < |s.actors| ==> PcShape(s, s.actors[i])
    requires s'.actors == if External(a) then s.actors else s.actors[a.i := eff.pc]
    requires s'.q.entries == s.q.entries + (if m.Some? then [m.value] else [])
    requires m.Some? ==> (a.Publish? && m.value == s.actors[a.i].m) || m.value.origin == FromSubmitter
    ensures RetryInv(s')
  {
    if !External(a) {
      WorksOnChange(cfg, s, a, eff);
      assert PcShape(s, s.actors[a.i]);
    }
    forall i, e: EntryId | 0 <= i < |s.actors| && WorksOn(s.actors[i], e)
      ensures e < s.q.cursor
    {
      assert PcShape(s, s.actors[i]);
    }
    forall p: EntryId
      ensures OneChild(s'.q, FromRetry(p))
    {
      OneChildAfter(s, a, s'.q, m, p);
    }
    forall i, e: EntryId | 0 <= i < |s'.actors| && WorksOn(s'.actors[i], e)
      ensures NoChild(s'.q, FromRetry(e))
    {
      NoChildAfter(cfg, s, a, s', eff, m, i, e);
    }
  }

  lemma OneChildAfter(s: State, a: Action, q': Queue, m: Option<Message>, p: EntryId)
    requires QueueInv(s.q) && RetryInv(s) && Ready(s, a) && (a.Publish? ==> PcShape(s, s.actors[a.i]))
    requires q'.entries == s.q.entries + (if m.Some? then [m.value] else [])
    requires m.Some? ==> (a.Publish? && m.value == s.actors[a.i].m) || m.value.origin == FromSubmitter
    ensures OneChild(q', FromRetry(p))
  {
    assert OneChild(s.q, FromRetry(p));
    if m.Some? && m.value.origin == FromRetry(p) {
      assert WorksOn(s.actors[a.i], p);
      assert NoChild(s.q, FromRetry(p));
    }
  }

  lemma NoChildAfter(cfg: Config, s: State, a: Action, s': State, eff: Effect, m: Option<Message>, i: ActorId,
                     e: EntryId)
    requires QueueInv(s.q) && Lineage(s.q) && RetryInv(s) && Ready(s, a) && eff == EffectOf(cfg, s, a)
    requires a.Publish? ==> PcShape(s, s.actors[a.i])
    requires s'.actors == if External(a) then s.actors else s.actors[a.i := eff.pc]
    requires s'.q.entries == s.q.entries + (if m.Some? then [m.value] else [])
    requires m.Some? ==> (a.Publish? && m.value == s.actors[a.i].m) || m.value.origin == FromSubmitter
    requires i < |s'.actors| && WorksOn(s'.actors[i], e)
    ensures NoChild(s'.q, FromRetry(e))
  {
    if !External(a) && i == a.i {
      WorksOnChange(cfg, s, a, eff);
    }
    forall x | 0 <= x < |s.q.entries|
      ensures s.q.entries[x].origin != FromRetry(s.q.cursor)
    {
      assert Linked(s.q, x);
    }
    assert NoChild(s.q, FromRetry(e));
    assert a.Publish? ==> WorksOn(s.actors[a.i], s.actors[a.i].e) || s.actors[a.i].cont.ToPass?;
  }

  // ----- requeues -----

  lemma PassChange(cfg: Config, s: State, a: Action, eff: Effect)
    requires Ready(s, a) && !External(a) && eff == EffectOf(cfg, s, a) && DistinctPc(s.actors[a.i])
    ensures DistinctPc(eff.pc)
    ensures InPass(eff.pc) ==> InPass(s.actors[a.i]) || a.FindStale?
    ensures forall e: EntryId :: MayRequeue(eff.pc, e) ==>
              MayRequeue(s.actors[a.i], e) || (a.FindStale? && e in StaleFrom(s.q, 0, a.now, a.staleAfter, a.count))
    ensures a.Publish? ==> !MayRequeue(eff.pc, s.actors[a.i].e) || s.actors[a.i].cont.ToIdle?
  {
    HoldChange(cfg, s, a, eff);
  }

  lemma SettledStays(cfg: Config, s: State, a: Action, s': State, eff: Effect, p: EntryId)
    requires QueueInv(s.q) && RequeueSettled(s, p) && p < s.q.cursor && Ready(s, a) && CarefulStep(s, a)
    requires eff == EffectOf(cfg, s, a) && s'.q == ApplyQ(s.q, eff.op)
    requires s'.actors == if External(a) then s.actors else s.actors[a.i := eff.pc]
    ensures RequeueSettled(s', p)
  {
    if p in s.q.pending {
      var i :| 0 <= i < |s.actors| && s.actors[i].Acking? && s.actors[i].published && s.actors[i].e == p
          && InPass(s.actors[i]);
      if External(a) || a.i != i {
        assert s'.actors[i] == s.actors[i];
      }
    }
  }

  /** Entries found stale by a lone pass have not been requeued yet. */
  lemma FreshPass(s: State, e: EntryId)
    requires RequeueInv(s) && e in s.q.pending && forall i :: 0 <= i < |s.actors| ==> !InPass(s.actors[i])
    ensures NoChild(s.q, FromRecovery(e))
  {
    assert NoChild(s.q, FromRecovery(e)) || RequeueSettled(s, e);
  }

  lemma RequeueNoChild(cfg: Config, s: State, a: Action, s': State, eff: Effect, m: Option<Message>, i: ActorId,
                       e: EntryId)
    requires RequeueInv(s) && Ready(s, a) && CarefulStep(s, a) && eff == EffectOf(cfg, s, a)
    requires a.Publish? ==> OriginFits(s, s.actors[a.i])
    requires s'.actors == if External(a) then s.actors else s.actors[a.i := eff.pc]
    requires s'.q.entries == s.q.entries + (if m.Some? then [m.value] else [])
    requires m.Some? ==> (a.Publish? && m.value == s.actors[a.i].m) || m.value.origin == FromSubmitter
    requires i < |s'.actors| && MayRequeue(s'.actors[i], e)
    ensures NoChild(s'.q, FromRecovery(e))
  {
    if !External(a) && i == a.i {
      PassChange(cfg, s, a, eff);
      if a.FindStale? {
        FreshPass(s, e);
      }
    }
    assert NoChild(s.q, FromRecovery(e));
    assert a.Publish? ==> InPass(s.actors[a.i]) || s.actors[a.i].cont.ToIdle?;
  }

  /** The origin of the message that a publisher holds. */
  ghost predicate OriginFits(s: State, pc: Pc) {
    pc.Publishing? ==> pc.m.origin == if pc.cont.ToIdle? then FromRetry(pc.e) else FromRecovery(pc.e)
  }

  lemma RequeueOneChild(s: State, a: Action, q': Queue, m: Option<Message>, p: EntryId)
    requires RequeueInv(s) && Ready(s, a) && (a.Publish? ==> OriginFits(s, s.actors[a.i]))
    requires q'.entries == s.q.entries + (if m.Some? then [m.value] else [])
    requires m.Some? ==> (a.Publish? && m.value == s.actors[a.i].m) || m.value.origin == FromSubmitter
    ensures OneChild(q', FromRecovery(p))
  {
    assert OneChild(s.q, FromRecovery(p));
    if m.Some? && m.value.origin == FromRecovery(p) {
      assert MayRequeue(s.actors[a.i], p);
      assert NoChild(s.q, FromRecovery(p));
    }
  }

  lemma RequeueSettledStep(cfg: Config, s: State, a: Action, s': State, eff: Effect, m: Option<Message>, p: EntryId)
    requires QueueInv(s.q) && RequeueInv(s) && Lineage(s.q) && Ready(s, a) && CarefulStep(s, a)
             && eff == EffectOf(cfg, s, a)
    requires a.Publish? ==> OriginFits(s, s.actors[a.i])
    requires s'.q == ApplyQ(s.q, eff.op)
    requires s'.actors == if External(a) then s.actors else s.actors[a.i := eff.pc]
    requires s'.q.entries == s.q.entries + (if m.Some? then [m.value] else [])
    requires m.Some? ==> (a.Publish? && m.value == s.actors[a.i].m) || m.value.origin == FromSubmitter
    ensures NoChild(s'.q, FromRecovery(p)) || RequeueSettled(s', p)
  {
    if NoChild(s.q, FromRecovery(p)) {
      if m.Some? && m.value.origin == FromRecovery(p) {
        var pc := s'.actors[a.i];
        assert pc.Acking? && pc.published && pc.e == p && InPass(pc);
      }
    } else {
      var x :| 0 <= x < |s.q.entries| && s.q.entries[x].origin == FromRecovery(p);
      assert Linked(s.q, x);
      SettledStays(cfg, s, a, s', eff, p);
    }
  }

  lemma RequeueStep(cfg: Config, s: State, a: Action, s': State, eff: Effect, m: Option<Message>)
    requires QueueInv(s.q) && RequeueInv(s) && Lineage(s.q) && Ready(s, a) && CarefulStep(s, a)
             && eff == EffectOf(cfg, s, a)
    requires a.Publish? ==> OriginFits(s, s.actors[a.i])
    requires s'.q == ApplyQ(s.q, eff.op)
    requires s'.actors == if External(a) then s.actors else s.actors[a.i := eff.pc]
    requires s'.q.entries == s.q.entries + (if m.Some? then [m.value] else [])
    requires m.Some? ==> (a.Publish? && m.value == s.actors[a.i].m) || m.value.origin == FromSubmitter
    ensures RequeueInv(s')
  {
    if !External(a) {
      PassChange(cfg, s, a, eff);
    }
    forall p: EntryId
      ensures OneChild(s'.q, FromRecovery(p)) && (NoChild(s'.q, FromRecovery(p)) || RequeueSettled(s', p))
    {
      RequeueOneChild(s, a, s'.q, m, p);
      RequeueSettledStep(cfg, s, a, s', eff, m, p);
    }
    forall i, e: EntryId | 0 <= i < |s'.actors| && MayRequeue(s'.actors[i], e)
      ensures NoChild(s'.q, FromRecovery(e))
    {
      RequeueNoChild(cfg, s, a, s', eff, m, i, e);
    }
  }

  // ----- whole runs -----

  ghost predicate CarefulRun(cfg: Config, ss: seq<State>, acts: seq<Action>) {
    Run(cfg, ss, acts) && forall k :: 0 <= k < |acts| ==> CarefulStep(ss[k], acts[k])
  }

  ghost predicate FanInv(s: State) {
    Lineage(s.q) && RetryInv(s) && RequeueInv(s)
  }

  lemma FanStep(cfg: Config, s: State, a: Action, s': State)
    requires QueueInv(s.q) && forall i :: 0 <= i < |s.actors| ==> PcShape(s, s.actors[i])
    requires FanInv(s) && Enabled(cfg, s, a) && s' == Next(cfg, s, a) && CarefulStep(s, a)
    ensures FanInv(s')
  {
    var m := AddedEntry(cfg, s, a);
    EffectSummary(cfg, s, a);
    var eff := EffectOf(cfg, s, a);
    if !External(a) {
      assert PcShape(s, s.actors[a.i]);
    }
    LineageStep(cfg, s, a);
    RetryStep(cfg, s, a, s', eff, m);
    RequeueStep(cfg, s, a, s', eff, m);
  }

  lemma {:induction false} FanUntil(cfg: Config, ss: seq<State>, acts: seq<Action>, k: nat)
    requires CarefulRun(cfg, ss, acts) && k <= |acts|
    ensures Inv(ss[k]) && FanInv(ss[k])
  {
    RunKeepsInv(cfg, ss, acts);
    assert Inv(ss[k]);
    if k > 0 {
      FanUntil(cfg, ss, acts, k - 1);
      assert Step(cfg, ss[k - 1], acts[k - 1], ss[k]);
      FanStep(cfg, ss[k - 1], acts[k - 1], ss[k]);
    }
  }

  // ----- counting -----

  ghost function Generation(q: Queue, j: JobId, a: nat): set<nat> {
    set e: nat | e < |q.entries| && q.entries[e].job == j && q.entries[e].attempt == a
  }

  ghost function UpTo(q: Queue, j: JobId, a: nat): set<nat> {
    set e: nat | e < |q.entries| && q.entries[e].job == j && q.entries[e].attempt <= a
  }

  ghost function Initial(q: Queue, j: JobId): set<nat> {
    set e: nat | e < |q.entries| && q.entries[e].job == j && q.entries[e].origin == FromSubmitter
  }

  lemma {:induction false} InjectionBound(xs: set<nat>, ys: set<nat>, f: nat -> nat)
    requires forall x :: x in xs ==> f(x) in ys
    requires forall x, y :: x in xs && y in xs && f(x) == f(y) ==> x == y
    ensures |xs| <= |ys|
    decreases xs
  {
    if xs != {} {
      var x :| x in xs;
      InjectionBound(xs - {x}, ys - {f(x)}, f);
    }
  }

  ghost predicate OneChildEach(q: Queue) {
    forall p: EntryId :: OneChild(q, FromRetry(p)) && OneChild(q, FromRecovery(p))
  }

  ghost function Parent(q: Queue, x: nat): nat {
    if x < |q.entries| && !q.entries[x].origin.FromSubmitter? then q.entries[x].origin.parent else 0
  }

  /** The children of one kind inject into their parents' generation. */
  lemma ChildrenBound(q: Queue, j: JobId, a: nat, children: set<nat>, retried: bool)
    requires OneChildEach(q)
    requires forall x :: x in children ==>
               && x < |q.entries|
               && (if retried then q.entries[x].origin.FromRetry? else q.entries[x].origin.FromRecovery?)
               && Parent(q, x) in Generation(q, j, a)
    ensures |children| <= |Generation(q, j, a)|
  {
    forall x, y | x in children && y in children && Parent(q, x) == Parent(q, y)
      ensures x == y
    {
      var p := Parent(q, x);
      assert OneChild(q, FromRetry(p)) && OneChild(q, FromRecovery(p));
    }
    InjectionBound(children, Generation(q, j, a), x => Parent(q, x));
  }

  lemma ParentsGeneration(q: Queue, j: JobId, a: nat, x: nat)
    requires Lineage(q) && a >= 1 && x in Generation(q, j, a + 1)
    ensures !q.entries[x].origin.FromSubmitter? && Parent(q, x) in Generation(q, j, a)
  {
    assert Linked(q, x);
  }

  ghost function Children(q: Queue, j: JobId, a: nat, retried: bool): set<nat> {
    set x | x in Generation(q, j, a + 1)
        && (if retried then q.entries[x].origin.FromRetry? else q.entries[x].origin.FromRecovery?)
  }

  lemma ChildrenOfOneKind(q: Queue, j: JobId, a: nat, retried: bool)
    requires Lineage(q) && OneChildEach(q) && a >= 1
    ensures |Children(q, j, a, retried)| <= |Generation(q, j, a)|
  {
    forall x | x in Children(q, j, a, retried)
      ensures Parent(q, x) in Generation(q, j, a)
    {
      ParentsGeneration(q, j, a, x);
    }
    ChildrenBound(q, j, a, Children(q, j, a, retried), retried);
  }

  lemma GenerationIsChildren(q: Queue, j: JobId, a: nat)
    requires Lineage(q) && a >= 1
    ensures Generation(q, j, a + 1) == Children(q, j, a, true) + Children(q, j, a, false)
  {
    forall x | x in Generation(q, j, a + 1)
      ensures !q.entries[x].origin.FromSubmitter?
    {
      ParentsGeneration(q, j, a, x);
    }
  }

  /** Each entry of one generation has at most two children in the next one. */
  lemma GenerationDoubles(q: Queue, j: JobId, a: nat)
    requires Lineage(q) && OneChildEach(q) && a >= 1
    ensures |Generation(q, j, a + 1)| <= 2 * |Generation(q, j, a)|
  {
    ChildrenOfOneKind(q, j, a, true);
    ChildrenOfOneKind(q, j, a, false);
    GenerationIsChildren(q, j, a);
    UnionSize(Children(q, j, a, true), Children(q, j, a, false));
  }

  lemma UnionSize(xs: set<nat>, ys: set<nat>)
    ensures |xs + ys| <= |xs| + |ys|
  {
    assert xs + ys == xs + (ys - xs);
    SubsetSize(ys - xs, ys);
  }

  ghost predicate AttemptsFromOne(q: Queue) {
    forall e :: 0 <= e < |q.entries| ==> q.entries[e].attempt >= 1
  }

  lemma FirstGeneration(q: Queue, j: JobId)
    requires Lineage(q) && AttemptsFromOne(q)
    ensures UpTo(q, j, 1) <= Initial(q, j) && Generation(q, j, 1) <= Initial(q, j)
  {
    forall e | e in UpTo(q, j, 1)
      ensures e in Initial(q, j)
    {
      assert Linked(q, e);
    }
  }

  ghost function WidthAt(n: nat, a: nat): nat {
    if a <= 1 then n else 2 * WidthAt(n, a - 1)
  }

  ghost function TotalTo(n: nat, a: nat): nat {
    if a == 0 then 0 else TotalTo(n, a - 1) + WidthAt(n, a)
  }

  lemma {:induction false} TotalClosedForm(n: nat, a: nat)
    requires a >= 1
    ensures WidthAt(n, a) == n * Pow2(a - 1) && TotalTo(n, a) == n * (Pow2(a) - 1)
  {
    if a == 1 {
      assert Pow2(1) == 2 && TotalTo(n, 1) == n;
    } else {
      TotalClosedForm(n, a - 1);
      Doubling(n, Pow2(a - 2));
    }
  }

  lemma Doubling(n: nat, p: nat)
    ensures 2 * (n * p) == n * (2 * p) && n * (2 * p - 1) + n * (2 * p) == n * (2 * (2 * p) - 1)
  {
  }

  lemma {:induction false} GenerationBound(q: Queue, j: JobId, a: nat)
    requires Lineage(q) && OneChildEach(q) && AttemptsFromOne(q) && a >= 1
    ensures |Generation(q, j, a)| <= WidthAt(|Initial(q, j)|, a)
    ensures |UpTo(q, j, a)| <= TotalTo(|Initial(q, j)|, a)
  {
    if a == 1 {
      FirstGeneration(q, j);
      SubsetSize(Generation(q, j, 1), Initial(q, j));
      SubsetSize(UpTo(q, j, 1), Initial(q, j));
      assert TotalTo(|Initial(q, j)|, 1) == TotalTo(|Initial(q, j)|, 0) + |Initial(q, j)|;
    } else {
      GenerationBound(q, j, a - 1);
      GenerationDoubles(q, j, a - 1);
      UpToSplits(q, j, a);
    }
  }

  lemma UpToSplits(q: Queue, j: JobId, a: nat)
    requires a >= 1
    ensures |UpTo(q, j, a)| <= |UpTo(q, j, a - 1)| + |Generation(q, j, a)|
  {
    assert UpTo(q, j, a) == UpTo(q, j, a - 1) + Generation(q, j, a);
    UnionSize(UpTo(q, j, a - 1), Generation(q, j, a));
  }

  lemma {:induction false} SubsetSize(xs: set<nat>, ys: set<nat>)
    requires xs <= ys
    ensures |xs| <= |ys|
    decreases xs
  {
    if x :| x in xs {
      SubsetSize(xs - {x}, ys - {x});
    }
  }

  /** Bounded fan-out: with one careful recovery pass at a time, n submitter publishes of
      a job lead to at most n * (2^(maxRetries + 1) - 1) entries, crashes of workers and
      recovery of entries whose worker is still alive included. */
  lemma BoundedFanOut(cfg: Config, ss: seq<State>, acts: seq<Action>, k: nat, j: JobId)
    requires CarefulRun(cfg, ss, acts) && k < |ss| && j in ss[k].db.jobs
    ensures |set e: nat | e < |ss[k].q.entries| && ss[k].q.entries[e].job == j|
         <= |Initial(ss[k].q, j)| * (Pow2(ss[k].db.jobs[j].maxRetries + 1) - 1)
  {
    FanUntil(cfg, ss, acts, k);
    FanOutOf(ss[k], j);
  }

  lemma FanOutOf(s: State, j: JobId)
    requires Inv(s) && FanInv(s) && j in s.db.jobs
    ensures |set e: nat | e < |s.q.entries| && s.q.entries[e].job == j|
         <= |Initial(s.q, j)| * (Pow2(s.db.jobs[j].maxRetries + 1) - 1)
  {
    var last := s.db.jobs[j].maxRetries + 1;
    var all := set e: nat | e < |s.q.entries| && s.q.entries[e].job == j;
    forall e | 0 <= e < |s.q.entries|
      ensures s.q.entries[e].attempt >= 1 && (s.q.entries[e].job == j ==> s.q.entries[e].attempt <= last)
    {
      assert InRange(s.db, s.q.entries[e].job, s.q.entries[e].attempt);
    }
    GenerationBound(s.q, j, last);
    TotalClosedForm(|Initial(s.q, j)|, last);
    assert all == UpTo(s.q, j, last);
  }
}
