/** What holds in every reachable state of every run: crashes anywhere, duplicate
    publishes, false staleness and cancellation at any time included. */
module Safety {
  import opened Domain
  import opened Store
  import opened Streams
  import opened Protocol

  ghost predicate ContShape(s: State, cont: Cont) {
    cont.ToPass? ==> forall k :: 0 <= k < |cont.rest| ==> cont.rest[k] < s.q.cursor
  }

  /** What an actor's position says about the entry and the job it works on. */
  ghost predicate PcShape(s: State, pc: Pc)
    requires s.q.cursor <= |s.q.entries|
  {
    match pc
    case Idle => true
    case Leased(e) => e < s.q.cursor
    case Executing(e, job) => Snapshot(s, e, job)
    case Wrote(e, job, _) => Snapshot(s, e, job)
    case Recovering(todo) => forall k :: 0 <= k < |todo| ==> todo[k] < s.q.cursor
    case Publishing(e, m, cont) =>
      && e < s.q.cursor && m.job == s.q.entries[e].job && m.attempt == s.q.entries[e].attempt + 1
      && m.job in s.db.jobs && m.attempt <= s.db.jobs[m.job].maxRetries + 1
      && m.origin == (if cont.ToIdle? then FromRetry(e) else FromRecovery(e))
      && ContShape(s, cont)
    case DeadLettering(e, cont) =>
      && e < s.q.cursor && s.q.entries[e].job in s.db.finals && s.q.entries[e].job in s.db.jobs
      && s.q.entries[e].attempt == s.db.jobs[s.q.entries[e].job].maxRetries + 1
      && ContShape(s, cont)
    case Acking(e, _, cont) => e < s.q.cursor && Covered(s, e) && ContShape(s, cont)
  }

  ghost predicate Snapshot(s: State, e: EntryId, job: JobRecord)
    requires s.q.cursor <= |s.q.entries|
  {
    && e < s.q.cursor && s.q.entries[e].job in s.db.jobs
    && SameExceptStatus(job, s.db.jobs[s.q.entries[e].job])
  }

  /** Dropping entry e loses nothing: its job is finalized, or unknown, or a newer
      entry of the same job exists. */
  ghost predicate Covered(s: State, e: EntryId)
    requires e < |s.q.entries|
  {
    var j := s.q.entries[e].job;
    || j in s.db.finals
    || j !in s.db.jobs
    || exists e' :: e < e' < |s.q.entries| && s.q.entries[e'].job == j
  }

  /** Attempt numbers of a job with a row run from 1 to maxRetries + 1. */
  ghost predicate InRange(db: Db, j: JobId, attempt: nat) {
    1 <= attempt && (j in db.jobs ==> attempt <= db.jobs[j].maxRetries + 1)
  }

  ghost predicate EntriesInv(s: State) {
    forall e :: 0 <= e < |s.q.entries| ==> InRange(s.db, s.q.entries[e].job, s.q.entries[e].attempt)
  }

  ghost predicate CoverInv(s: State) {
    forall e :: 0 <= e < |s.q.entries| && Acked(s.q, e) ==> Covered(s, e)
  }

  /** Dead letters belong to finalized jobs and carry the last possible attempt. */
  ghost predicate DlqInv(s: State) {
    forall d :: 0 <= d < |s.q.dlq| ==>
      var x := s.q.dlq[d];
      && x.job in s.db.finals && x.job in s.db.jobs
      && x.attempt == x.attemptCount == s.db.jobs[x.job].maxRetries + 1
  }

  /** Events that name a leased attempt name one in range; only a cancellation of a
      queued job carries attempt 0. */
  ghost predicate EventAttempt(db: Db, x: Event) {
    match x.body
    case SubmittedBody => true
    case CancelledBody(a, false) => a == 0
    case RetryScheduledBody(_, a, next) => InRange(db, x.job, a) && next == a + 1 && InRange(db, x.job, next)
    case StaleRecoveredBody(_, a, next, _) => InRange(db, x.job, a) && next == a + 1 && InRange(db, x.job, next)
    case b => InRange(db, x.job, b.attempt)
  }

  ghost predicate EventsInv(db: Db) {
    forall k :: 0 <= k < |db.events| ==> EventAttempt(db, db.events[k])
  }

  /** What every history leaves in the tables. */
  ghost predicate TablesInv(db: Db) {
    GuardInv(db) && SubmitInv(db) && EventsInv(db)
  }

  /** Tables, stream and actors, except that acknowledged entries are covered. */
  ghost predicate CoreInv(s: State) {
    && TablesInv(s.db) && QueueInv(s.q) && EntriesInv(s) && DlqInv(s)
    && forall i :: 0 <= i < |s.actors| ==> PcShape(s, s.actors[i])
  }

  ghost predicate Inv(s: State) {
    CoreInv(s) && CoverInv(s)
  }

  // ----- one step -----

  /** What a step never takes back. */
  ghost predicate Extends(s: State, s': State) {
    && Grows(s.db, s'.db)
    && s.q.entries <= s'.q.entries && s.q.cursor <= s'.q.cursor
    && s.q.cursor <= |s.q.entries| && s'.q.cursor <= |s'.q.entries|
    && (forall e :: 0 <= e < |s.q.entries| && s.q.entries[e].job in s'.db.jobs ==> s.q.entries[e].job in s.db.jobs)
  }

  lemma NextExtends(cfg: Config, s: State, a: Action)
    requires QueueInv(s.q) && Enabled(cfg, s, a)
    ensures Extends(s, Next(cfg, s, a)) && QueueInv(Next(cfg, s, a).q)
  {
    ApplyGrows(s.db, EffectOf(cfg, s, a).tx);
    ApplyKeepsQueueInv(s.q, EffectOf(cfg, s, a).op);
  }

  lemma CoveredStays(s: State, s': State, e: EntryId)
    requires Extends(s, s') && e < |s.q.entries| && Covered(s, e)
    ensures Covered(s', e)
  {
    if e' :| e < e' < |s.q.entries| && s.q.entries[e'].job == s.q.entries[e].job {
      assert s'.q.entries[e'].job == s'.q.entries[e].job;
    }
  }

  lemma PcShapeStays(s: State, s': State, pc: Pc)
    requires Extends(s, s') && PcShape(s, pc)
    ensures PcShape(s', pc)
  {
    if pc.Acking? {
      CoveredStays(s, s', pc.e);
    }
  }

  /** What an effect may write, judged in the state it starts from. */
  ghost predicate GoodTx(s: State, tx: DbOp) {
    match tx
    case NoTx => true
    case CreateTx(_, _) => true
    case RecordTx(j, _, body) => EventAttempt(s.db, Event(j, body))
    case FinalizeTx(j, _, body) => EventAttempt(s.db, Event(j, body))
  }

  ghost predicate GoodOp(s: State, tx: DbOp, op: QueueOp)
    requires s.q.cursor <= |s.q.entries|
  {
    match op
    case PublishOp(m) => InRange(s.db, m.job, m.attempt)
    case AckOp(e) =>
      e < s.q.cursor && (Covered(s, e) || (tx.FinalizeTx? && tx.job == s.q.entries[e].job))
    case DeadLetterOp(d) =>
      && d.job in s.db.finals && d.job in s.db.jobs
      && d.attempt == d.attemptCount == s.db.jobs[d.job].maxRetries + 1
    case _ => true
  }

  /** The entry that an acting actor is about to handle. */
  ghost function Subject(pc: Pc): Option<EntryId> {
    match pc
    case Idle => None
    case Recovering(todo) => if todo == [] then None else Some(todo[0])
    case _ => Some(pc.e)
  }

  lemma GoodEffect(cfg: Config, s: State, a: Action)
    requires QueueInv(s.q) && EntriesInv(s) && Enabled(cfg, s, a) && (!External(a) ==> PcShape(s, s.actors[a.i]))
    ensures var eff := EffectOf(cfg, s, a); GoodTx(s, eff.tx) && GoodOp(s, eff.tx, eff.op)
  {
    if !External(a) && Subject(s.actors[a.i]).Some? {
      var e := Subject(s.actors[a.i]).value;
      assert InRange(s.db, s.q.entries[e].job, s.q.entries[e].attempt);
    }
  }

  lemma StartPc(cfg: Config, s: State, i: ActorId, e: EntryId, s': State)
    requires QueueInv(s.q) && StatusBacked(s.db) && e < s.q.cursor && Extends(s, s')
    ensures PcShape(s', StartEffect(cfg, s, i, e).pc)
  {
  }

  lemma PlanPc(s: State, i: ActorId, e: EntryId, rest: seq<EntryId>, s': State)
    requires QueueInv(s.q) && StatusBacked(s.db) && e < s.q.cursor && Extends(s, s')
    requires InRange(s.db, s.q.entries[e].job, s.q.entries[e].attempt)
    requires forall k :: 0 <= k < |rest| ==> rest[k] < s.q.cursor
    requires PlanEffect(s, i, e, rest).tx.FinalizeTx? ==> s.q.entries[e].job in s'.db.finals
    ensures PcShape(s', PlanEffect(s, i, e, rest).pc)
  {
  }

  lemma FinishPc(cfg: Config, s: State, i: ActorId, pc: Pc, o: Outcome, s': State)
    requires QueueInv(s.q) && (pc.Executing? || pc.Wrote?) && PcShape(s, pc) && Extends(s, s')
    requires var eff := FinishEffect(cfg, i, s.q.entries[pc.e], pc.e, pc.job, None, o);
             eff.tx.FinalizeTx? ==> s.q.entries[pc.e].job in s'.db.finals
    ensures PcShape(s', FinishEffect(cfg, i, s.q.entries[pc.e], pc.e, pc.job, None, o).pc)
  {
  }

  /** The position that the acting actor moves to fits the new state. */
  lemma NewPcShape(cfg: Config, s: State, a: Action, s': State, eff: Effect)
    requires QueueInv(s.q) && EntriesInv(s) && StatusBacked(s.db) && Extends(s, s')
    requires Ready(s, a) && !External(a) && PcShape(s, s.actors[a.i]) && eff == EffectOf(cfg, s, a)
    requires eff.tx.FinalizeTx? ==> eff.tx.job in s'.db.finals
    requires s'.q == ApplyQ(s.q, eff.op)
    ensures PcShape(s', eff.pc)
  {
    var pc := s.actors[a.i];
    match a {
      case Start(i) => StartPc(cfg, s, i, pc.e, s');
      case Plan(i) =>
        assert InRange(s.db, s.q.entries[pc.todo[0]].job, s.q.entries[pc.todo[0]].attempt);
        PlanPc(s, i, pc.todo[0], pc.todo[1..], s');
      case Finish(i, o) => FinishPc(cfg, s, i, pc, o, s');
      case Publish(_) =>
        assert s'.q.entries[|s.q.entries|] == pc.m;
        assert Covered(s', pc.e);
      case _ => PcShapeStays(s, s', pc);
    }
  }

  lemma EntriesStep(s: State, s': State, tx: DbOp, op: QueueOp)
    requires QueueInv(s.q) && EntriesInv(s) && Extends(s, s') && GoodOp(s, tx, op) && s'.q == ApplyQ(s.q, op)
    requires forall j :: j in s'.db.jobs && j !in s.db.jobs ==> !op.PublishOp?
    ensures EntriesInv(s')
  {
    forall e | 0 <= e < |s'.q.entries|
      ensures InRange(s'.db, s'.q.entries[e].job, s'.q.entries[e].attempt)
    {
      if e < |s.q.entries| {
        assert InRange(s.db, s.q.entries[e].job, s.q.entries[e].attempt);
      }
    }
  }

  lemma CoverStep(s: State, s': State, tx: DbOp, op: QueueOp)
    requires QueueInv(s.q) && CoverInv(s) && Extends(s, s') && GoodOp(s, tx, op) && s'.q == ApplyQ(s.q, op)
    requires tx.FinalizeTx? ==> tx.job in s'.db.finals
    ensures CoverInv(s')
  {
    forall e | 0 <= e < |s'.q.entries| && Acked(s'.q, e)
      ensures Covered(s', e)
    {
      if Acked(s.q, e) || Covered(s, e) {
        CoveredStays(s, s', e);
      }
    }
  }

  lemma DlqStep(s: State, s': State, tx: DbOp, op: QueueOp)
    requires QueueInv(s.q) && DlqInv(s) && Extends(s, s') && GoodOp(s, tx, op) && s'.q == ApplyQ(s.q, op)
    ensures DlqInv(s')
  {
  }

  lemma EventsStep(db: Db, tx: DbOp)
    requires EventsInv(db) && Legal(db, tx) && GuardInv(db)
    requires tx.RecordTx? || tx.FinalizeTx? ==> EventAttempt(db, Event(tx.job, tx.body))
    ensures EventsInv(Apply(db, tx))
  {
    var db' := Apply(db, tx);
    ApplyGrows(db, tx);
    forall k | 0 <= k < |db'.events|
      ensures EventAttempt(db', db'.events[k])
    {
      if k < |db.events| {
        assert db'.events[k] == db.events[k];
        assert EventAttempt(db, db.events[k]);
      }
    }
  }

  lemma CoreData(s: State, s': State, tx: DbOp, op: QueueOp)
    requires TablesInv(s.db) && QueueInv(s.q) && EntriesInv(s) && DlqInv(s)
    requires Extends(s, s') && Legal(s.db, tx) && GoodTx(s, tx) && GoodOp(s, tx, op)
    requires s'.db == Apply(s.db, tx) && s'.q == ApplyQ(s.q, op) && (op.PublishOp? ==> tx.NoTx?)
    ensures TablesInv(s'.db) && EntriesInv(s') && DlqInv(s')
  {
    ApplyKeepsGuardInv(s.db, tx);
    ApplyKeepsOneSubmittedEvent(s.db, tx);
    ApplyKeepsUniqueKeys(s.db, tx);
    EntriesStep(s, s', tx, op);
    DlqStep(s, s', tx, op);
    EventsStep(s.db, tx);
  }

  lemma PcsStep(cfg: Config, s: State, a: Action)
    requires QueueInv(s.q) && EntriesInv(s) && StatusBacked(s.db) && Enabled(cfg, s, a)
    requires forall i :: 0 <= i < |s.actors| ==> PcShape(s, s.actors[i])
    ensures QueueInv(Next(cfg, s, a).q)
    ensures forall i :: 0 <= i < |s.actors| ==> PcShape(Next(cfg, s, a), Next(cfg, s, a).actors[i])
  {
    var s' := Next(cfg, s, a);
    NextExtends(cfg, s, a);
    if !External(a) {
      NewPcShape(cfg, s, a, s', EffectOf(cfg, s, a));
    }
    forall i | 0 <= i < |s.actors|
      ensures PcShape(s', s'.actors[i])
    {
      if External(a) || a.i != i {
        PcShapeStays(s, s', s.actors[i]);
      }
    }
  }

  lemma EffectSummary(cfg: Config, s: State, a: Action)
    requires Enabled(cfg, s, a)
    ensures var eff := EffectOf(cfg, s, a);
            && Legal(s.db, eff.tx) && Next(cfg, s, a).db == Apply(s.db, eff.tx)
            && Next(cfg, s, a).q == ApplyQ(s.q, eff.op) && (eff.op.PublishOp? ==> eff.tx.NoTx?)
  {
  }

  /** A step keeps the core also where the cover is broken. */
  lemma CoreStep(cfg: Config, s: State, a: Action, s': State)
    requires CoreInv(s) && Step(cfg, s, a, s')
    ensures CoreInv(s')
  {
    NextExtends(cfg, s, a);
    GoodEffect(cfg, s, a);
    EffectSummary(cfg, s, a);
    CoreData(s, s', EffectOf(cfg, s, a).tx, EffectOf(cfg, s, a).op);
    PcsStep(cfg, s, a);
  }

  lemma CoverNext(cfg: Config, s: State, a: Action, s': State)
    requires CoreInv(s) && CoverInv(s) && Step(cfg, s, a, s')
    ensures CoverInv(s')
  {
    NextExtends(cfg, s, a);
    GoodEffect(cfg, s, a);
    EffectSummary(cfg, s, a);
    CoverStep(s, s', EffectOf(cfg, s, a).tx, EffectOf(cfg, s, a).op);
  }

  lemma InvStep(cfg: Config, s: State, a: Action)
    requires Inv(s) && Enabled(cfg, s, a)
    ensures Inv(Next(cfg, s, a))
  {
    CoreStep(cfg, s, a, Next(cfg, s, a));
    CoverNext(cfg, s, a, Next(cfg, s, a));
  }

  lemma {:induction false} StepsKeepCore(cfg: Config, ss: seq<State>, acts: seq<Action>, k: nat)
    requires Steps(cfg, ss, acts) && CoreInv(ss[0]) && k <= |acts|
    ensures CoreInv(ss[k])
  {
    if k > 0 {
      StepsKeepCore(cfg, ss, acts, k - 1);
      assert Step(cfg, ss[k - 1], acts[k - 1], ss[k]);
      CoreStep(cfg, ss[k - 1], acts[k - 1], ss[k]);
    }
  }

  // ----- whole runs -----

  lemma {:induction false} StepsKeepInv(cfg: Config, ss: seq<State>, acts: seq<Action>, k: nat)
    requires Steps(cfg, ss, acts) && Inv(ss[0]) && k <= |acts|
    ensures Inv(ss[k])
    decreases k
  {
    if k > 0 {
      StepsKeepInv(cfg, ss, acts, k - 1);
      InvStep(cfg, ss[k - 1], acts[k - 1]);
    }
  }

  /** Any tables, with a fresh stream and idle actors. */
  lemma FreshStreamInv(s: State)
    requires TablesInv(s.db) && s.q == EMPTY_QUEUE && Stopped(s)
    ensures Inv(s)
  {
  }

  lemma InitInv(s: State)
    requires Init(s)
    ensures Inv(s)
  {
  }

  /** The invariant holds in every state of every run. */
  lemma RunKeepsInv(cfg: Config, ss: seq<State>, acts: seq<Action>)
    requires Run(cfg, ss, acts)
    ensures forall k :: 0 <= k < |ss| ==> Inv(ss[k])
  {
    InitInv(ss[0]);
    forall k | 0 <= k < |ss|
      ensures Inv(ss[k])
    {
      StepsKeepInv(cfg, ss, acts, k);
    }
  }

  /** e is the newest entry of its job. */
  ghost predicate Newest(q: Queue, e: EntryId) {
    e < |q.entries| && forall x :: e < x < |q.entries| ==> q.entries[x].job != q.entries[e].job
  }

  /** No work is lost: in every reachable state the newest entry of a job that has a row
      and no finalization is still undelivered or pending. */
  lemma NoWorkLost(cfg: Config, ss: seq<State>, acts: seq<Action>, k: nat, e: EntryId)
    requires Run(cfg, ss, acts) && k < |ss|
    requires Newest(ss[k].q, e)
    requires ss[k].q.entries[e].job in ss[k].db.jobs && ss[k].q.entries[e].job !in ss[k].db.finals
    ensures Unacked(ss[k].q, e)
  {
    RunKeepsInv(cfg, ss, acts);
    assert Inv(ss[k]);
  }
}
