/** Fault-free runs: single-flight with no crash, no recovery pass and no cancellation of
    a queued job. Here the event trail of every job follows one grammar, and with a
    deterministic runner it is a function of the job alone. */
module FaultFree {
  import opened Domain
  import opened Store
  import opened Streams
  import opened Protocol
  import opened Safety
  import opened Guard
  import opened SingleFlight

  ghost predicate FaultFreeStep(s: State, a: Action) {
    SingleFlightStep(s, a) && !a.Crash? && !a.FindStale? && !a.CancelQueued?
  }

  ghost predicate FaultFreeRun(cfg: Config, ss: seq<State>, acts: seq<Action>) {
    Run(cfg, ss, acts) && forall k :: 0 <= k < |acts| ==> FaultFreeStep(ss[k], acts[k])
  }

  // ----- trails -----

  /** One entry of a job's trail: the event type, the attempt it names, and for a failure
      whether it is classified as retryable. */
  datatype Mark = Mark(kind: Kind, attempt: nat, retryable: bool)

  function MarkOf(body: Body): Mark {
    Mark(body.Kind(), if body.SubmittedBody? then 0 else body.attempt, body.FailedBody? && body.retryable)
  }

  ghost function Trail(events: seq<Event>, j: JobId): seq<Mark> {
    if events == [] then []
    else
      var last := events[|events| - 1];
      Trail(events[..|events| - 1], j) + if last.job == j then [MarkOf(last.body)] else []
  }

  lemma TrailAppend(events: seq<Event>, x: Event, j: JobId)
    ensures Trail(events + [x], j) == Trail(events, j) + if x.job == j then [MarkOf(x.body)] else []
  {
    assert (events + [x])[..|events|] == events;
  }

  lemma {:induction false} TrailOfNewJob(events: seq<Event>, j: JobId)
    requires forall k :: 0 <= k < |events| ==> events[k].job != j
    ensures Trail(events, j) == []
  {
    if events != [] {
      TrailOfNewJob(events[..|events| - 1], j);
    }
  }

  /** submitted (running retry_scheduled)^n, the i-th pair carrying attempt i. */
  ghost function Cycles(n: nat): seq<Mark> {
    if n == 0 then [Mark(KSubmitted, 0, false)]
    else Cycles(n - 1) + [Mark(KRunning, n, false), Mark(KRetryScheduled, n, false)]
  }

  /** The grammar of a finished job: n failed attempts, then either the dispatch-time
      budget block or a last execution and its final event. */
  ghost predicate Finished(t: seq<Mark>) {
    exists n: nat, last: Mark :: FinishedBy(t, n, last)
  }

  ghost predicate FinishedBy(t: seq<Mark>, n: nat, last: Mark) {
    && last.kind.Final() && last.attempt == n + 1 && (last.retryable ==> last.kind == KFailed)
    && (|| (t == Cycles(n) + [last] && last.kind == KBudgetBlocked)
        || t == Cycles(n) + [Mark(KRunning, n + 1, false), last])
  }

  // ----- the invariant -----

  /** The job of entry e, if it has a row, is not finalized and its trail is t. */
  ghost predicate OpenWith(s: State, e: EntryId, t: seq<Mark>) {
    e < |s.q.entries| && (s.q.entries[e].job in s.db.jobs ==>
      s.q.entries[e].job !in s.db.finals && Trail(s.db.events, s.q.entries[e].job) == t)
  }

  ghost function Before(s: State, e: EntryId): nat
    requires e < |s.q.entries|
  {
    if s.q.entries[e].attempt == 0 then 0 else s.q.entries[e].attempt - 1
  }

  ghost predicate PcTrail(s: State, pc: Pc) {
    match pc
    case Leased(e) => e < |s.q.entries| && OpenWith(s, e, Cycles(Before(s, e)))
    case Executing(e, _) =>
        e < |s.q.entries| && OpenWith(s, e, Cycles(Before(s, e)) + [Mark(KRunning, Before(s, e) + 1, false)])
    case Wrote(e, _, _) =>
        e < |s.q.entries| && OpenWith(s, e, Cycles(Before(s, e)) + [Mark(KRunning, Before(s, e) + 1, false)])
    case Publishing(e, _, cont) => cont.ToIdle? && e < |s.q.entries| && OpenWith(s, e, Cycles(Before(s, e) + 1))
    case Acking(_, _, cont) => cont.ToIdle?
    case Idle => true
    case _ => false
  }

  ghost predicate NoEntryOf(q: Queue, j: JobId) {
    forall e :: 0 <= e < |q.entries| ==> q.entries[e].job != j
  }

  ghost predicate UndeliveredTrails(s: State) {
    forall e :: s.q.cursor <= e < |s.q.entries| ==> OpenWith(s, e, Cycles(Before(s, e)))
  }

  ghost predicate PcTrails(s: State) {
    forall i :: 0 <= i < |s.actors| ==> PcTrail(s, s.actors[i])
  }

  ghost predicate FinalTrails(s: State) {
    forall j :: j in s.db.finals ==> Finished(Trail(s.db.events, j))
  }

  ghost predicate UnpublishedTrails(s: State) {
    forall j :: j in s.db.jobs && NoEntryOf(s.q, j) ==>
      j !in s.db.finals && Trail(s.db.events, j) == Cycles(0)
  }

  ghost predicate TrailInv(s: State) {
    UndeliveredTrails(s) && PcTrails(s) && FinalTrails(s) && UnpublishedTrails(s)
  }

  /** The actor's position says something about the trail of job j. */
  ghost predicate Carries(s: State, pc: Pc, j: JobId) {
    && (pc.Leased? || pc.Executing? || pc.Wrote? || pc.Publishing?)
    && pc.e < |s.q.entries| && s.q.entries[pc.e].job == j
  }

  /** While actor i works on job j, nothing else of the state speaks about j's trail. */
  lemma OnlyCarrier(s: State, i: ActorId, j: JobId)
    requires QueueInv(s.q) && HoldInv(s) && LiveInv(s) && i < |s.actors| && Carries(s, s.actors[i], j)
    ensures forall e :: s.q.cursor <= e < |s.q.entries| ==> s.q.entries[e].job != j
    ensures forall k :: 0 <= k < |s.actors| && k != i ==> !Carries(s, s.actors[k], j)
    ensures !NoEntryOf(s.q, j)
  {
    var x := s.actors[i].e;
    HeldIsLive(s, i, x);
    assert Holds(s.actors[i], x) && x in s.q.pending;
    forall e: nat | s.q.cursor <= e < |s.q.entries|
      ensures s.q.entries[e].job != j
    {
      UndeliveredIsLive(s, e);
    }
    forall k | 0 <= k < |s.actors| && k != i
      ensures !Carries(s, s.actors[k], j)
    {
      if (s.actors[k].Leased? || s.actors[k].Executing? || s.actors[k].Wrote? || s.actors[k].Publishing?)
         && s.actors[k].e < |s.q.entries|
      {
        HeldIsLive(s, k, s.actors[k].e);
        OneHolderPerJob(s, i, x, k, s.actors[k].e);
      }
    }
  }

  lemma UndeliveredIsLive(s: State, e: EntryId)
    requires QueueInv(s.q) && HoldInv(s) && s.q.cursor <= e < |s.q.entries|
    ensures Live(s, e)
  {
    forall k | 0 <= k < |s.actors| && s.actors[k].Acking?
      ensures s.actors[k].e != e
    {
      assert Holds(s.actors[k], s.actors[k].e);
      assert s.actors[k].e in s.q.pending;
    }
  }

  /** Nothing that concerns job j changed. */
  ghost predicate SameFor(db: Db, db': Db, j: JobId) {
    && Trail(db'.events, j) == Trail(db.events, j)
    && (j in db'.finals <==> j in db.finals) && (j in db'.jobs <==> j in db.jobs)
  }

  ghost function TouchedJob(tx: DbOp): Option<JobId> {
    match tx
    case NoTx => None
    case CreateTx(id, _) => Some(id)
    case RecordTx(j, _, _) => Some(j)
    case FinalizeTx(j, _, _) => Some(j)
  }

  /** A transaction on one job leaves the other jobs alone. */
  lemma OtherTrails(db: Db, tx: DbOp, db': Db)
    requires Legal(db, tx) && db' == Apply(db, tx)
    ensures forall j: JobId :: TouchedJob(tx) != Some(j) ==> SameFor(db, db', j)
  {
    if db'.events != db.events {
      var x := db'.events[|db.events|];
      assert db'.events == db.events + [x];
      forall j: JobId
        ensures Trail(db'.events, j) == Trail(db.events, j) + if x.job == j then [MarkOf(x.body)] else []
      {
        TrailAppend(db.events, x, j);
      }
    }
  }

  /** A transaction on a job without a guard row appends its mark to the trail. */
  lemma OwnTrail(db: Db, tx: DbOp, db': Db)
    requires Legal(db, tx) && db' == Apply(db, tx) && (tx.RecordTx? || (tx.FinalizeTx? && tx.job !in db.finals))
    ensures Trail(db'.events, tx.job) == Trail(db.events, tx.job) + [MarkOf(tx.body)]
  {
    TrailAppend(db.events, Event(tx.job, tx.body), tx.job);
  }

  // ----- one step -----

  /** Steps that write no table: the trails stay, entries and positions move. */
  lemma QueueOnlyStep(cfg: Config, s: State, a: Action, s': State, eff: Effect)
    requires QueueInv(s.q) && EntriesInv(s) && TrailInv(s) && Ready(s, a) && FaultFreeStep(s, a)
    requires !External(a) ==> PcShape(s, s.actors[a.i])
    requires eff == EffectOf(cfg, s, a) && eff.tx.NoTx? && s'.db == s.db && s'.q == ApplyQ(s.q, eff.op)
    requires s'.actors == if External(a) then s.actors else s.actors[a.i := eff.pc]
    ensures TrailInv(s')
  {
    if !External(a) {
      assert PcTrail(s, s.actors[a.i]);
    }
    forall i | 0 <= i < |s'.actors|
      ensures PcTrail(s', s'.actors[i])
    {
      if External(a) || i != a.i {
        PcTrailFrame(s, s', s.actors[i]);
      } else {
        QueueOnlyPc(cfg, s, a, s', eff);
      }
    }
    NewEntryTrail(cfg, s, a, s', eff);
    forall j | j in s'.db.jobs && NoEntryOf(s'.q, j)
      ensures j !in s'.db.finals && Trail(s'.db.events, j) == Cycles(0)
    {
      assert forall e :: 0 <= e < |s.q.entries| ==> s'.q.entries[e] == s.q.entries[e];
      assert NoEntryOf(s.q, j);
    }
  }

  /** A new entry starts where the trail of its job has got to. */
  lemma NewEntryTrail(cfg: Config, s: State, a: Action, s': State, eff: Effect)
    requires QueueInv(s.q) && EntriesInv(s) && UndeliveredTrails(s) && UnpublishedTrails(s) && Ready(s, a)
             && FaultFreeStep(s, a)
    requires !External(a) ==> PcShape(s, s.actors[a.i]) && PcTrail(s, s.actors[a.i])
    requires eff == EffectOf(cfg, s, a) && eff.tx.NoTx? && s'.db == s.db && s'.q == ApplyQ(s.q, eff.op)
    ensures UndeliveredTrails(s')
  {
    forall e | s'.q.cursor <= e < |s'.q.entries|
      ensures OpenWith(s', e, Cycles(Before(s', e)))
    {
      if e < |s.q.entries| {
        assert OpenWith(s, e, Cycles(Before(s, e)));
      } else if a.Publish? {
        RetryTrail(s, s.actors[a.i], s', e);
      }
    }
  }

  /** The entry that a worker publishes continues the trail it has written. */
  lemma RetryTrail(s: State, pc: Pc, s': State, e: EntryId)
    requires QueueInv(s.q) && EntriesInv(s) && pc.Publishing? && PcShape(s, pc) && PcTrail(s, pc)
    requires s'.db == s.db && s'.q == ApplyQ(s.q, PublishOp(pc.m)) && e == |s.q.entries|
    ensures OpenWith(s', e, Cycles(Before(s', e)))
  {
    assert InRange(s.db, s.q.entries[pc.e].job, s.q.entries[pc.e].attempt);
  }

  lemma PcTrailFrame(s: State, s': State, pc: Pc)
    requires PcTrail(s, pc) && s.q.entries <= s'.q.entries && s'.db == s.db
    ensures PcTrail(s', pc)
  {
  }

  lemma QueueOnlyPc(cfg: Config, s: State, a: Action, s': State, eff: Effect)
    requires QueueInv(s.q) && TrailInv(s) && Ready(s, a) && FaultFreeStep(s, a) && !External(a)
    requires PcShape(s, s.actors[a.i]) && PcTrail(s, s.actors[a.i])
    requires eff == EffectOf(cfg, s, a) && eff.tx.NoTx? && s'.db == s.db && s.q.entries <= s'.q.entries
    ensures PcTrail(s', eff.pc)
  {
    if a.LeaseNext? {
      assert OpenWith(s, s.q.cursor, Cycles(Before(s, s.q.cursor)));
    }
  }

  /** What the trails say about the jobs that a step does not touch. */
  lemma TrailFrame(s: State, s': State, j: JobId)
    requires TrailInv(s) && s'.q.entries == s.q.entries && s'.q.cursor == s.q.cursor
    requires forall x: JobId :: x != j ==> SameFor(s.db, s'.db, x)
    ensures forall e :: s.q.cursor <= e < |s.q.entries| && s.q.entries[e].job != j ==>
            OpenWith(s', e, Cycles(Before(s', e)))
    ensures forall i :: 0 <= i < |s.actors| && !Carries(s, s.actors[i], j) ==> PcTrail(s', s.actors[i])
    ensures forall x :: x in s'.db.finals && x != j ==> Finished(Trail(s'.db.events, x))
    ensures forall x :: x in s'.db.jobs && NoEntryOf(s'.q, x) && x != j ==>
              x !in s'.db.finals && Trail(s'.db.events, x) == Cycles(0)
  {
    forall e | s.q.cursor <= e < |s.q.entries| && s.q.entries[e].job != j
      ensures OpenWith(s', e, Cycles(Before(s', e)))
    {
      assert SameFor(s.db, s'.db, s.q.entries[e].job);
      assert OpenWith(s, e, Cycles(Before(s, e)));
    }
    forall i | 0 <= i < |s.actors| && !Carries(s, s.actors[i], j)
      ensures PcTrail(s', s.actors[i])
    {
      PcTrailOther(s, s', j, s.actors[i]);
    }
    forall x | x in s'.db.finals && x != j
      ensures Finished(Trail(s'.db.events, x))
    {
      assert SameFor(s.db, s'.db, x);
    }
    forall x | x in s'.db.jobs && NoEntryOf(s'.q, x) && x != j
      ensures x !in s'.db.finals && Trail(s'.db.events, x) == Cycles(0)
    {
      assert SameFor(s.db, s'.db, x) && NoEntryOf(s.q, x);
    }
  }

  lemma PcTrailOther(s: State, s': State, j: JobId, pc: Pc)
    requires PcTrail(s, pc) && !Carries(s, pc, j) && s'.q.entries == s.q.entries
    requires forall x: JobId :: x != j ==> SameFor(s.db, s'.db, x)
    ensures PcTrail(s', pc)
  {
    if pc.Leased? || pc.Executing? || pc.Wrote? || pc.Publishing? {
      assert SameFor(s.db, s'.db, s.q.entries[pc.e].job);
    }
  }

  /** A job row is inserted: a new trail starts with the submitted event. */
  lemma CreateStep(s: State, tx: DbOp, s': State)
    requires QueueInv(s.q) && RowsInv(s.db) && TrailInv(s) && tx.CreateTx? && Legal(s.db, tx)
    requires s'.db == Apply(s.db, tx) && s'.q == s.q && s'.actors == s.actors && NoEntryOf(s.q, tx.id)
    ensures TrailInv(s')
  {
    OtherTrails(s.db, tx, s'.db);
    TrailFrame(s, s', tx.id);
    TrailOfNewJob(s.db.events, tx.id);
    TrailAppend(s.db.events, Event(tx.id, SubmittedBody), tx.id);
    forall e | s.q.cursor <= e < |s.q.entries|
      ensures s.q.entries[e].job != tx.id
    {
    }
  }

  /** A worker's transaction on its own job: only that trail moves. */
  lemma OwnStep(s: State, i: ActorId, tx: DbOp, pc: Pc, s': State)
    requires QueueInv(s.q) && HoldInv(s) && LiveInv(s) && TrailInv(s)
    requires i < |s.actors| && (tx.RecordTx? || tx.FinalizeTx?) && Carries(s, s.actors[i], tx.job)
    requires forall x: JobId :: x != tx.job ==> SameFor(s.db, s'.db, x)
    requires s'.q.entries == s.q.entries && s'.q.cursor == s.q.cursor && s'.actors == s.actors[i := pc]
    requires PcTrail(s', pc) && (tx.job in s'.db.finals ==> Finished(Trail(s'.db.events, tx.job)))
    ensures TrailInv(s')
  {
    OnlyCarrier(s, i, tx.job);
    TrailFrame(s, s', tx.job);
    assert !NoEntryOf(s'.q, tx.job);
  }

  /** The transactions of a fault-free worker fit the grammar. */
  lemma StartTrail(cfg: Config, s: State, i: ActorId, e: EntryId, s': State)
    requires QueueInv(s.q) && EntriesInv(s) && RowsInv(s.db) && Agree(s.db) && StatusBacked(s.db)
    requires e < s.q.cursor && PcTrail(s, Leased(e)) && s'.q.entries == s.q.entries
    requires var eff := StartEffect(cfg, s, i, e); !eff.tx.NoTx? && Legal(s.db, eff.tx) && s'.db == Apply(s.db, eff.tx)
    ensures var eff := StartEffect(cfg, s, i, e);
            && eff.tx.job == s.q.entries[e].job && PcTrail(s', eff.pc)
            && (eff.tx.job in s'.db.finals ==> Finished(Trail(s'.db.events, eff.tx.job)))
  {
    var eff := StartEffect(cfg, s, i, e);
    var n := Before(s, e);
    assert InRange(s.db, s.q.entries[e].job, s.q.entries[e].attempt);
    OwnTrail(s.db, eff.tx, s'.db);
    assert eff.tx.FinalizeTx? ==> FinishedBy(Trail(s'.db.events, eff.tx.job), n, Mark(KBudgetBlocked, n + 1, false));
  }

  /** A transaction on the executing job extends the trail of its entry by one mark. */
  lemma ExecutingTrail(s: State, pc: Pc, tx: DbOp, s': State)
    requires Busy(pc) && PcTrail(s, pc) && s.q.entries[pc.e].job in s.db.jobs
    requires (tx.RecordTx? || tx.FinalizeTx?) && tx.job == s.q.entries[pc.e].job
    requires Legal(s.db, tx) && s'.db == Apply(s.db, tx)
    ensures Trail(s'.db.events, tx.job)
            == Cycles(Before(s, pc.e)) + [Mark(KRunning, Before(s, pc.e) + 1, false), MarkOf(tx.body)]
    ensures tx.RecordTx? ==> tx.job !in s'.db.finals
  {
    OwnTrail(s.db, tx, s'.db);
  }

  lemma FinishTrail(cfg: Config, s: State, i: ActorId, pc: Pc, artifact: Option<Stored>, o: Outcome, s': State,
                    eff: Effect)
    requires QueueInv(s.q) && Busy(pc) && PcShape(s, pc) && PcTrail(s, pc) && s.q.entries[pc.e].attempt >= 1
    requires s'.q.entries == s.q.entries && eff == FinishEffect(cfg, i, s.q.entries[pc.e], pc.e, pc.job, artifact, o)
    requires Legal(s.db, eff.tx) && s'.db == Apply(s.db, eff.tx)
    ensures eff.tx.job == s.q.entries[pc.e].job && PcTrail(s', eff.pc)
    ensures eff.tx.job in s'.db.finals ==> Finished(Trail(s'.db.events, eff.tx.job))
  {
    FinishEffectShape(cfg, i, s.q.entries[pc.e], pc.e, pc.job, artifact, o, eff);
    ShapeTrail(s, pc, s', eff);
  }

  /** A transaction of that shape leaves the trail that the next position calls for. */
  lemma ShapeTrail(s: State, pc: Pc, s': State, eff: Effect)
    requires Busy(pc) && PcTrail(s, pc) && s.q.entries[pc.e].attempt >= 1 && s.q.entries[pc.e].job in s.db.jobs
    requires s'.q.entries == s.q.entries && EffectShape(s.q.entries[pc.e], pc.e, eff)
    requires Legal(s.db, eff.tx) && s'.db == Apply(s.db, eff.tx)
    ensures PcTrail(s', eff.pc)
    ensures eff.tx.job in s'.db.finals ==> Finished(Trail(s'.db.events, eff.tx.job))
  {
    ExecutingTrail(s, pc, eff.tx, s');
    CycleCloses(Before(s, pc.e), MarkOf(eff.tx.body), Trail(s'.db.events, eff.tx.job));
  }

  ghost predicate EffectShape(m: Message, e: EntryId, eff: Effect) {
    && (eff.tx.RecordTx? || eff.tx.FinalizeTx?) && eff.tx.job == m.job
    && (eff.tx.FinalizeTx? ==>
          && eff.pc == Acking(e, false, ToIdle) && MarkOf(eff.tx.body).attempt == m.attempt
          && MarkOf(eff.tx.body).kind.Final())
    && (eff.tx.RecordTx? ==>
          && eff.pc.Publishing? && eff.pc.e == e && eff.pc.cont == ToIdle
          && MarkOf(eff.tx.body) == Mark(KRetryScheduled, m.attempt, false))
  }

  /** What a finishing transaction can look like. */
  lemma FinishEffectShape(cfg: Config, i: ActorId, m: Message, e: EntryId, job: JobRecord, artifact: Option<Stored>,
                          o: Outcome, eff: Effect)
    requires eff == FinishEffect(cfg, i, m, e, job, artifact, o)
    ensures EffectShape(m, e, eff)
  {
  }

  /** An execution's mark either closes a retry cycle or finishes the trail. */
  lemma CycleCloses(n: nat, mark: Mark, t: seq<Mark>)
    requires t == Cycles(n) + [Mark(KRunning, n + 1, false), mark]
    requires mark.attempt == n + 1 && (mark.retryable ==> mark.kind == KFailed)
    ensures mark.kind == KRetryScheduled ==> t == Cycles(n + 1)
    ensures mark.kind.Final() ==> Finished(t)
  {
    assert mark.kind.Final() ==> FinishedBy(t, n, mark);
  }

  /** In a fault-free state only a starting or a finishing worker writes about a job. */
  lemma WhoWrites(cfg: Config, s: State, a: Action, eff: Effect)
    requires Ready(s, a) && FaultFreeStep(s, a) && eff == EffectOf(cfg, s, a)
             && (eff.tx.RecordTx? || eff.tx.FinalizeTx?)
    requires !External(a) ==> PcTrail(s, s.actors[a.i])
    ensures a.Start? || a.Finish?
  {
  }

  lemma StartTxStep(cfg: Config, s: State, a: Action, s': State, eff: Effect)
    requires QueueInv(s.q) && EntriesInv(s) && RowsInv(s.db) && StatusBacked(s.db)
    requires HoldInv(s) && LiveInv(s) && Agree(s.db) && TrailInv(s)
    requires a.Start? && Ready(s, a) && PcShape(s, s.actors[a.i])
    requires eff == StartEffect(cfg, s, a.i, s.actors[a.i].e) && !eff.tx.NoTx?
    requires Legal(s.db, eff.tx) && s'.db == Apply(s.db, eff.tx) && s'.q == ApplyQ(s.q, eff.op)
    requires s'.actors == s.actors[a.i := eff.pc]
    ensures TrailInv(s')
  {
    assert PcTrail(s, s.actors[a.i]);
    StartTrail(cfg, s, a.i, s.actors[a.i].e, s');
    OtherTrails(s.db, eff.tx, s'.db);
    OwnStep(s, a.i, eff.tx, eff.pc, s');
  }

  lemma FinishTxStep(cfg: Config, s: State, a: Action, s': State, eff: Effect, artifact: Option<Stored>)
    requires QueueInv(s.q) && EntriesInv(s) && HoldInv(s) && LiveInv(s) && TrailInv(s)
    requires a.Finish? && Ready(s, a) && PcShape(s, s.actors[a.i])
    requires eff == FinishEffect(cfg, a.i, s.q.entries[s.actors[a.i].e], s.actors[a.i].e, s.actors[a.i].job, artifact,
                                 a.outcome)
    requires Legal(s.db, eff.tx) && s'.db == Apply(s.db, eff.tx) && s'.q == ApplyQ(s.q, eff.op)
    requires s'.actors == s.actors[a.i := eff.pc]
    ensures TrailInv(s')
  {
    var pc := s.actors[a.i];
    assert PcTrail(s, pc);
    assert InRange(s.db, s.q.entries[pc.e].job, s.q.entries[pc.e].attempt);
    FinishTrail(cfg, s, a.i, pc, artifact, a.outcome, s', eff);
    OtherTrails(s.db, eff.tx, s'.db);
    OwnStep(s, a.i, eff.tx, eff.pc, s');
  }

  /** A step that writes no table. */
  lemma QuietTrailStep(cfg: Config, s: State, a: Action, s': State, eff: Effect)
    requires QueueInv(s.q) && EntriesInv(s) && TrailInv(s)
    requires Enabled(cfg, s, a) && FaultFreeStep(s, a) && s' == Next(cfg, s, a)
    requires !External(a) ==> PcShape(s, s.actors[a.i])
    requires eff == EffectOf(cfg, s, a) && eff.tx.NoTx?
    ensures TrailInv(s')
  {
    QueueOnlyStep(cfg, s, a, s', eff);
  }

  /** A step that writes about an existing job. */
  lemma WriteTrailStep(cfg: Config, s: State, a: Action, s': State, eff: Effect)
    requires QueueInv(s.q) && EntriesInv(s) && RowsInv(s.db) && StatusBacked(s.db)
    requires HoldInv(s) && LiveInv(s) && Agree(s.db) && TrailInv(s)
    requires Enabled(cfg, s, a) && FaultFreeStep(s, a) && s' == Next(cfg, s, a)
    requires !External(a) ==> PcShape(s, s.actors[a.i])
    requires eff == EffectOf(cfg, s, a) && (eff.tx.RecordTx? || eff.tx.FinalizeTx?)
    ensures TrailInv(s')
  {
    EffectSummary(cfg, s, a);
    assert !External(a) ==> PcTrail(s, s.actors[a.i]);
    WhoWrites(cfg, s, a, eff);
    if a.Start? {
      StartTxStep(cfg, s, a, s', eff);
    } else {
      var pc := s.actors[a.i];
      FinishTxStep(cfg, s, a, s', eff, if pc.Wrote? then Some(pc.stored) else None);
    }
  }

  lemma TrailStep(cfg: Config, s: State, a: Action, s': State)
    requires QueueInv(s.q) && EntriesInv(s) && RowsInv(s.db) && StatusBacked(s.db)
    requires HoldInv(s) && LiveInv(s) && Agree(s.db) && TrailInv(s)
    requires Enabled(cfg, s, a) && FaultFreeStep(s, a) && s' == Next(cfg, s, a)
    requires !External(a) ==> PcShape(s, s.actors[a.i])
    ensures TrailInv(s')
  {
    var eff := EffectOf(cfg, s, a);
    EffectSummary(cfg, s, a);
    if eff.tx.NoTx? {
      QuietTrailStep(cfg, s, a, s', eff);
    } else if eff.tx.CreateTx? {
      CreateStep(s, eff.tx, s');
    } else {
      WriteTrailStep(cfg, s, a, s', eff);
    }
  }

  // ----- tokens -----

  /** Every pending entry is still in the hands of an actor. */
  ghost predicate PendingHeld(s: State) {
    forall e :: e in s.q.pending ==> HeldBySomeone(s, e)
  }

  ghost predicate HeldBySomeone(s: State, e: EntryId) {
    exists i :: 0 <= i < |s.actors| && Holds(s.actors[i], e)
  }

  /** An entry that is pending keeps some actor busy. */
  lemma NothingPending(s: State)
    requires PendingHeld(s) && Stopped(s)
    ensures s.q.pending == map[]
  {
    assert forall e :: e !in s.q.pending;
  }

  lemma HoldKept(cfg: Config, s: State, a: Action, eff: Effect, e: EntryId)
    requires Ready(s, a) && !External(a) && !a.Crash? && eff == EffectOf(cfg, s, a) && Holds(s.actors[a.i], e)
    ensures Holds(eff.pc, e) || eff.op == AckOp(e)
  {
    if s.actors[a.i].Recovering? && e != s.actors[a.i].todo[0] {
      assert e in s.actors[a.i].todo[1..];
    }
  }

  lemma PendingHeldStep(cfg: Config, s: State, a: Action, s': State, eff: Effect)
    requires PendingHeld(s) && Ready(s, a) && !a.Crash? && eff == EffectOf(cfg, s, a) && s'.q == ApplyQ(s.q, eff.op)
    requires s'.actors == if External(a) then s.actors else s.actors[a.i := eff.pc]
    ensures PendingHeld(s')
  {
    forall e | e in s'.q.pending
      ensures HeldBySomeone(s', e)
    {
      if e in s.q.pending {
        var i :| 0 <= i < |s.actors| && Holds(s.actors[i], e);
        if External(a) || i != a.i {
          assert s'.actors[i] == s.actors[i];
        } else {
          HoldKept(cfg, s, a, eff, e);
          assert Holds(s'.actors[i], e);
        }
      } else {
        assert Holds(s'.actors[a.i], e);
      }
    }
  }

  ghost predicate FaultFreeInv(s: State) {
    Inv(s) && SfInv(s) && TrailInv(s) && PendingHeld(s)
  }

  lemma FaultFreeTrails(cfg: Config, s: State, a: Action, s': State)
    requires FaultFreeInv(s) && Enabled(cfg, s, a) && FaultFreeStep(s, a) && s' == Next(cfg, s, a)
    ensures TrailInv(s') && PendingHeld(s')
  {
    TrailStep(cfg, s, a, s');
    EffectSummary(cfg, s, a);
    PendingHeldStep(cfg, s, a, s', EffectOf(cfg, s, a));
  }

  lemma FaultFreeInvStep(cfg: Config, s: State, a: Action, s': State)
    requires FaultFreeInv(s) && FaultFreeStep(s, a) && Step(cfg, s, a, s')
    ensures FaultFreeInv(s')
  {
    InvStep(cfg, s, a);
    SfStep(cfg, s, a, s');
    FaultFreeTrails(cfg, s, a, s');
  }

  lemma FaultFreeInit(s: State)
    requires Init(s)
    ensures FaultFreeInv(s)
  {
    InitInv(s);
  }

  lemma {:induction false} FaultFreeUntil(cfg: Config, ss: seq<State>, acts: seq<Action>, k: nat)
    requires FaultFreeRun(cfg, ss, acts) && k <= |acts|
    ensures FaultFreeInv(ss[k])
  {
    if k == 0 {
      FaultFreeInit(ss[0]);
    } else {
      FaultFreeUntil(cfg, ss, acts, k - 1);
      FaultFreeInvStep(cfg, ss[k - 1], acts[k - 1], ss[k]);
    }
  }

  /** A trail that ends in a final mark comes with a final event. */
  lemma {:induction false} FinalMarkHasEvent(events: seq<Event>, j: JobId)
    requires var t := Trail(events, j); t != [] && t[|t| - 1].kind.Final()
    ensures exists k :: 0 <= k < |events| && events[k].job == j && events[k].body.Kind().Final()
  {
    var n := |events| - 1;
    if events[n].job != j {
      FinalMarkHasEvent(events[..n], j);
      var k :| 0 <= k < n && events[..n][k].job == j && events[..n][k].body.Kind().Final();
      assert events[k].job == j;
    }
  }

  lemma FinishedHasGuardRow(db: Db, j: JobId)
    requires RowsInv(db) && Finished(Trail(db.events, j))
    ensures j in db.finals
  {
    FinalMarkHasEvent(db.events, j);
  }

  /** A job of a fault-free run has a guard row if and only if its trail is one of the
      grammar. */
  lemma EventTrailGrammar(cfg: Config, ss: seq<State>, acts: seq<Action>, k: nat, j: JobId)
    requires FaultFreeRun(cfg, ss, acts) && k < |ss|
    ensures j in ss[k].db.finals <==> Finished(Trail(ss[k].db.events, j))
  {
    FaultFreeUntil(cfg, ss, acts, k);
    if Finished(Trail(ss[k].db.events, j)) {
      FinishedHasGuardRow(ss[k].db, j);
    }
  }

  /** An actor whose only remaining work on e is to acknowledge it. */
  ghost predicate AboutToAck(s: State, e: EntryId) {
    exists i :: 0 <= i < |s.actors| && s.actors[i].Acking? && s.actors[i].e == e
  }

  ghost predicate TokenOf(s: State, j: JobId, e: EntryId) {
    Live(s, e) && s.q.entries[e].job == j
  }

  /** Token conservation: a published job that is not finalized has exactly one live
      entry; the live entry of a finalized job only waits for its acknowledgement. */
  lemma TokenConservation(cfg: Config, ss: seq<State>, acts: seq<Action>, k: nat, j: JobId)
    requires FaultFreeRun(cfg, ss, acts) && k < |ss| && j in ss[k].db.jobs && !NoEntryOf(ss[k].q, j)
    ensures j !in ss[k].db.finals ==>
              exists e: nat :: TokenOf(ss[k], j, e) && forall x: nat :: TokenOf(ss[k], j, x) ==> x == e
    ensures j in ss[k].db.finals ==> forall x: nat :: TokenOf(ss[k], j, x) ==> AboutToAck(ss[k], x)
  {
    var s := ss[k];
    FaultFreeUntil(cfg, ss, acts, k);
    if j !in s.db.finals {
      var e := NewestOf(s.q, j);
      OpenIsLive(s);
      assert TokenOf(s, j, e);
    } else {
      forall x: nat | TokenOf(s, j, x)
        ensures AboutToAck(s, x)
      {
        FinalizedTokenWaits(s, x);
      }
    }
  }

  lemma FinalizedTokenWaits(s: State, x: EntryId)
    requires RowsInv(s.db) && QueueInv(s.q) && TrailInv(s) && PendingHeld(s)
    requires Live(s, x) && s.q.entries[x].job in s.db.finals
    ensures AboutToAck(s, x)
  {
    assert x >= s.q.cursor ==> OpenWith(s, x, Cycles(Before(s, x)));
    assert HeldBySomeone(s, x);
    var i :| 0 <= i < |s.actors| && Holds(s.actors[i], x);
    assert PcTrail(s, s.actors[i]);
  }

  lemma {:induction false} NewestOf(q: Queue, j: JobId) returns (e: EntryId)
    requires !NoEntryOf(q, j)
    ensures Newest(q, e) && q.entries[e].job == j
    decreases |q.entries|
  {
    var n := |q.entries| - 1;
    if q.entries[n].job == j {
      e := n;
    } else {
      e := NewestOf(q.(entries := q.entries[..n]), j);
      assert q.entries[e] == q.entries[..n][e];
      forall x | e < x < |q.entries|
        ensures q.entries[x].job != j
      {
        assert x < n ==> q.entries[..n][x] == q.entries[x];
      }
    }
  }
}
