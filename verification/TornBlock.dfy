/** The dispatch budget block acknowledges inside the transaction that it has not committed
    yet. The protocol takes both as one step; this module adds the crash between them, says
    exactly when it loses a job, and exactly what recovery brings back after any number of
    such crashes. */
module TornBlock {
  import opened Domain
  import opened Store
  import opened Streams
  import opened Protocol
  import opened Safety
  import opened SingleFlight
  import opened Guard
  import opened FaultFree
  import opened Drain
  import opened Recovery

  // ----- runs with torn blocks -----

  datatype AnyAction = Proper(a: Action) | Torn(i: ActorId)

  /** Worker i acknowledges a blocked message and crashes before the commit. */
  ghost predicate TornStep(cfg: Config, s: State, i: ActorId, s': State) {
    && i < |s.actors| && s.actors[i].Leased? && s.actors[i].e < |s.q.entries|
    && StartEffect(cfg, s, i, s.actors[i].e).tx.FinalizeTx?
    && s' == s.(q := ApplyQ(s.q, AckOp(s.actors[i].e)), actors := s.actors[i := Idle])
  }

  ghost predicate AnyStep(cfg: Config, s: State, a: AnyAction, s': State) {
    match a
    case Proper(b) => Step(cfg, s, b, s')
    case Torn(i) => TornStep(cfg, s, i, s')
  }

  /** A run in which any block may be torn. */
  ghost predicate TornRun(cfg: Config, ss: seq<State>, acts: seq<AnyAction>) {
    && |ss| == |acts| + 1 && Init(ss[0])
    && forall k :: 0 <= k < |acts| ==> AnyStep(cfg, ss[k], acts[k], ss[k + 1])
  }

  lemma TornKeepsCore(cfg: Config, s: State, i: ActorId, s': State)
    requires CoreInv(s) && TornStep(cfg, s, i, s')
    ensures CoreInv(s')
  {
    forall k | 0 <= k < |s'.actors|
      ensures PcShape(s', s'.actors[k])
    {
      assert PcShape(s, s.actors[k]);
    }
  }

  lemma {:induction false} TornRunKeepsCore(cfg: Config, ss: seq<State>, acts: seq<AnyAction>, k: nat)
    requires TornRun(cfg, ss, acts) && k <= |acts|
    ensures CoreInv(ss[k])
  {
    if k == 0 {
      InitInv(ss[0]);
    } else {
      TornRunKeepsCore(cfg, ss, acts, k - 1);
      assert AnyStep(cfg, ss[k - 1], acts[k - 1], ss[k]);
      match acts[k - 1] {
        case Proper(a) => CoreStep(cfg, ss[k - 1], a, ss[k]);
        case Torn(i) => TornKeepsCore(cfg, ss[k - 1], i, ss[k]);
      }
    }
  }

  // ----- lost jobs -----

  /** The actor can still publish or finalize because of entry e. */
  predicate MayRevive(pc: Pc, e: EntryId) {
    match pc
    case Idle => false
    case Recovering(todo) => e in todo
    case Publishing(x, _, cont) => x == e || InCont(cont, e)
    case DeadLettering(_, cont) => InCont(cont, e)
    case Acking(_, _, cont) => InCont(cont, e)
    case _ => pc.e == e
  }

  ghost predicate EntryOf(q: Queue, j: JobId, e: EntryId) {
    e < |q.entries| && q.entries[e].job == j
  }

  ghost predicate Published(q: Queue, j: JobId) {
    exists e: EntryId :: EntryOf(q, j, e)
  }

  /** Every entry of job j but those in except is acknowledged. */
  ghost predicate AckedBut(q: Queue, j: JobId, except: set<EntryId>) {
    forall e: EntryId :: EntryOf(q, j, e) && e !in except ==> Acked(q, e)
  }

  /** No actor but those in except works on job j. */
  ghost predicate UntendedBut(s: State, j: JobId, except: set<ActorId>) {
    forall i: ActorId :: i < |s.actors| && i !in except ==> !Tends(s, s.actors[i], j)
  }

  ghost predicate Tends(s: State, pc: Pc, j: JobId) {
    exists e: EntryId :: EntryOf(s.q, j, e) && MayRevive(pc, e)
  }

  /** The job was published and still has to be finalized, but the stream holds nothing for
      it any more and no actor works on it. */
  ghost predicate Lost(s: State, j: JobId) {
    && j in s.db.jobs && j !in s.db.finals && Published(s.q, j)
    && AckedBut(s.q, j, {}) && UntendedBut(s, j, {})
  }

  /** A torn block loses the blocked job if and only if the job still has to be finalized,
      its blocked entry is its only unacknowledged one, and nobody else works on the job. It
      loses no other job. */
  lemma TornBlockLosesIff(cfg: Config, ss: seq<State>, acts: seq<AnyAction>, i: ActorId, s': State)
    requires TornRun(cfg, ss, acts) && TornStep(cfg, ss[|acts|], i, s')
    ensures var s := ss[|acts|];
            var e := s.actors[i].e;
            var j := s.q.entries[e].job;
            && (Lost(s', j) <==> j !in s.db.finals && AckedBut(s.q, j, {e}) && UntendedBut(s, j, {i}))
            && forall k: JobId :: k != j ==> (Lost(s', k) <==> Lost(s, k))
  {
    var s := ss[|acts|];
    TornRunKeepsCore(cfg, ss, acts, |acts|);
    assert PcShape(s, s.actors[i]);
    BlockedJob(cfg, s, i, s');
    OtherJobs(cfg, s, i, s');
  }

  lemma BlockedJob(cfg: Config, s: State, i: ActorId, s': State)
    requires QueueInv(s.q) && TornStep(cfg, s, i, s') && s.actors[i].e < s.q.cursor
    ensures var e := s.actors[i].e;
            var j := s.q.entries[e].job;
            Lost(s', j) <==> j !in s.db.finals && AckedBut(s.q, j, {e}) && UntendedBut(s, j, {i})
  {
    var e := s.actors[i].e;
    var j := s.q.entries[e].job;
    SameEntries(s, s');
    assert EntryOf(s'.q, j, e);
    assert forall x: EntryId :: EntryOf(s.q, j, x) && x != e ==> Acked(s'.q, x) == Acked(s.q, x);
    forall k: ActorId | k < |s.actors| && k != i
      ensures Tends(s', s'.actors[k], j) == Tends(s, s.actors[k], j)
    {
      assert s'.actors[k] == s.actors[k];
    }
    assert !Tends(s', s'.actors[i], j);
  }

  lemma SameEntries(s: State, s': State)
    requires s'.q.entries == s.q.entries
    ensures forall j: JobId, e: EntryId :: EntryOf(s'.q, j, e) == EntryOf(s.q, j, e)
    ensures forall pc: Pc, j: JobId :: Tends(s', pc, j) == Tends(s, pc, j)
  {
    forall pc: Pc, j: JobId
      ensures Tends(s', pc, j) == Tends(s, pc, j)
    {
      assert forall e: EntryId :: EntryOf(s'.q, j, e) == EntryOf(s.q, j, e);
    }
  }

  lemma OtherJobs(cfg: Config, s: State, i: ActorId, s': State)
    requires QueueInv(s.q) && TornStep(cfg, s, i, s')
    ensures forall k: JobId :: k != s.q.entries[s.actors[i].e].job ==> (Lost(s', k) <==> Lost(s, k))
  {
    SameEntries(s, s');
    forall k: JobId | k != s.q.entries[s.actors[i].e].job
      ensures Lost(s', k) <==> Lost(s, k)
    {
      OtherJob(s, i, s', k);
    }
  }

  lemma OtherJob(s: State, i: ActorId, s': State, j: JobId)
    requires i < |s.actors| && s.actors[i].Leased? && s.actors[i].e < |s.q.entries|
             && s.q.entries[s.actors[i].e].job != j
    requires s' == s.(q := ApplyQ(s.q, AckOp(s.actors[i].e)), actors := s.actors[i := Idle])
    ensures Lost(s', j) <==> Lost(s, j)
  {
    SameEntries(s, s');
    assert Published(s'.q, j) == Published(s.q, j);
    assert forall e: EntryId :: EntryOf(s.q, j, e) ==> Acked(s'.q, e) == Acked(s.q, e);
    assert !Tends(s, s.actors[i], j) && !Tends(s', s'.actors[i], j);
    assert forall k: ActorId :: k < |s.actors| && k != i ==> s'.actors[k] == s.actors[k];
  }

  // ----- lost jobs stay lost -----

  /** What the acting actor may still revive afterwards. */
  lemma ReviveSource(cfg: Config, s: State, a: Action, eff: Effect, e: EntryId)
    requires Ready(s, a) && !External(a) && eff == EffectOf(cfg, s, a) && MayRevive(eff.pc, e)
    ensures || MayRevive(s.actors[a.i], e)
            || (a.LeaseNext? && e == s.q.cursor)
            || (a.FindStale? && e in StaleFrom(s.q, 0, a.now, a.staleAfter, a.count))
  {
    if a.Plan? {
      var todo := s.actors[a.i].todo;
      assert forall x :: x in todo[1..] ==> x in todo;
    }
  }

  lemma RevivedIsUnacked(cfg: Config, s: State, a: Action, eff: Effect, e: EntryId)
    requires QueueInv(s.q) && Ready(s, a) && !External(a) && eff == EffectOf(cfg, s, a) && MayRevive(eff.pc, e)
    ensures MayRevive(s.actors[a.i], e) || !Acked(s.q, e)
  {
    ReviveSource(cfg, s, a, eff, e);
  }

  lemma FinalizesTended(cfg: Config, s: State, a: Action, eff: Effect)
    requires QueueInv(s.q) && Ready(s, a) && !External(a) && PcShape(s, s.actors[a.i]) && eff == EffectOf(cfg, s, a)
    requires eff.tx.FinalizeTx?
    ensures Tends(s, s.actors[a.i], eff.tx.job)
  {
    FinalizesOwnJob(cfg, s, a, eff);
    var pc := s.actors[a.i];
    assert EntryOf(s.q, eff.tx.job, Subject(pc).value);
    assert MayRevive(pc, Subject(pc).value);
  }

  lemma PublishesTended(cfg: Config, s: State, a: Action, eff: Effect)
    requires QueueInv(s.q) && Ready(s, a) && !External(a) && PcShape(s, s.actors[a.i]) && eff == EffectOf(cfg, s, a)
    requires eff.op.PublishOp?
    ensures Tends(s, s.actors[a.i], eff.op.m.job)
  {
    var pc := s.actors[a.i];
    assert EntryOf(s.q, pc.m.job, pc.e) && MayRevive(pc, pc.e);
  }

  /** A step touches no job that nobody tends. */
  lemma UntendedUntouched(cfg: Config, s: State, a: Action, eff: Effect, j: JobId)
    requires QueueInv(s.q) && Ready(s, a) && eff == EffectOf(cfg, s, a) && (!External(a) ==> PcShape(s, s.actors[a.i]))
    requires UntendedBut(s, j, {}) && a != PublishInitial(j) && a != CancelQueued(j)
    ensures eff.tx.FinalizeTx? ==> eff.tx.job != j
    ensures eff.op.PublishOp? ==> eff.op.m.job != j
  {
    if !External(a) {
      assert !Tends(s, s.actors[a.i], j);
      if eff.tx.FinalizeTx? {
        FinalizesTended(cfg, s, a, eff);
      }
      if eff.op.PublishOp? {
        PublishesTended(cfg, s, a, eff);
      }
    }
  }

  lemma OpenStays(db: Db, tx: DbOp, j: JobId)
    requires Legal(db, tx) && j in db.jobs && j !in db.finals && (tx.FinalizeTx? ==> tx.job != j)
    ensures j in Apply(db, tx).jobs && j !in Apply(db, tx).finals
  {
  }

  lemma EntriesStay(q: Queue, op: QueueOp, j: JobId)
    requires QueueInv(q) && AckedBut(q, j, {}) && Published(q, j) && (op.PublishOp? ==> op.m.job != j)
    ensures forall e: EntryId :: EntryOf(ApplyQ(q, op), j, e) == EntryOf(q, j, e)
    ensures AckedBut(ApplyQ(q, op), j, {}) && Published(ApplyQ(q, op), j)
  {
    var q' := ApplyQ(q, op);
    assert forall e: EntryId :: EntryOf(q', j, e) == EntryOf(q, j, e);
    forall e: EntryId | EntryOf(q, j, e)
      ensures Acked(q', e)
    {
      AckIsForever(q, op, e);
    }
  }

  lemma UntendedStays(cfg: Config, s: State, a: Action, s': State, eff: Effect, j: JobId)
    requires QueueInv(s.q) && Ready(s, a) && eff == EffectOf(cfg, s, a)
    requires s'.actors == if External(a) then s.actors else s.actors[a.i := eff.pc]
    requires AckedBut(s.q, j, {}) && UntendedBut(s, j, {})
    requires forall e: EntryId :: EntryOf(s'.q, j, e) == EntryOf(s.q, j, e)
    ensures UntendedBut(s', j, {})
  {
    forall i: ActorId, e: EntryId | i < |s'.actors| && EntryOf(s.q, j, e)
      ensures !MayRevive(s'.actors[i], e)
    {
      assert Acked(s.q, e) && !Tends(s, s.actors[i], j);
      if MayRevive(s'.actors[i], e) && !External(a) && i == a.i {
        RevivedIsUnacked(cfg, s, a, eff, e);
      }
    }
  }

  lemma LostStep(cfg: Config, s: State, a: Action, s': State, j: JobId)
    requires CoreInv(s) && Lost(s, j) && Step(cfg, s, a, s') && a != PublishInitial(j) && a != CancelQueued(j)
    ensures Lost(s', j)
  {
    var eff := EffectOf(cfg, s, a);
    EffectSummary(cfg, s, a);
    UntendedUntouched(cfg, s, a, eff, j);
    OpenStays(s.db, eff.tx, j);
    EntriesStay(s.q, eff.op, j);
    UntendedStays(cfg, s, a, s', eff, j);
  }

  lemma LostTorn(cfg: Config, s: State, i: ActorId, s': State, j: JobId)
    requires QueueInv(s.q) && Lost(s, j) && TornStep(cfg, s, i, s')
    ensures Lost(s', j)
  {
    assert !Tends(s, s.actors[i], j);
    assert EntryOf(s.q, s.q.entries[s.actors[i].e].job, s.actors[i].e) && MayRevive(s.actors[i], s.actors[i].e);
    OtherJob(s, i, s', j);
  }

  /** Workers, recovery passes, crashes and further torn blocks never bring a lost job back:
      nothing but another publish by a submitter or a cancellation ends its loss. */
  lemma {:induction false} LostForever(cfg: Config, ss: seq<State>, acts: seq<AnyAction>, m: nat, n: nat, j: JobId)
    requires TornRun(cfg, ss, acts) && m <= n <= |acts| && Lost(ss[m], j)
    requires forall k :: m <= k < n ==> acts[k] != Proper(PublishInitial(j)) && acts[k] != Proper(CancelQueued(j))
    ensures Lost(ss[n], j)
    decreases n
  {
    if m < n {
      LostForever(cfg, ss, acts, m, n - 1, j);
      TornRunKeepsCore(cfg, ss, acts, n - 1);
      assert AnyStep(cfg, ss[n - 1], acts[n - 1], ss[n]);
      match acts[n - 1] {
        case Proper(a) => LostStep(cfg, ss[n - 1], a, ss[n], j);
        case Torn(i) => LostTorn(cfg, ss[n - 1], i, ss[n], j);
      }
    }
  }

  // ----- what is not lost comes back -----

  /** Covered by what is not dead: the job of e is finalized or unknown, or has a newer entry
      outside of dead. */
  ghost predicate Alive(dead: set<EntryId>, s: State, e: EntryId)
    requires e < |s.q.entries|
  {
    var j := s.q.entries[e].job;
    || j in s.db.finals
    || j !in s.db.jobs
    || exists x: EntryId :: e < x && EntryOf(s.q, j, x) && x !in dead
  }

  ghost predicate AckedAlive(dead: set<EntryId>, s: State)
    requires QueueInv(s.q)
  {
    forall e: EntryId :: e < |s.q.entries| && Acked(s.q, e) && e !in dead ==> Alive(dead, s, e)
  }

  /** An actor that only has to acknowledge does so for an entry that is covered. */
  ghost predicate AckingAlive(dead: set<EntryId>, s: State, pc: Pc) {
    pc.Acking? ==> pc.e < |s.q.entries| && Alive(dead, s, pc.e)
  }

  ghost predicate AliveInv(dead: set<EntryId>, s: State)
    requires QueueInv(s.q)
  {
    AckedAlive(dead, s) && forall i :: 0 <= i < |s.actors| ==> AckingAlive(dead, s, s.actors[i])
  }

  lemma AliveStays(dead: set<EntryId>, s: State, s': State, e: EntryId)
    requires Extends(s, s') && e < |s.q.entries| && Alive(dead, s, e)
    ensures Alive(dead, s', e)
  {
    if x: EntryId :| e < x && EntryOf(s.q, s.q.entries[e].job, x) && x !in dead {
      assert EntryOf(s'.q, s.q.entries[e].job, x);
    }
  }

  /** Why an actor gets to acknowledging. */
  lemma AckingSource(cfg: Config, s: State, a: Action, eff: Effect)
    requires QueueInv(s.q) && StatusBacked(s.db) && Ready(s, a) && !External(a) && PcShape(s, s.actors[a.i])
    requires eff == EffectOf(cfg, s, a) && eff.pc.Acking?
    ensures eff.pc.e < |s.q.entries|
    ensures var j := s.q.entries[eff.pc.e].job;
            || j in s.db.finals || j !in s.db.jobs
            || (eff.tx.FinalizeTx? && eff.tx.job == j) || (eff.op.PublishOp? && eff.op.m.job == j)
  {
  }

  lemma NewAckingAlive(cfg: Config, dead: set<EntryId>, s: State, a: Action, s': State, eff: Effect)
    requires QueueInv(s.q) && StatusBacked(s.db) && Ready(s, a) && !External(a) && PcShape(s, s.actors[a.i])
    requires eff == EffectOf(cfg, s, a) && Extends(s, s') && s'.q == ApplyQ(s.q, eff.op)
    requires eff.tx.FinalizeTx? ==> eff.tx.job in s'.db.finals
    requires forall e :: e in dead ==> e < |s.q.entries|
    ensures AckingAlive(dead, s', eff.pc)
  {
    if eff.pc.Acking? {
      AckingSource(cfg, s, a, eff);
      var j := s.q.entries[eff.pc.e].job;
      assert s'.q.entries[eff.pc.e].job == j;
      if eff.op.PublishOp? && eff.op.m.job == j {
        assert EntryOf(s'.q, j, |s.q.entries|) && |s.q.entries| !in dead;
      }
    }
  }

  /** Why an entry gets acknowledged. */
  lemma AckSource(cfg: Config, s: State, a: Action, eff: Effect, e: EntryId)
    requires QueueInv(s.q) && Ready(s, a) && eff == EffectOf(cfg, s, a) && (!External(a) ==> PcShape(s, s.actors[a.i]))
    requires Acked(ApplyQ(s.q, eff.op), e) && !Acked(s.q, e)
    ensures e < |s.q.entries|
    ensures || (a.Ack? && s.actors[a.i].Acking? && s.actors[a.i].e == e)
            || (eff.tx.FinalizeTx? && eff.tx.job == s.q.entries[e].job)
  {
  }

  lemma AckedAliveStep(cfg: Config, dead: set<EntryId>, s: State, a: Action, s': State, eff: Effect)
    requires QueueInv(s.q) && Ready(s, a) && eff == EffectOf(cfg, s, a) && (!External(a) ==> PcShape(s, s.actors[a.i]))
    requires AliveInv(dead, s) && Extends(s, s') && s'.q == ApplyQ(s.q, eff.op) && QueueInv(s'.q)
    requires eff.tx.FinalizeTx? ==> eff.tx.job in s'.db.finals
    ensures AckedAlive(dead, s')
  {
    forall e: EntryId | e < |s'.q.entries| && Acked(s'.q, e) && e !in dead
      ensures Alive(dead, s', e)
    {
      if Acked(s.q, e) {
        AliveStays(dead, s, s', e);
      } else {
        AckSource(cfg, s, a, eff, e);
        if a.Ack? {
          assert AckingAlive(dead, s, s.actors[a.i]);
          AliveStays(dead, s, s', e);
        }
      }
    }
  }

  lemma AliveStep(cfg: Config, dead: set<EntryId>, s: State, a: Action, s': State)
    requires CoreInv(s) && AliveInv(dead, s) && Step(cfg, s, a, s')
    requires forall e :: e in dead ==> e < |s.q.entries|
    ensures QueueInv(s'.q) && AliveInv(dead, s')
  {
    var eff := EffectOf(cfg, s, a);
    NextExtends(cfg, s, a);
    EffectSummary(cfg, s, a);
    AckedAliveStep(cfg, dead, s, a, s', eff);
    forall i | 0 <= i < |s'.actors|
      ensures AckingAlive(dead, s', s'.actors[i])
    {
      if External(a) || i != a.i {
        assert AckingAlive(dead, s, s.actors[i]);
        AckingAliveStays(dead, s, s', s.actors[i]);
      } else {
        NewAckingAlive(cfg, dead, s, a, s', eff);
      }
    }
  }

  lemma AckingAliveStays(dead: set<EntryId>, s: State, s': State, pc: Pc)
    requires Extends(s, s') && AckingAlive(dead, s, pc)
    ensures AckingAlive(dead, s', pc)
  {
    if pc.Acking? {
      AliveStays(dead, s, s', pc.e);
    }
  }

  /** What no sequence of the actors' own steps takes back. */
  ghost predicate Onward(dead: set<EntryId>, s: State, s': State) {
    && CoreInv(s') && AliveInv(dead, s')
    && s.q.entries <= s'.q.entries && Grows(s.db, s'.db) && s'.db.jobs.Keys == s.db.jobs.Keys
    && forall j: JobId :: Lost(s, j) ==> Lost(s', j)
  }

  lemma OnwardStep(cfg: Config, dead: set<EntryId>, s: State, a: Action, s': State)
    requires CoreInv(s) && AliveInv(dead, s) && Step(cfg, s, a, s') && !External(a)
    requires forall e :: e in dead ==> e < |s.q.entries|
    ensures Onward(dead, s, s')
  {
    CoreStep(cfg, s, a, s');
    NextExtends(cfg, s, a);
    AliveStep(cfg, dead, s, a, s');
    SameJobs(cfg, s, a, s');
    forall j: JobId | Lost(s, j)
      ensures Lost(s', j)
    {
      LostStep(cfg, s, a, s', j);
    }
  }

  /** Only a submission adds a row. */
  lemma SameJobs(cfg: Config, s: State, a: Action, s': State)
    requires Step(cfg, s, a, s') && !External(a)
    ensures s'.db.jobs.Keys == s.db.jobs.Keys
  {
  }

  lemma OnwardComposes(dead: set<EntryId>, s: State, mid: State, s': State)
    requires Onward(dead, s, mid) && Onward(dead, mid, s')
    ensures Onward(dead, s, s')
  {
    GrowsTransitive(s.db, mid.db, s'.db);
  }

  lemma {:induction false} OnwardThrough(cfg: Config, dead: set<EntryId>, ss: seq<State>, acts: seq<Action>, n: nat)
    requires Steps(cfg, ss, acts) && CoreInv(ss[0]) && AliveInv(dead, ss[0]) && n <= |acts|
    requires forall k :: 0 <= k < |acts| ==> !External(acts[k])
    requires forall e :: e in dead ==> e < |ss[0].q.entries|
    ensures Onward(dead, ss[0], ss[n])
  {
    if n > 0 {
      OnwardThrough(cfg, dead, ss, acts, n - 1);
      assert Step(cfg, ss[n - 1], acts[n - 1], ss[n]);
      OnwardStep(cfg, dead, ss[n - 1], acts[n - 1], ss[n]);
      OnwardComposes(dead, ss[0], ss[n - 1], ss[n]);
    }
  }

  lemma OnwardLeads(cfg: Config, dead: set<EntryId>, s: State, acts: seq<Action>, s': State)
    requires Leads(cfg, s, acts, s') && NoneExternal(acts) && CoreInv(s) && AliveInv(dead, s)
    requires forall e :: e in dead ==> e < |s.q.entries|
    ensures Onward(dead, s, s')
  {
    var ss :| Steps(cfg, ss, acts) && ss[0] == s && ss[|acts|] == s';
    assert forall k :: 0 <= k < |acts| ==> acts[k] in acts;
    OnwardThrough(cfg, dead, ss, acts, |acts|);
  }

  /** A job whose entries are all acknowledged, one of them outside of dead, is finalized. */
  lemma {:induction false} NewestAliveFinalizes(dead: set<EntryId>, s: State, j: JobId, e: EntryId)
    requires QueueInv(s.q) && AckedAlive(dead, s) && j in s.db.jobs && EntryOf(s.q, j, e) && e !in dead
    requires AckedBut(s.q, j, {})
    ensures j in s.db.finals
    decreases |s.q.entries| - e
  {
    assert Alive(dead, s, e);
    if j !in s.db.finals {
      var x: EntryId :| e < x && EntryOf(s.q, j, x) && x !in dead;
      NewestAliveFinalizes(dead, s, j, x);
    }
  }

  /** Without torn blocks no job is ever lost. */
  lemma NothingLostOtherwise(cfg: Config, ss: seq<State>, acts: seq<Action>, k: nat, j: JobId)
    requires Run(cfg, ss, acts) && k < |ss|
    ensures !Lost(ss[k], j)
  {
    RunKeepsInv(cfg, ss, acts);
    assert Inv(ss[k]);
    CoveredIsAlive(ss[k]);
    if Lost(ss[k], j) {
      var e: EntryId :| EntryOf(ss[k].q, j, e);
      NewestAliveFinalizes({}, ss[k], j, e);
    }
  }

  lemma CoveredIsAlive(s: State)
    requires QueueInv(s.q) && CoverInv(s)
    ensures AckedAlive({}, s)
  {
    forall e: EntryId | e < |s.q.entries| && Acked(s.q, e)
      ensures Alive({}, s, e)
    {
      assert Covered(s, e);
      if x :| e < x < |s.q.entries| && s.q.entries[x].job == s.q.entries[e].job {
        assert EntryOf(s.q, s.q.entries[e].job, x);
      }
    }
  }

  ghost function AckedEntries(q: Queue): set<EntryId> {
    set e: EntryId | e < |q.entries| && Acked(q, e)
  }

  /** After passes and a drain exactly the jobs that were not lost are finalized. */
  ghost predicate ExactlyTheOthersFinalized(s: State, s': State) {
    forall j: JobId, e: EntryId :: EntryOf(s'.q, j, e) && j in s'.db.jobs ==> (j in s'.db.finals <==> !Lost(s, j))
  }

  lemma DrainedFromStopped(s: State, s': State)
    requires QueueInv(s.q) && Stopped(s) && Onward(AckedEntries(s.q), s, s') && Drained(s')
    ensures ExactlyTheOthersFinalized(s, s')
  {
    forall j: JobId, e: EntryId | EntryOf(s'.q, j, e) && j in s'.db.jobs
      ensures j in s'.db.finals <==> !Lost(s, j)
    {
      if j !in s'.db.finals {
        UnfinalizedIsLost(AckedEntries(s.q), s, s', j, e);
      }
    }
  }

  lemma UnfinalizedIsLost(dead: set<EntryId>, s: State, s': State, j: JobId, e: EntryId)
    requires QueueInv(s.q) && Stopped(s) && dead == AckedEntries(s.q) && s.q.entries <= s'.q.entries
    requires QueueInv(s'.q) && AckedAlive(dead, s') && s'.q.cursor == |s'.q.entries| && s'.q.pending == map[]
    requires EntryOf(s'.q, j, e) && j in s.db.jobs && j in s'.db.jobs && j !in s'.db.finals && j !in s.db.finals
    ensures Lost(s, j)
  {
    forall x: EntryId | EntryOf(s'.q, j, x)
      ensures x in dead
    {
      if x !in dead {
        NewestAliveFinalizes(dead, s', j, x);
      }
    }
    assert EntryOf(s.q, j, e);
    assert forall x: EntryId :: EntryOf(s.q, j, x) ==> EntryOf(s'.q, j, x);
    assert forall i: ActorId :: i < |s.actors| ==> !Tends(s, s.actors[i], j);
  }

  /** After any run with torn blocks that ends with all actors stopped, enough recovery
      passes with threshold 0 empty the pending list; every worker-only continuation is
      bounded, and one that cannot be continued has drained the stream with every published
      job finalized except for exactly the lost ones. */
  lemma TornRecoveryIsExact(cfg: Config, ss: seq<State>, acts: seq<AnyAction>, i: ActorId, times: seq<int>, count: nat,
                            tt: seq<State>, more: seq<Action>)
    returns (passes: seq<Action>)
    requires TornRun(cfg, ss, acts)
    requires var s := ss[|acts|]; Stopped(s) && i < |s.actors|
    requires var q := ss[|acts|].q; |times| * count >= |q.pending| && forall t :: t in times ==> LeasedBefore(q, t)
    requires QueueInv(ss[|acts|].q) && Steps(cfg, tt, more) && tt[0] == Passes(i, ss[|acts|], times, count)
    requires forall k :: 0 <= k < |more| ==> WorkerStep(more[k])
    ensures Leads(cfg, ss[|acts|], passes, tt[0]) && tt[0].q.pending == map[]
    ensures |more| <= Measure(tt[0])
    ensures (forall a: Action :: WorkerStep(a) ==> !Enabled(cfg, tt[|more|], a)) ==>
              Drained(tt[|more|]) && ExactlyTheOthersFinalized(ss[|acts|], tt[|more|])
  {
    var s := ss[|acts|];
    var s' := tt[|more|];
    TornRunKeepsCore(cfg, ss, acts, |acts|);
    passes := PassesClear(cfg, i, s, times, count);
    var dead := AckedEntries(s.q);
    OnwardLeads(cfg, dead, s, passes, tt[0]);
    EveryInterleavingTerminates(cfg, tt, more, |more|);
    WorkersHoldPending(cfg, tt, more, |more|);
    StepsKeepActors(cfg, tt, more, |more|);
    if forall a: Action :: WorkerStep(a) ==> !Enabled(cfg, s', a) {
      if Stopped(s') {
        NothingPending(s');
      }
      StuckMeansDrained(cfg, s');
      OnwardThrough(cfg, dead, tt, more, |more|);
      OnwardComposes(dead, s, tt[0], s');
      DrainedFromStopped(s, s');
    }
  }

  /** It can happen: a job that the worker's policy does not admit is leased, acknowledged,
      and neither finalized nor in the stream any more. */
  lemma TornBlockLosesAJob(cfg: Config, sub: Submission) returns (ss: seq<State>, acts: seq<Action>, s': State)
    requires cfg.policyOf(0).ValidateDispatch(FreshRecord(sub)).Some?
    ensures Run(cfg, ss, acts) && TornStep(cfg, ss[|acts|], 0, s')
    ensures Drained(s') && Lost(s', 0)
  {
    ss, acts := PublishedIsReachable(cfg, sub, [Idle]);
    ss, acts := ExtendRun(cfg, ss, acts, LeaseNext(0, 0));
    s' := LostAfter(cfg, sub, ss[|acts|]);
  }

  lemma LostAfter(cfg: Config, sub: Submission, s: State) returns (s': State)
    requires cfg.policyOf(0).ValidateDispatch(FreshRecord(sub)).Some?
    requires s == State(
      Db(map[0 := FreshRecord(sub)], [Event(0, SubmittedBody)], map[], []),
      Queue([Message(0, 1, FromSubmitter)], 1, map[0 := Lease(0, 0)], []), map[], [Leased(0)])
    ensures TornStep(cfg, s, 0, s') && Drained(s') && Lost(s', 0)
  {
    s' := s.(q := ApplyQ(s.q, AckOp(0)), actors := [Idle]);
    assert EntryOf(s'.q, 0, 0);
  }
}
