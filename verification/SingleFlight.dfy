/** The single-flight regime: every job is published once by its submitter, recovery only
    takes entries whose holder has stopped, nobody crashes between a publish and the
    acknowledgement after it, and nobody cancels a job that a worker is executing. */
module SingleFlight {
  import opened Domain
  import opened Store
  import opened Streams
  import opened Protocol
  import opened Safety
  import opened Guard

  predicate InCont(cont: Cont, e: EntryId) {
    cont.ToPass? && e in cont.rest
  }

  /** The actor still has to handle entry e. */
  predicate Holds(pc: Pc, e: EntryId) {
    match pc
    case Idle => false
    case Recovering(todo) => e in todo
    case Publishing(x, _, cont) => x == e || InCont(cont, e)
    case DeadLettering(x, cont) => x == e || InCont(cont, e)
    case Acking(x, _, cont) => x == e || InCont(cont, e)
    case _ => pc.e == e
  }

  predicate Busy(pc: Pc) {
    pc.Executing? || pc.Wrote?
  }

  ghost predicate SingleFlightStep(s: State, a: Action) {
    match a
    case PublishInitial(j) => forall e :: 0 <= e < |s.q.entries| ==> s.q.entries[e].job != j
    case CancelQueued(j) =>
      forall i :: 0 <= i < |s.actors| && Busy(s.actors[i]) && s.actors[i].e < |s.q.entries| ==>
        s.q.entries[s.actors[i].e].job != j
    case FindStale(_, now, after, count) =>
      forall i, e :: 0 <= i < |s.actors| && e in StaleFrom(s.q, 0, now, after, count) ==> !Holds(s.actors[i], e)
    case Crash(i) => i < |s.actors| ==> !(s.actors[i].Acking? && s.actors[i].published)
    case _ => true
  }

  // ----- holders -----

  ghost predicate DistinctSeq(es: seq<EntryId>) {
    forall k, l :: 0 <= k < l < |es| ==> es[k] != es[l]
  }

  ghost predicate DistinctPc(pc: Pc) {
    match pc
    case Recovering(todo) => DistinctSeq(todo)
    case Publishing(x, _, cont) => !InCont(cont, x) && (cont.ToPass? ==> DistinctSeq(cont.rest))
    case DeadLettering(x, cont) => !InCont(cont, x) && (cont.ToPass? ==> DistinctSeq(cont.rest))
    case Acking(x, _, cont) => !InCont(cont, x) && (cont.ToPass? ==> DistinctSeq(cont.rest))
    case _ => true
  }

  /** Every held entry is pending and has one holder. */
  ghost predicate HoldInv(s: State) {
    && (forall i, e :: 0 <= i < |s.actors| && Holds(s.actors[i], e) ==> e in s.q.pending)
    && (forall i, k, e ::
          0 <= i < |s.actors| && 0 <= k < |s.actors| && Holds(s.actors[i], e) && Holds(s.actors[k], e) ==> i == k)
    && (forall i :: 0 <= i < |s.actors| ==> DistinctPc(s.actors[i]))
  }

  /** An entry that its holder has already replaced and will acknowledge next. */
  ghost predicate Superseded(s: State, e: EntryId) {
    exists i :: 0 <= i < |s.actors| && s.actors[i].Acking? && s.actors[i].e == e && s.actors[i].published
  }

  ghost predicate Live(s: State, e: EntryId) {
    Unacked(s.q, e) && !Superseded(s, e)
  }

  /** A live entry is the newest of its job, so a job has at most one. */
  ghost predicate LiveInv(s: State) {
    forall x, e: nat :: Live(s, e) && 0 <= x < |s.q.entries| && s.q.entries[x].job == s.q.entries[e].job ==> x <= e
  }

  /** A job that is executing has not been finalized. */
  ghost predicate BusyInv(s: State) {
    forall i :: 0 <= i < |s.actors| && Busy(s.actors[i]) && s.actors[i].e < |s.q.entries| ==>
      s.q.entries[s.actors[i].e].job !in s.db.finals
  }

  ghost predicate SfInv(s: State) {
    HoldInv(s) && LiveInv(s) && BusyInv(s) && Agree(s.db) && FinalEventLast(s.db)
  }

  /** Where the holdings of the actor that takes a step come from. */
  lemma HoldSource(cfg: Config, s: State, a: Action, eff: Effect)
    requires Ready(s, a) && !External(a) && eff == EffectOf(cfg, s, a)
    ensures forall e :: Holds(eff.pc, e) ==>
              || Holds(s.actors[a.i], e)
              || (a.LeaseNext? && e == s.q.cursor)
              || (a.FindStale? && e in StaleFrom(s.q, 0, a.now, a.staleAfter, a.count))
    ensures eff.op.AckOp? ==> Holds(s.actors[a.i], eff.op.e)
  {
    if a.Plan? {
      var todo := s.actors[a.i].todo;
      assert forall e :: e in todo[1..] ==> e in todo;
    }
  }

  /** Lists of leases stay free of repetitions, and an acknowledged entry is let go of. */
  lemma HoldChange(cfg: Config, s: State, a: Action, eff: Effect)
    requires Ready(s, a) && !External(a) && DistinctPc(s.actors[a.i]) && eff == EffectOf(cfg, s, a)
    ensures DistinctPc(eff.pc)
    ensures eff.op.AckOp? ==> !Holds(eff.pc, eff.op.e)
  {
    if a.FindStale? {
      StaleFromIsScan(s.q, 0, a.now, a.staleAfter, a.count);
    }
  }

  lemma HoldStep(cfg: Config, s: State, a: Action, s': State, eff: Effect)
    requires QueueInv(s.q) && HoldInv(s) && Ready(s, a) && SingleFlightStep(s, a)
    requires eff == EffectOf(cfg, s, a) && s'.q == ApplyQ(s.q, eff.op)
    requires s'.actors == if External(a) then s.actors else s.actors[a.i := eff.pc]
    ensures HoldInv(s')
  {
    if !External(a) {
      HoldSource(cfg, s, a, eff);
      HoldChange(cfg, s, a, eff);
    }
    forall i, e | 0 <= i < |s'.actors| && Holds(s'.actors[i], e)
      ensures e in s'.q.pending
    {
      if External(a) || i != a.i {
        assert e in s.q.pending;
      }
    }
    forall i, k, e | 0 <= i < |s'.actors| && 0 <= k < |s'.actors| && Holds(s'.actors[i], e) && Holds(s'.actors[k], e)
      ensures i == k
    {
      assert Holds(s.actors[i], e) ==> e in s.q.pending;
      assert Holds(s.actors[k], e) ==> e in s.q.pending;
    }
  }

  /** A held entry is live unless its holder has already replaced it. */
  lemma HeldIsLive(s: State, i: ActorId, e: EntryId)
    requires QueueInv(s.q) && HoldInv(s) && i < |s.actors| && Holds(s.actors[i], e)
    requires s.actors[i].Acking? && s.actors[i].published ==> s.actors[i].e != e
    ensures Live(s, e)
  {
    assert e in s.q.pending;
    forall k | 0 <= k < |s.actors| && s.actors[k].Acking? && s.actors[k].published
      ensures s.actors[k].e != e
    {
      assert Holds(s.actors[k], s.actors[k].e);
    }
  }

  /** Two actors never hold live entries of the same job. */
  lemma OneHolderPerJob(s: State, i: ActorId, x: EntryId, k: ActorId, y: EntryId)
    requires QueueInv(s.q) && HoldInv(s) && LiveInv(s)
    requires i < |s.actors| && k < |s.actors| && i != k && Holds(s.actors[i], x) && Holds(s.actors[k], y)
    requires Live(s, x) && Live(s, y)
    ensures s.q.entries[x].job != s.q.entries[y].job
  {
  }

  lemma LiveStep(cfg: Config, s: State, a: Action, s': State, eff: Effect)
    requires QueueInv(s.q) && HoldInv(s) && LiveInv(s) && Ready(s, a) && SingleFlightStep(s, a)
    requires !External(a) ==> PcShape(s, s.actors[a.i])
    requires eff == EffectOf(cfg, s, a) && s'.q == ApplyQ(s.q, eff.op)
    requires s'.actors == if External(a) then s.actors else s.actors[a.i := eff.pc]
    ensures LiveInv(s')
  {
    forall e: nat | e < |s.q.entries| && Superseded(s, e)
      ensures Superseded(s', e) || !Unacked(s'.q, e)
    {
      SupersededStays(cfg, s, a, s', eff, e);
    }
    if a.Publish? {
      var pc := s.actors[a.i];
      assert Holds(pc, pc.e);
      HeldIsLive(s, a.i, pc.e);
      assert s'.actors[a.i].Acking?;
      assert Superseded(s', pc.e);
    }
  }

  /** A replaced entry stays replaced until it is acknowledged. */
  lemma SupersededStays(cfg: Config, s: State, a: Action, s': State, eff: Effect, e: EntryId)
    requires QueueInv(s.q) && Ready(s, a) && SingleFlightStep(s, a)
    requires !External(a) ==> PcShape(s, s.actors[a.i])
    requires eff == EffectOf(cfg, s, a) && s'.q == ApplyQ(s.q, eff.op)
    requires s'.actors == if External(a) then s.actors else s.actors[a.i := eff.pc]
    requires e < |s.q.entries| && Superseded(s, e)
    ensures Superseded(s', e) || !Unacked(s'.q, e)
  {
    var i :| 0 <= i < |s.actors| && s.actors[i].Acking? && s.actors[i].e == e && s.actors[i].published;
    if External(a) || a.i != i {
      assert s'.actors[i] == s.actors[i];
    }
  }

  /** The job that a transaction finalizes is the job of the entry its actor handles. */
  lemma FinalizesOwnJob(cfg: Config, s: State, a: Action, eff: Effect)
    requires Ready(s, a) && !External(a) && eff == EffectOf(cfg, s, a) && QueueInv(s.q) && PcShape(s, s.actors[a.i])
    requires eff.tx.FinalizeTx?
    ensures var pc := s.actors[a.i];
            && Subject(pc).Some? && !pc.Acking? && Holds(pc, Subject(pc).value)
            && Subject(pc).value < |s.q.entries| && eff.tx.job == s.q.entries[Subject(pc).value].job
  {
  }

  lemma BusyStep(cfg: Config, s: State, a: Action, s': State, eff: Effect)
    requires QueueInv(s.q) && HoldInv(s) && LiveInv(s) && BusyInv(s) && Agree(s.db) && RowsInv(s.db) && Extends(s, s')
    requires Ready(s, a) && SingleFlightStep(s, a) && (!External(a) ==> PcShape(s, s.actors[a.i]))
    requires eff == EffectOf(cfg, s, a) && Legal(s.db, eff.tx) && s'.db == Apply(s.db, eff.tx)
    requires s'.actors == if External(a) then s.actors else s.actors[a.i := eff.pc]
    requires forall i :: 0 <= i < |s.actors| && Busy(s.actors[i]) ==> s.actors[i].e < |s.q.entries|
    ensures BusyInv(s')
  {
    forall k | 0 <= k < |s'.actors| && Busy(s'.actors[k]) && s'.actors[k].e < |s'.q.entries|
      ensures s'.q.entries[s'.actors[k].e].job !in s'.db.finals
    {
      if External(a) || k != a.i {
        OthersStayBusy(cfg, s, a, eff, k);
      } else {
        FreshlyBusy(cfg, s, a, eff);
      }
      StillOpen(s, s', eff.tx, s'.actors[k].e);
    }
  }

  /** A transaction finalizes no job but its own. */
  lemma StillOpen(s: State, s': State, tx: DbOp, e: EntryId)
    requires Extends(s, s') && Legal(s.db, tx) && s'.db == Apply(s.db, tx)
    requires e < |s.q.entries| && s.q.entries[e].job !in s.db.finals
    requires tx.FinalizeTx? ==> tx.job != s.q.entries[e].job
    ensures s'.q.entries[e].job !in s'.db.finals
  {
  }

  lemma OthersStayBusy(cfg: Config, s: State, a: Action, eff: Effect, k: ActorId)
    requires QueueInv(s.q) && HoldInv(s) && LiveInv(s) && BusyInv(s)
    requires Ready(s, a) && SingleFlightStep(s, a) && (!External(a) ==> PcShape(s, s.actors[a.i]))
    requires eff == EffectOf(cfg, s, a)
    requires k < |s.actors| && Busy(s.actors[k]) && s.actors[k].e < |s.q.entries| && (External(a) || a.i != k)
    ensures eff.tx.FinalizeTx? ==> eff.tx.job != s.q.entries[s.actors[k].e].job
  {
    if eff.tx.FinalizeTx? && !External(a) {
      FinalizesOwnJob(cfg, s, a, eff);
      var x := Subject(s.actors[a.i]).value;
      HeldIsLive(s, a.i, x);
      HeldIsLive(s, k, s.actors[k].e);
      OneHolderPerJob(s, a.i, x, k, s.actors[k].e);
    }
  }

  /** A worker becomes busy only on a job whose status is not terminal. */
  lemma FreshlyBusy(cfg: Config, s: State, a: Action, eff: Effect)
    requires QueueInv(s.q) && BusyInv(s) && Agree(s.db) && RowsInv(s.db)
    requires Ready(s, a) && !External(a) && PcShape(s, s.actors[a.i]) && eff == EffectOf(cfg, s, a) && Busy(eff.pc)
    ensures eff.pc.e < |s.q.entries| && s.q.entries[eff.pc.e].job !in s.db.finals && !eff.tx.FinalizeTx?
  {
  }

  lemma NotLate(cfg: Config, s: State, a: Action)
    requires Inv(s) && BusyInv(s) && Enabled(cfg, s, a)
    ensures !LateRetry(cfg, s, a)
  {
    if a.Finish? {
      assert PcShape(s, s.actors[a.i]);
    }
  }

  lemma SfAgree(cfg: Config, s: State, a: Action, s': State)
    requires Inv(s) && BusyInv(s) && Agree(s.db) && FinalEventLast(s.db) && Enabled(cfg, s, a) && s' == Next(cfg, s, a)
    ensures Agree(s'.db) && FinalEventLast(s'.db)
  {
    NotLate(cfg, s, a);
    AgreeStep(cfg, s, a, s');
  }

  lemma SfHoldings(cfg: Config, s: State, a: Action, s': State)
    requires QueueInv(s.q) && RowsInv(s.db) && forall i :: 0 <= i < |s.actors| ==> PcShape(s, s.actors[i])
    requires SfInv(s) && Enabled(cfg, s, a) && SingleFlightStep(s, a) && s' == Next(cfg, s, a)
    ensures HoldInv(s') && LiveInv(s') && BusyInv(s')
  {
    var eff := EffectOf(cfg, s, a);
    EffectSummary(cfg, s, a);
    NextExtends(cfg, s, a);
    HoldStep(cfg, s, a, s', eff);
    LiveStep(cfg, s, a, s', eff);
    forall i | 0 <= i < |s.actors| && Busy(s.actors[i])
      ensures s.actors[i].e < |s.q.entries|
    {
      assert PcShape(s, s.actors[i]);
    }
    BusyStep(cfg, s, a, s', eff);
  }

  lemma SfStep(cfg: Config, s: State, a: Action, s': State)
    requires Inv(s) && SfInv(s) && Enabled(cfg, s, a) && SingleFlightStep(s, a) && s' == Next(cfg, s, a)
    ensures SfInv(s')
  {
    SfAgree(cfg, s, a, s');
    SfHoldings(cfg, s, a, s');
  }

  ghost predicate SingleFlightRun(cfg: Config, ss: seq<State>, acts: seq<Action>) {
    Run(cfg, ss, acts) && forall k :: 0 <= k < |acts| ==> SingleFlightStep(ss[k], acts[k])
  }

  lemma ExtendSingleFlight(cfg: Config, ss: seq<State>, acts: seq<Action>, a: Action)
    returns (ss': seq<State>, acts': seq<Action>)
    requires SingleFlightRun(cfg, ss, acts) && Enabled(cfg, ss[|acts|], a) && SingleFlightStep(ss[|acts|], a)
    ensures SingleFlightRun(cfg, ss', acts') && acts' == acts + [a] && ss' == ss + [Next(cfg, ss[|acts|], a)]
  {
    ss', acts' := ExtendRun(cfg, ss, acts, a);
    forall k | 0 <= k < |acts'|
      ensures SingleFlightStep(ss'[k], acts'[k])
    {
      assert k < |acts| ==> ss'[k] == ss[k] && acts'[k] == acts[k];
    }
  }

  lemma {:induction false} SfUntil(cfg: Config, ss: seq<State>, acts: seq<Action>, k: nat)
    requires SingleFlightRun(cfg, ss, acts) && k <= |acts|
    ensures Inv(ss[k]) && SfInv(ss[k])
  {
    if k == 0 {
      InitInv(ss[0]);
    } else {
      SfUntil(cfg, ss, acts, k - 1);
      assert Step(cfg, ss[k - 1], acts[k - 1], ss[k]);
      InvStep(cfg, ss[k - 1], acts[k - 1]);
      SfStep(cfg, ss[k - 1], acts[k - 1], ss[k]);
    }
  }

  ghost predicate OneLivePerJob(s: State) {
    forall x: nat, y: nat :: Live(s, x) && Live(s, y) && s.q.entries[x].job == s.q.entries[y].job ==> x == y
  }

  /** The newest entry of a job that still has to run is live. */
  ghost predicate OpenJobsAreLive(s: State) {
    forall e: nat :: Newest(s.q, e) && s.q.entries[e].job in s.db.jobs && s.q.entries[e].job !in s.db.finals ==>
        Live(s, e)
  }

  /** Single-flight runs contain no late retry, so in all their states the status column
      agrees with the guard and the final event of a job is its last one. A job has at
      most one live entry, and exactly one if it is published and not finalized. */
  lemma SingleFlightIsSafe(cfg: Config, ss: seq<State>, acts: seq<Action>)
    requires SingleFlightRun(cfg, ss, acts)
    ensures NoLateRetry(cfg, ss, acts) && AgreesThroughout(ss)
    ensures forall k :: 0 <= k < |ss| ==> OneLivePerJob(ss[k]) && OpenJobsAreLive(ss[k])
  {
    forall k | 0 <= k < |ss|
      ensures Agree(ss[k].db) && FinalEventLast(ss[k].db) && OneLivePerJob(ss[k]) && OpenJobsAreLive(ss[k])
    {
      SfUntil(cfg, ss, acts, k);
      OpenIsLive(ss[k]);
    }
    StatusTrustedIffNoLateRetry(cfg, ss, acts);
  }

  lemma OpenIsLive(s: State)
    requires Inv(s)
    ensures OpenJobsAreLive(s)
  {
    forall e: nat | Newest(s.q, e) && s.q.entries[e].job in s.db.jobs && s.q.entries[e].job !in s.db.finals
      ensures Live(s, e)
    {
      assert !Covered(s, e);
      assert CoverInv(s);
      forall i | 0 <= i < |s.actors| && s.actors[i].Acking?
        ensures s.actors[i].e != e
      {
        assert PcShape(s, s.actors[i]);
      }
    }
  }
}
