/** A run on tables that already hold other jobs, as far as its own jobs are concerned, is a
    run from empty tables: nothing an actor does looks at rows of jobs that are not its own. */
module Isolation {
  import opened Domain
  import opened Store
  import opened Streams
  import opened Protocol
  import opened Safety

  ghost function OwnEvents(events: seq<Event>, own: set<JobId>): seq<Event> {
    if events == [] then []
    else
      var last := events[|events| - 1];
      OwnEvents(events[..|events| - 1], own) + if last.job in own then [last] else []
  }

  ghost function OwnConflicts(conflicts: seq<Conflict>, own: set<JobId>): seq<Conflict> {
    if conflicts == [] then []
    else
      var last := conflicts[|conflicts| - 1];
      OwnConflicts(conflicts[..|conflicts| - 1], own) + if last.job in own then [last] else []
  }

  ghost function Keep<T>(rows: map<JobId, T>, own: set<JobId>): map<JobId, T> {
    map j | j in rows && j in own :: rows[j]
  }

  lemma KeepUpdate<T>(rows: map<JobId, T>, own: set<JobId>, j: JobId, row: T)
    requires j in own
    ensures Keep(rows[j := row], own) == Keep(rows, own)[j := row]
    ensures j in Keep(rows, own) <==> j in rows
    ensures j in rows ==> Keep(rows, own)[j] == rows[j]
  {
  }

  /** The rows of the own jobs. */
  ghost function Part(db: Db, own: set<JobId>): Db {
    Db(Keep(db.jobs, own), OwnEvents(db.events, own), Keep(db.finals, own), OwnConflicts(db.conflicts, own))
  }

  ghost function PartFiles(files: map<Path, Bytes>, own: set<JobId>): map<Path, Bytes> {
    map p | p in files && p.0 in own :: files[p]
  }

  ghost function PartOf(s: State, own: set<JobId>): State {
    State(Part(s.db, own), s.q, PartFiles(s.files, own), s.actors)
  }

  // ----- transactions -----

  ghost predicate Touches(op: DbOp, own: set<JobId>) {
    op.NoTx? || op.Subject() in own
  }

  lemma OwnEventsAppend(events: seq<Event>, x: Event, own: set<JobId>)
    requires x.job in own
    ensures OwnEvents(events + [x], own) == OwnEvents(events, own) + [x]
  {
    assert (events + [x])[..|events|] == events;
  }

  lemma OwnConflictsAppend(conflicts: seq<Conflict>, x: Conflict, own: set<JobId>)
    requires x.job in own
    ensures OwnConflicts(conflicts + [x], own) == OwnConflicts(conflicts, own) + [x]
  {
    assert (conflicts + [x])[..|conflicts|] == conflicts;
  }

  lemma PartLegal(db: Db, op: DbOp, own: set<JobId>)
    requires Legal(db, op) && Touches(op, own)
    ensures Legal(Part(db, own), op)
  {
    if op.CreateTx? {
      forall j | j in Part(db, own).jobs
        ensures Part(db, own).jobs[j].key != op.sub.key
      {
        assert j in db.jobs && db.jobs[j].key != op.sub.key;
      }
    }
  }

  lemma PartInsert(db: Db, id: JobId, sub: Submission, own: set<JobId>)
    requires id in own
    ensures InsertJob(Part(db, own), id, sub) == Part(InsertJob(db, id, sub), own)
  {
    KeepUpdate(db.jobs, own, id, FreshRecord(sub));
    OwnEventsAppend(db.events, Event(id, SubmittedBody), own);
  }

  lemma PartRecord(db: Db, j: JobId, status: Status, body: Body, own: set<JobId>)
    requires j in db.jobs && j in own
    ensures j in Part(db, own).jobs
            && RecordState(Part(db, own), j, status, body) == Part(RecordState(db, j, status, body), own)
  {
    KeepUpdate(db.jobs, own, j, db.jobs[j].(status := status));
    OwnEventsAppend(db.events, Event(j, body), own);
  }

  lemma PartFinalize(db: Db, j: JobId, status: Status, body: Body, own: set<JobId>)
    requires j in db.jobs && j in own
    ensures j in Part(db, own).jobs
            && Finalize(Part(db, own), j, status, body) == Part(Finalize(db, j, status, body), own)
  {
    KeepUpdate(db.jobs, own, j, db.jobs[j].(status := status));
    KeepUpdate(db.finals, own, j, Finalization(status, body.Kind()));
    if j in db.finals {
      OwnConflictsAppend(db.conflicts, Conflict(j, status, body.Kind()), own);
    } else {
      OwnEventsAppend(db.events, Event(j, body), own);
    }
  }

  /** A transaction on an own job does the same to the part as to the whole. */
  lemma PartApply(db: Db, op: DbOp, own: set<JobId>)
    requires Legal(db, op) && Touches(op, own)
    ensures Legal(Part(db, own), op) && Apply(Part(db, own), op) == Part(Apply(db, op), own)
  {
    PartLegal(db, op, own);
    match op {
      case NoTx =>
      case CreateTx(id, sub) => PartInsert(db, id, sub, own);
      case RecordTx(j, status, body) => PartRecord(db, j, status, body, own);
      case FinalizeTx(j, status, body) => PartFinalize(db, j, status, body, own);
    }
  }

  /** The rows of the other jobs are the same. */
  ghost predicate OthersUntouched(db: Db, db': Db, own: set<JobId>) {
    && (forall j :: j !in own ==> (j in db'.jobs <==> j in db.jobs) && (j in db.jobs ==> db'.jobs[j] == db.jobs[j]))
    && (forall j :: j !in own ==>
        (j in db'.finals <==> j in db.finals) && (j in db.finals ==> db'.finals[j] == db.finals[j]))
  }

  lemma ApplyLeavesOthers(db: Db, op: DbOp, own: set<JobId>)
    requires Legal(db, op) && Touches(op, own)
    ensures OthersUntouched(db, Apply(db, op), own)
  {
  }

  // ----- steps -----

  /** The stream and the actors are about own jobs only. */
  ghost predicate OwnStream(s: State, own: set<JobId>) {
    && (forall e :: 0 <= e < |s.q.entries| ==> s.q.entries[e].job in own)
    && (forall i :: 0 <= i < |s.actors| && s.actors[i].Publishing? ==> s.actors[i].m.job in own)
  }

  /** An external action that concerns own jobs only. */
  ghost predicate StaysInside(s: State, a: Action, own: set<JobId>) {
    match a
    case Submit(id, sub) => id in own && forall j :: j in s.db.jobs && s.db.jobs[j].key == sub.key ==> j in own
    case PublishInitial(j) => j in own
    case CancelQueued(j) => j in own
    case _ => true
  }

  lemma PartSubmit(db: Db, id: JobId, sub: Submission, own: set<JobId>)
    requires forall j :: j in db.jobs && db.jobs[j].key == sub.key ==> j in own
    ensures SubmitTx(Part(db, own), id, sub) == SubmitTx(db, id, sub)
  {
    if KeyTaken(db, sub.key) {
      var j :| j in db.jobs && db.jobs[j].key == sub.key;
      assert Part(db, own).jobs[j].key == sub.key;
    }
  }

  /** The part offers the same step with the same effect, on an own job. */
  lemma PartEffect(cfg: Config, s: State, a: Action, own: set<JobId>)
    requires OwnStream(s, own) && StaysInside(s, a, own) && Ready(s, a)
    ensures Ready(PartOf(s, own), a) && EffectOf(cfg, PartOf(s, own), a) == EffectOf(cfg, s, a)
    ensures Touches(EffectOf(cfg, s, a).tx, own)
    ensures EffectOf(cfg, s, a).pc.Publishing? ==> EffectOf(cfg, s, a).pc.m.job in own
    ensures EffectOf(cfg, s, a).op.PublishOp? ==> EffectOf(cfg, s, a).op.m.job in own
  {
    if a.Submit? {
      PartSubmit(s.db, a.id, a.sub, own);
    }
  }

  lemma PartStep(cfg: Config, s: State, a: Action, s': State, own: set<JobId>)
    requires OwnStream(s, own) && StaysInside(s, a, own) && Step(cfg, s, a, s')
    ensures OwnStream(s', own) && Step(cfg, PartOf(s, own), a, PartOf(s', own))
    ensures OthersUntouched(s.db, s'.db, own)
  {
    PartEffect(cfg, s, a, own);
    ApplyLeavesOthers(s.db, EffectOf(cfg, s, a).tx, own);
    PartApply(s.db, EffectOf(cfg, s, a).tx, own);
    EffectSummary(cfg, s, a);
    PartFilesStep(cfg, s, a, s', own);
    OwnStreamStays(s, s', EffectOf(cfg, s, a), own);
    assert Next(cfg, PartOf(s, own), a) == PartOf(s', own);
  }

  lemma OwnStreamStays(s: State, s': State, eff: Effect, own: set<JobId>)
    requires OwnStream(s, own) && s'.q == ApplyQ(s.q, eff.op)
    requires |s'.actors| == |s.actors|
    requires forall i :: 0 <= i < |s.actors| ==> s'.actors[i] == s.actors[i] || s'.actors[i] == eff.pc
    requires (eff.pc.Publishing? ==> eff.pc.m.job in own) && (eff.op.PublishOp? ==> eff.op.m.job in own)
    ensures OwnStream(s', own)
  {
  }

  lemma PartFilesStep(cfg: Config, s: State, a: Action, s': State, own: set<JobId>)
    requires OwnStream(s, own) && Step(cfg, s, a, s') && Ready(PartOf(s, own), a)
    ensures PartFiles(s'.files, own)
         == if a.WriteArtifact? then
              var r := RequestOf(s, a); PartFiles(s.files, own)[(r.job, r.attempt) := cfg.artifact(r).bytes]
            else PartFiles(s.files, own)
  {
  }

  // ----- whole runs -----

  /** Nothing in the tables or the files is about an own job yet, the stream is fresh and
      everybody is idle. */
  ghost predicate FreshFor(s: State, own: set<JobId>) {
    && RowsInv(s.db) && s.q == EMPTY_QUEUE && Stopped(s)
    && (forall j :: j in own ==> j !in s.db.jobs)
    && (forall p :: p in s.files ==> p.0 !in own)
  }

  lemma {:induction false} NoOwnEvents(events: seq<Event>, own: set<JobId>)
    requires forall k :: 0 <= k < |events| ==> events[k].job !in own
    ensures OwnEvents(events, own) == []
  {
    if events != [] {
      NoOwnEvents(events[..|events| - 1], own);
    }
  }

  lemma {:induction false} NoOwnConflicts(conflicts: seq<Conflict>, own: set<JobId>)
    requires forall k :: 0 <= k < |conflicts| ==> conflicts[k].job !in own
    ensures OwnConflicts(conflicts, own) == []
  {
    if conflicts != [] {
      NoOwnConflicts(conflicts[..|conflicts| - 1], own);
    }
  }

  lemma FreshIsInit(s: State, own: set<JobId>)
    requires FreshFor(s, own)
    ensures OwnStream(s, own) && Init(PartOf(s, own))
  {
    NoOwnEvents(s.db.events, own);
    NoOwnConflicts(s.db.conflicts, own);
    assert Part(s.db, own).jobs == map[] && Part(s.db, own).finals == map[];
    assert PartFiles(s.files, own) == map[];
  }

  ghost function Parts(ss: seq<State>, own: set<JobId>): seq<State> {
    seq(|ss|, k requires 0 <= k < |ss| => PartOf(ss[k], own))
  }

  lemma {:induction false} OwnStreamUntil(cfg: Config, ss: seq<State>, acts: seq<Action>, own: set<JobId>, n: nat)
    requires Steps(cfg, ss, acts) && OwnStream(ss[0], own) && n <= |acts|
    requires forall k :: 0 <= k < |acts| ==> StaysInside(ss[k], acts[k], own)
    ensures OwnStream(ss[n], own) && OthersUntouched(ss[0].db, ss[n].db, own)
  {
    if n > 0 {
      OwnStreamUntil(cfg, ss, acts, own, n - 1);
      assert Step(cfg, ss[n - 1], acts[n - 1], ss[n]);
      PartStep(cfg, ss[n - 1], acts[n - 1], ss[n], own);
    }
  }

  /** Seen through its own jobs, a run on any tables with a fresh stream is a run from empty
      tables with the same actions. */
  lemma OwnRun(cfg: Config, ss: seq<State>, acts: seq<Action>, own: set<JobId>)
    requires Steps(cfg, ss, acts) && FreshFor(ss[0], own)
    requires forall k :: 0 <= k < |acts| ==> StaysInside(ss[k], acts[k], own)
    ensures Run(cfg, Parts(ss, own), acts)
  {
    FreshIsInit(ss[0], own);
    var pp := Parts(ss, own);
    forall k | 0 <= k < |acts|
      ensures Step(cfg, pp[k], acts[k], pp[k + 1])
    {
      OwnStreamUntil(cfg, ss, acts, own, k);
      assert Step(cfg, ss[k], acts[k], ss[k + 1]);
      PartStep(cfg, ss[k], acts[k], ss[k + 1], own);
    }
  }
}
