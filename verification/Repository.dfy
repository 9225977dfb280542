/** Idempotent submission: create_job against its transaction, and what repeated
    submissions of one idempotency key give over any run. */
module Repository {
  import opened Domain
  import opened Store
  import opened Protocol
  import opened Safety
  import opened Guard
  import opened Runtime

  /** What create_job gives back: the row's id, IdempotencyConflictError, or the violation of
      the unique index that the loser of two concurrent inserts of one key gets. */
  datatype Created = Job(id: JobId) | IdempotencyConflict | UniqueViolation

  /** The row that owns a key; unique keys make it unique. */
  ghost function Owner(db: Db, key: string): JobId
    requires KeyTaken(db, key)
  {
    var j :| j in db.jobs && db.jobs[j].key == key; j
  }

  /** The answer to a submission that would get the fresh id. */
  ghost function Answer(db: Db, id: JobId, sub: Submission): Created {
    if !KeyTaken(db, sub.key) then Job(id)
    else if db.jobs[Owner(db, sub.key)].payloadHash != sub.payloadHash then IdempotencyConflict
    else Job(Owner(db, sub.key))
  }

  /** The answer when the lookup saw the tables before and the insert meets them as they are now. */
  ghost function RacingAnswer(before: Db, now: Db, id: JobId, sub: Submission): Created {
    if KeyTaken(before, sub.key) then Answer(before, id, sub)
    else if KeyTaken(now, sub.key) then UniqueViolation
    else Job(id)
  }

  lemma OwnerIs(db: Db, j: JobId)
    requires UniqueKeys(db) && j in db.jobs
    ensures KeyTaken(db, db.jobs[j].key) && Owner(db, db.jobs[j].key) == j
  {
  }

  lemma SubmitKeeps(db: Db, tx: DbOp)
    requires SubmitInv(db) && RowsInv(db) && Legal(db, tx)
    ensures SubmitInv(Apply(db, tx)) && RowsInv(Apply(db, tx))
  {
    ApplyKeepsUniqueKeys(db, tx);
    ApplyKeepsOneSubmittedEvent(db, tx);
    ApplyKeepsRowsInv(db, tx);
  }

  class JobRepository {
    const db: Database

    constructor (db: Database)
      ensures this.db == db
    {
      this.db := db;
    }

    method GetByIdempotencyKey(key: string) returns (job: Option<JobId>)
      requires UniqueKeys(db.View())
      ensures job.Some? <==> KeyTaken(db.View(), key)
      ensures job.Some? ==> job.value == Owner(db.View(), key)
    {
      if j :| j in db.jobs && db.jobs[j].key == key {
        OwnerIs(db.View(), j);
        return Some(j);
      }
      return None;
    }

    /** The answer, and the transaction: an insert of the row with its submitted event when
        the key is free, nothing at all otherwise. */
    method CreateJob(id: JobId, sub: Submission) returns (created: Created)
      requires SubmitInv(db.View()) && RowsInv(db.View()) && Legal(db.View(), SubmitTx(db.View(), id, sub))
      modifies db
      ensures db.View() == Apply(old(db.View()), SubmitTx(old(db.View()), id, sub))
      ensures created == Answer(old(db.View()), id, sub)
      ensures !old(KeyTaken(db.View(), sub.key)) ==>
                created == Job(id) && id in db.jobs && RowOf(db.jobs[id], sub) && db.jobs[id].status == Submitted
      ensures SubmitInv(db.View()) && RowsInv(db.View())
    {
      var existing := GetByIdempotencyKey(sub.key);
      created := InsertUnlessFound(id, sub, existing, db.View());
    }

    /** The rest of create_job after its lookup, with whatever other transactions have
        committed in between. */
    method InsertUnlessFound(id: JobId, sub: Submission, existing: Option<JobId>, ghost before: Db)
      returns (created: Created)
      requires SubmitInv(db.View()) && RowsInv(db.View()) && Legal(db.View(), SubmitTx(db.View(), id, sub))
      requires Grows(before, db.View()) && UniqueKeys(before)
      requires existing.Some? <==> KeyTaken(before, sub.key)
      requires existing.Some? ==> existing.value == Owner(before, sub.key)
      modifies db
      ensures created == RacingAnswer(before, old(db.View()), id, sub)
      ensures !old(KeyTaken(db.View(), sub.key)) ==>
                created == Job(id) && id in db.jobs && RowOf(db.jobs[id], sub) && db.jobs[id].status == Submitted
      ensures db.View() == Apply(old(db.View()), SubmitTx(old(db.View()), id, sub))
      ensures SubmitInv(db.View()) && RowsInv(db.View())
    {
      SubmitKeeps(db.View(), SubmitTx(db.View(), id, sub));
      if existing.Some? {
        assert KeyTaken(db.View(), sub.key) by {
          assert db.jobs[existing.value].key == sub.key;
        }
        if db.jobs[existing.value].payloadHash != sub.payloadHash {
          return IdempotencyConflict;
        }
        return Job(existing.value);
      }
      var taken := GetByIdempotencyKey(sub.key);
      if taken.Some? {
        return UniqueViolation;
      }
      db.InsertJob(id, sub);
      return Job(id);
    }
  }

  // ----- whole runs -----

  ghost function AnswerAt(ss: seq<State>, acts: seq<Action>, k: nat): Created
    requires k < |acts| && k < |ss| && acts[k].Submit?
  {
    Answer(ss[k].db, acts[k].id, acts[k].sub)
  }

  /** After a submission that was answered with a job, the job has the submission's key and hash. */
  lemma AnsweredJob(cfg: Config, s: State, id: JobId, sub: Submission, s': State)
    requires UniqueKeys(s.db) && Step(cfg, s, Submit(id, sub), s')
    ensures var r := Answer(s.db, id, sub);
            r.Job? ==>
              && r.id in s'.db.jobs && s'.db.jobs[r.id].key == sub.key
              && s'.db.jobs[r.id].payloadHash == sub.payloadHash
  {
  }

  /** A row that exists answers every later submission of its key. */
  lemma OwnerAnswers(db: Db, j: JobId, id: JobId, sub: Submission)
    requires UniqueKeys(db) && j in db.jobs && db.jobs[j].key == sub.key
    ensures Answer(db, id, sub) == if db.jobs[j].payloadHash == sub.payloadHash then Job(j) else IdempotencyConflict
  {
    OwnerIs(db, j);
  }

  /** Over any run, with everything else interleaved: once a key was accepted, a later
      submission of that key is answered with the same job if the payload hash is the one
      accepted first, and with a conflict otherwise; neither changes anything. */
  lemma SameKeySameJob(cfg: Config, ss: seq<State>, acts: seq<Action>, k: nat, l: nat)
    requires Run(cfg, ss, acts) && k < l < |acts| && acts[k].Submit? && acts[l].Submit?
             && acts[k].sub.key == acts[l].sub.key
    requires AnswerAt(ss, acts, k).Job?
    ensures AnswerAt(ss, acts, l)
         == if acts[l].sub.payloadHash == acts[k].sub.payloadHash then AnswerAt(ss, acts, k) else IdempotencyConflict
    ensures ss[l + 1] == ss[l]
  {
    RunKeepsInv(cfg, ss, acts);
    assert Inv(ss[k]) && Inv(ss[l]) && Step(cfg, ss[k], acts[k], ss[k + 1]);
    AnsweredJob(cfg, ss[k], acts[k].id, acts[k].sub, ss[k + 1]);
    var j := AnswerAt(ss, acts, k).id;
    StepsGrow(cfg, ss, acts, k + 1, l);
    assert j in ss[l].db.jobs && SameExceptStatus(ss[k + 1].db.jobs[j], ss[l].db.jobs[j]);
    OwnerAnswers(ss[l].db, j, acts[l].id, acts[l].sub);
    TakenKeyChangesNothing(cfg, ss[l], acts[l].id, acts[l].sub, ss[l + 1], j);
  }

  lemma TakenKeyChangesNothing(cfg: Config, s: State, id: JobId, sub: Submission, s': State, j: JobId)
    requires Step(cfg, s, Submit(id, sub), s') && j in s.db.jobs && s.db.jobs[j].key == sub.key
    ensures s' == s
  {
  }

  /** A lookup in state k and the insert in the later state l do to the tables what one serial
      submission in state l does, and give its answer, except that the loser of a race, whose
      key was free at the lookup and taken at the insert, gets the unique violation. */
  lemma RaceIsSerial(cfg: Config, ss: seq<State>, acts: seq<Action>, k: nat, l: nat, id: JobId, sub: Submission)
    requires Run(cfg, ss, acts) && k <= l <= |acts|
    ensures var before, now := ss[k].db, ss[l].db;
            var r := RacingAnswer(before, now, id, sub);
            && (r == UniqueViolation <==> !KeyTaken(before, sub.key) && KeyTaken(now, sub.key))
            && (r != UniqueViolation ==> r == Answer(now, id, sub))
            && (SubmitTx(now, id, sub).CreateTx? <==> !KeyTaken(before, sub.key) && r == Job(id))
  {
    var before, now := ss[k].db, ss[l].db;
    RunKeepsInv(cfg, ss, acts);
    assert Inv(ss[k]) && Inv(ss[l]);
    StepsGrow(cfg, ss, acts, k, l);
    if KeyTaken(before, sub.key) {
      var j := Owner(before, sub.key);
      assert now.jobs[j].key == sub.key;
      OwnerAnswers(before, j, id, sub);
      OwnerAnswers(now, j, id, sub);
    }
  }

  /** In every reachable state there are as many submitted events as jobs. */
  lemma {:induction false} SubmittedEventsAreJobs(cfg: Config, ss: seq<State>, acts: seq<Action>, k: nat)
    requires Run(cfg, ss, acts) && k <= |acts|
    ensures CountAll(ss[k].db.events, IS_SUBMITTED) == |ss[k].db.jobs|
  {
    if k > 0 {
      SubmittedEventsAreJobs(cfg, ss, acts, k - 1);
      assert Step(cfg, ss[k - 1], acts[k - 1], ss[k]);
      EffectSummary(cfg, ss[k - 1], acts[k - 1]);
      SubmittedStep(ss[k - 1].db, EffectOf(cfg, ss[k - 1], acts[k - 1]).tx);
    }
  }

  lemma SubmittedStep(db: Db, tx: DbOp)
    requires Legal(db, tx) && CountAll(db.events, IS_SUBMITTED) == |db.jobs|
    ensures CountAll(Apply(db, tx).events, IS_SUBMITTED) == |Apply(db, tx).jobs|
  {
    EventsGrowBy(db, tx, Apply(db, tx));
    JobsGrowBy(db, tx, Apply(db, tx));
  }

  lemma EventsGrowBy(db: Db, tx: DbOp, db': Db)
    requires Legal(db, tx) && db' == Apply(db, tx)
    ensures CountAll(db'.events, IS_SUBMITTED) == CountAll(db.events, IS_SUBMITTED) + if tx.CreateTx? then 1 else 0
  {
    if db'.events != db.events {
      var x := db'.events[|db.events|];
      assert db'.events == db.events + [x];
      CountAllAppend(db.events, x, IS_SUBMITTED);
    }
  }

  lemma JobsGrowBy(db: Db, tx: DbOp, db': Db)
    requires Legal(db, tx) && db' == Apply(db, tx)
    ensures |db'.jobs| == |db.jobs| + if tx.CreateTx? then 1 else 0
  {
    assert |db.jobs| == |db.jobs.Keys| && |db'.jobs| == |db'.jobs.Keys|;
    if tx.CreateTx? {
      assert db'.jobs.Keys == db.jobs.Keys + {tx.id};
    } else {
      assert db'.jobs.Keys == db.jobs.Keys;
    }
  }
}
