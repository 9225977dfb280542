/** The Postgres side as a value: the jobs table, the append-only event log, the
    one-row-per-job finalization guard and the conflict rows. A transaction that
    commits is one DbOp. */
module Store {
  import opened Domain

  datatype Finalization = Finalization(status: Status, kind: Kind)
  datatype Conflict = Conflict(job: JobId, status: Status, kind: Kind)

  datatype Db = Db(
    jobs: map<JobId, JobRecord>,
    events: seq<Event>,
    finals: map<JobId, Finalization>,
    conflicts: seq<Conflict>)

  const EMPTY_DB := Db(map[], [], map[], [])

  /** What a committed transaction writes. */
  datatype DbOp =
    | NoTx
    | CreateTx(id: JobId, sub: Submission)
    | RecordTx(job: JobId, status: Status, body: Body)
    | FinalizeTx(job: JobId, status: Status, body: Body)
  {
    /** The job that the transaction is about; 0 for none. */
    function Subject(): JobId {
      match this
      case NoTx => 0
      case CreateTx(id, _) => id
      case RecordTx(j, _, _) => j
      case FinalizeTx(j, _, _) => j
    }

    /** The type of the event that goes with it. */
    function Kind(): Kind {
      match this
      case RecordTx(_, _, body) => body.Kind()
      case FinalizeTx(_, _, body) => body.Kind()
      case _ => KSubmitted
    }
  }

  function FreshRecord(sub: Submission): JobRecord {
    JobRecord(sub.runId, sub.jobType, sub.payload, sub.payloadHash, sub.key,
              Submitted, sub.timeoutSeconds, sub.maxRetries, sub.budgetCents)
  }

  /** The row has the submission's own values. */
  ghost predicate RowOf(row: JobRecord, sub: Submission) {
    && row.runId == sub.runId && row.jobType == sub.jobType && row.payload == sub.payload
    && row.payloadHash == sub.payloadHash && row.key == sub.key && row.timeoutSeconds == sub.timeoutSeconds
    && row.maxRetries == sub.maxRetries && row.budgetCents == sub.budgetCents
  }

  /** The unique index on idempotency_key makes this lookup a function. */
  ghost predicate KeyTaken(db: Db, key: string) {
    exists j :: j in db.jobs && db.jobs[j].key == key
  }

  function SetStatus(db: Db, j: JobId, status: Status): Db
    requires j in db.jobs
  {
    db.(jobs := db.jobs[j := db.jobs[j].(status := status)])
  }

  function InsertJob(db: Db, id: JobId, sub: Submission): Db {
    db.(jobs := db.jobs[id := FreshRecord(sub)], events := db.events + [Event(id, SubmittedBody)])
  }

  /** _record_state_event: an unconditional status update and one event. */
  function RecordState(db: Db, j: JobId, status: Status, body: Body): Db
    requires j in db.jobs
  {
    SetStatus(db, j, status).(events := db.events + [Event(j, body)])
  }

  /** finalize_job: insert-on-conflict-do-nothing decides who writes. */
  function Finalize(db: Db, j: JobId, status: Status, body: Body): Db
    requires j in db.jobs
  {
    if j in db.finals then
      db.(conflicts := db.conflicts + [Conflict(j, status, body.Kind())])
    else
      SetStatus(db, j, status).(
      finals := db.finals[j := Finalization(status, body.Kind())],
      events := db.events + [Event(j, body)])
  }

  /** The conditions the schema and the callers put on a transaction: foreign keys,
      the primary key and the unique idempotency key, and the status/body pairs that
      the record_* helpers pass on. */
  ghost predicate Legal(db: Db, op: DbOp) {
    match op
    case NoTx => true
    case CreateTx(id, sub) => id !in db.jobs && !KeyTaken(db, sub.key)
    case RecordTx(j, status, body) =>
      && j in db.jobs && (status.Queued? || status.Running?)
      && !body.Kind().Final() && !body.SubmittedBody?
    case FinalizeTx(j, status, body) =>
      j in db.jobs && body.Kind().Final() && status == body.Kind().FinalStatus()
  }

  ghost function Apply(db: Db, op: DbOp): Db
    requires Legal(db, op)
  {
    match op
    case NoTx => db
    case CreateTx(id, sub) => InsertJob(db, id, sub)
    case RecordTx(j, status, body) => RecordState(db, j, status, body)
    case FinalizeTx(j, status, body) => Finalize(db, j, status, body)
  }

  // ----- counting over the event log -----

  /** How many events of job j satisfy p. */
  ghost function Count(events: seq<Event>, j: JobId, p: Kind -> bool): nat {
    if events == [] then 0
    else
      var last := events[|events| - 1];
      Count(events[..|events| - 1], j, p) + if last.job == j && p(last.body.Kind()) then 1 else 0
  }

  lemma CountAppend(events: seq<Event>, x: Event, j: JobId, p: Kind -> bool)
    ensures Count(events + [x], j, p) == Count(events, j, p) + if x.job == j && p(x.body.Kind()) then 1 else 0
  {
    assert (events + [x])[..|events|] == events;
  }

  lemma {:induction false} CountWeaker(events: seq<Event>, j: JobId, p: Kind -> bool, q: Kind -> bool)
    requires forall k :: p(k) ==> q(k)
    ensures Count(events, j, p) <= Count(events, j, q)
  {
    if events != [] {
      CountWeaker(events[..|events| - 1], j, p, q);
    }
  }

  lemma {:induction false} CountZero(events: seq<Event>, j: JobId, p: Kind -> bool)
    requires forall i :: 0 <= i < |events| ==> events[i].job != j
    ensures Count(events, j, p) == 0
  {
    if events != [] {
      CountZero(events[..|events| - 1], j, p);
    }
  }

  /** How many events satisfy p, whatever their job. */
  ghost function CountAll(events: seq<Event>, p: Kind -> bool): nat {
    if events == [] then 0
    else CountAll(events[..|events| - 1], p) + if p(events[|events| - 1].body.Kind()) then 1 else 0
  }

  lemma CountAllAppend(events: seq<Event>, x: Event, p: Kind -> bool)
    ensures CountAll(events + [x], p) == CountAll(events, p) + if p(x.body.Kind()) then 1 else 0
  {
    assert (events + [x])[..|events|] == events;
  }

  const IS_FINAL: Kind -> bool := (k: Kind) => k.Final()
  const IS_NAMED_AS_STATUS: Kind -> bool := (k: Kind) => k.NamedAsStatus()
  const IS_SUBMITTED: Kind -> bool := (k: Kind) => k == KSubmitted

  /** duplicate_terminal_event_count: the jobs (of one run, or of all runs) with more
      than one event named after a terminal status. */
  ghost function DuplicateTerminalJobs(db: Db, run: Option<RunId>): set<JobId> {
    set j | j in db.jobs && (run.None? || db.jobs[j].runId == run.value)
            && Count(db.events, j, IS_NAMED_AS_STATUS) > 1
  }

  // ----- what every transaction keeps -----

  /** Every event, guard row and conflict row belongs to a job, and final events carry the kind
      of the guard row. */
  ghost predicate RowsInv(db: Db) {
    && (forall i :: 0 <= i < |db.events| ==> db.events[i].job in db.jobs)
    && (forall i :: 0 <= i < |db.conflicts| ==> db.conflicts[i].job in db.jobs)
    && (forall j :: j in db.finals ==>
          j in db.jobs && db.finals[j].kind.Final() && db.finals[j].status == db.finals[j].kind.FinalStatus())
    && (forall i :: 0 <= i < |db.events| && db.events[i].body.Kind().Final() ==>
          db.events[i].job in db.finals && db.finals[db.events[i].job].kind == db.events[i].body.Kind())
  }

  /** A job has one final event if it has a guard row, and none otherwise. */
  ghost predicate OneFinalEvent(db: Db) {
    forall j :: j in db.jobs ==> Count(db.events, j, IS_FINAL) == if j in db.finals then 1 else 0
  }

  /** A terminal status is always backed by a guard row with that same status. */
  ghost predicate StatusBacked(db: Db) {
    forall j :: j in db.jobs && db.jobs[j].status.Terminal() ==>
      j in db.finals && db.finals[j].status == db.jobs[j].status
  }

  ghost predicate GuardInv(db: Db) {
    RowsInv(db) && OneFinalEvent(db) && StatusBacked(db)
  }

  ghost predicate UniqueKeys(db: Db) {
    forall i, j :: i in db.jobs && j in db.jobs && db.jobs[i].key == db.jobs[j].key ==> i == j
  }

  ghost predicate OneSubmittedEvent(db: Db) {
    forall j :: j in db.jobs ==> Count(db.events, j, IS_SUBMITTED) == 1
  }

  /** Submission invariant: keys are unique and each job has exactly one submitted event. */
  ghost predicate SubmitInv(db: Db) {
    UniqueKeys(db) && OneSubmittedEvent(db)
  }

  /** What no transaction ever takes back. */
  ghost predicate Grows(db: Db, db': Db) {
    && db.events <= db'.events
    && db.conflicts <= db'.conflicts
    && (forall j :: j in db.jobs ==> j in db'.jobs && SameExceptStatus(db.jobs[j], db'.jobs[j]))
    && (forall j :: j in db.finals ==> j in db'.finals && db'.finals[j] == db.finals[j])
  }

  lemma ApplyGrows(db: Db, op: DbOp)
    requires Legal(db, op)
    ensures Grows(db, Apply(db, op))
  {
  }

  /** What a transaction does to the count of one job's events of a kind. */
  lemma CountAfter(db: Db, op: DbOp, j: JobId, p: Kind -> bool)
    requires Legal(db, op)
    ensures var events := Apply(db, op).events;
            Count(events, j, p)
            == Count(db.events, j, p) + if Logs(db, op) && op.Subject() == j && p(op.Kind()) then 1 else 0
  {
    var db' := Apply(db, op);
    if Logs(db, op) {
      var x := db'.events[|db.events|];
      assert db'.events == db.events + [x];
      CountAppend(db.events, x, j, p);
    }
  }

  /** The transaction appends an event. */
  ghost predicate Logs(db: Db, op: DbOp) {
    op.CreateTx? || op.RecordTx? || (op.FinalizeTx? && op.job !in db.finals)
  }

  lemma ApplyKeepsOneFinalEvent(db: Db, op: DbOp)
    requires RowsInv(db) && OneFinalEvent(db) && Legal(db, op)
    ensures OneFinalEvent(Apply(db, op))
  {
    var db' := Apply(db, op);
    forall j | j in db'.jobs
      ensures Count(db'.events, j, IS_FINAL) == if j in db'.finals then 1 else 0
    {
      CountAfter(db, op, j, IS_FINAL);
      if j !in db.jobs {
        CountZero(db.events, j, IS_FINAL);
      }
    }
  }

  lemma ApplyKeepsRowsInv(db: Db, op: DbOp)
    requires RowsInv(db) && Legal(db, op)
    ensures RowsInv(Apply(db, op))
  {
  }

  lemma ApplyKeepsGuardInv(db: Db, op: DbOp)
    requires GuardInv(db) && Legal(db, op)
    ensures GuardInv(Apply(db, op))
  {
    ApplyKeepsRowsInv(db, op);
    ApplyKeepsOneFinalEvent(db, op);
    assert StatusBacked(Apply(db, op));
  }

  lemma ApplyKeepsOneSubmittedEvent(db: Db, op: DbOp)
    requires RowsInv(db) && OneSubmittedEvent(db) && Legal(db, op)
    ensures OneSubmittedEvent(Apply(db, op))
  {
    var db' := Apply(db, op);
    forall j | j in db'.jobs
      ensures Count(db'.events, j, IS_SUBMITTED) == 1
    {
      CountAfter(db, op, j, IS_SUBMITTED);
      if j !in db.jobs {
        CountZero(db.events, j, IS_SUBMITTED);
      }
    }
  }

  lemma ApplyKeepsUniqueKeys(db: Db, op: DbOp)
    requires UniqueKeys(db) && Legal(db, op)
    ensures UniqueKeys(Apply(db, op))
  {
    var db' := Apply(db, op);
    forall i, j | i in db'.jobs && j in db'.jobs && db'.jobs[i].key == db'.jobs[j].key
      ensures i == j
    {
      assert i in db.jobs ==> db.jobs[i].key == db'.jobs[i].key;
      assert j in db.jobs ==> db.jobs[j].key == db'.jobs[j].key;
    }
  }

  /** With the guard invariant the duplicate query returns nothing, for every run filter. */
  lemma NoDuplicateTerminalEvents(db: Db, run: Option<RunId>)
    requires GuardInv(db)
    ensures DuplicateTerminalJobs(db, run) == {}
  {
    forall j | j in db.jobs
      ensures Count(db.events, j, IS_NAMED_AS_STATUS) <= 1
    {
      CountWeaker(db.events, j, IS_NAMED_AS_STATUS, IS_FINAL);
    }
  }
}
