/** What every step writes, said step by step in terms of rows, events, entries and positions;
    and where every event of a run comes from. */
module Provenance {
  import opened Domain
  import opened Store
  import opened Streams
  import opened Protocol
  import opened Safety
  import opened Guard
  import opened SingleFlight
  import opened Budget

  // ----- tables -----

  /** Only the status of job j changes in the jobs table. */
  ghost predicate OnlyStatus(db: Db, db': Db, j: JobId, status: Status) {
    && j in db.jobs && db'.jobs.Keys == db.jobs.Keys
    && db'.jobs[j].status == status && SameExceptStatus(db.jobs[j], db'.jobs[j])
    && forall x :: x in db.jobs && x != j ==> db'.jobs[x] == db.jobs[x]
  }

  /** The status is written and one event is logged. */
  ghost predicate Recorded(db: Db, db': Db, j: JobId, status: Status, body: Body) {
    && OnlyStatus(db, db', j, status) && db'.events == db.events + [Event(j, body)]
    && db'.finals == db.finals && db'.conflicts == db.conflicts
  }

  /** The guard row, the status and the event are written, or for a job that has a guard row
      one conflict row and nothing else. */
  ghost predicate Finalized(db: Db, db': Db, j: JobId, status: Status, body: Body) {
    && j in db.jobs
    && (j !in db.finals ==>
          && OnlyStatus(db, db', j, status) && db'.events == db.events + [Event(j, body)]
          && db'.conflicts == db.conflicts && db'.finals.Keys == db.finals.Keys + {j}
          && db'.finals[j].status == status && db'.finals[j].kind == body.Kind()
          && forall x :: x in db.finals ==> db'.finals[x] == db.finals[x])
    && (j in db.finals ==>
          && db'.jobs == db.jobs && db'.events == db.events && db'.finals == db.finals
          && |db'.conflicts| == |db.conflicts| + 1 && db.conflicts <= db'.conflicts
          && db'.conflicts[|db.conflicts|].job == j && db'.conflicts[|db.conflicts|].status == status
          && db'.conflicts[|db.conflicts|].kind == body.Kind())
  }

  /** The acting actor moves to pc and nobody else does. */
  ghost predicate MovesTo(s: State, i: ActorId, s': State, pc: Pc) {
    && i < |s.actors| == |s'.actors| && s'.actors[i] == pc
    && forall k :: 0 <= k < |s.actors| && k != i ==> s'.actors[k] == s.actors[k]
  }

  lemma RecordIs(db: Db, tx: DbOp, db': Db)
    requires tx.RecordTx? && Legal(db, tx) && db' == Apply(db, tx)
    ensures Recorded(db, db', tx.job, tx.status, tx.body)
  {
  }

  lemma FinalizeIs(db: Db, tx: DbOp, db': Db)
    requires tx.FinalizeTx? && Legal(db, tx) && db' == Apply(db, tx)
    ensures Finalized(db, db', tx.job, tx.status, tx.body)
  {
  }

  /** The transaction of a step, by its kind. */
  lemma TxIs(cfg: Config, s: State, a: Action, s': State, tx: DbOp)
    requires Step(cfg, s, a, s') && tx == EffectOf(cfg, s, a).tx
    ensures tx.NoTx? ==> s'.db == s.db
    ensures tx.RecordTx? ==> Recorded(s.db, s'.db, tx.job, tx.status, tx.body)
    ensures tx.FinalizeTx? ==> Finalized(s.db, s'.db, tx.job, tx.status, tx.body)
  {
    EffectSummary(cfg, s, a);
    if tx.RecordTx? {
      RecordIs(s.db, tx, s'.db);
    }
    if tx.FinalizeTx? {
      FinalizeIs(s.db, tx, s'.db);
    }
  }

  // ----- the transactions of a worker -----

  /** The first transaction of a message. */
  lemma StartWrites(cfg: Config, s: State, i: ActorId, s': State, e: EntryId, m: Message)
    requires Step(cfg, s, Start(i), s') && s.actors[i] == Leased(e) && m == s.q.entries[e]
    ensures var skipped := m.job !in s.db.jobs || s.db.jobs[m.job].status.Terminal();
            && s'.files == s.files
            && (skipped ==> s'.db == s.db && s'.q == s.q && MovesTo(s, i, s', Acking(e, false, ToIdle)))
            && (!skipped && Admits(cfg.policyOf(i), s.db.jobs[m.job]) ==>
                  && Recorded(s.db, s'.db, m.job, Running, RunningBody(i, m.attempt)) && s'.q == s.q
                  && MovesTo(s, i, s', Executing(e, s.db.jobs[m.job])))
            && (!skipped && !Admits(cfg.policyOf(i), s.db.jobs[m.job]) ==>
                  && Finalized(s.db, s'.db, m.job, Failed, BudgetBlockedBody(i, m.attempt))
                  && s'.q == s.q.(pending := s.q.pending - {e}) && MovesTo(s, i, s', Idle))
  {
    if m.job in s.db.jobs {
      AdmitsIff(cfg.policyOf(i), s.db.jobs[m.job]);
    }
  }

  /** Worker i executes entry e, whose message is m, on the snapshot job. */
  ghost predicate Executes(s: State, i: ActorId, e: EntryId, m: Message, job: JobRecord) {
    && i < |s.actors| && Busy(s.actors[i]) && s.actors[i].e == e && s.actors[i].job == job
    && e < |s.q.entries| && s.q.entries[e] == m
  }

  /** What a success refers to: the artifact that was written, if one was. */
  function ArtifactOf(pc: Pc): Option<Stored> {
    if pc.Wrote? then Some(pc.stored) else None
  }

  /** The transaction that ends an execution, if its outcome is final. */
  lemma FinishWrites(cfg: Config, s: State, i: ActorId, o: Outcome, s': State, e: EntryId, m: Message, job: JobRecord)
    requires Step(cfg, s, Finish(i, o), s') && Executes(s, i, e, m, job) && !o.TransientError?
    ensures s'.q == s.q && s'.files == s.files && MovesTo(s, i, s', Acking(e, false, ToIdle))
    ensures o.Success? ==>
              Finalized(s.db, s'.db, m.job, Completed, CompletedBody(i, m.attempt, ArtifactOf(s.actors[i])))
    ensures o.PolicyError? ==> Finalized(s.db, s'.db, m.job, Failed, FailedBody(i, m.attempt, false))
    ensures o.RunTimedOut? ==> Finalized(s.db, s'.db, m.job, TimedOut, TimedOutBody(i, m.attempt))
    ensures o.RunCancelled? ==> Finalized(s.db, s'.db, m.job, Cancelled, CancelledBody(m.attempt, true))
  {
    TxIs(cfg, s, Finish(i, o), s', EffectOf(cfg, s, Finish(i, o)).tx);
  }

  /** The three branches of a transient error. */
  lemma TransientWrites(cfg: Config, s: State, i: ActorId, s': State, e: EntryId, m: Message, job: JobRecord)
    requires Step(cfg, s, Finish(i, TransientError), s') && Executes(s, i, e, m, job)
    ensures s'.q == s.q && s'.files == s.files
    ensures m.attempt <= job.maxRetries && m.attempt <= cfg.policyOf(i).retryBudget ==>
              && Recorded(s.db, s'.db, m.job, Queued, RetryScheduledBody(i, m.attempt, m.attempt + 1))
              && MovesTo(s, i, s', Publishing(e, Message(m.job, m.attempt + 1, FromRetry(e)), ToIdle))
    ensures m.attempt <= job.maxRetries && m.attempt > cfg.policyOf(i).retryBudget ==>
              && Finalized(s.db, s'.db, m.job, Failed, BudgetBlockedBody(i, m.attempt))
              && MovesTo(s, i, s', Acking(e, false, ToIdle))
    ensures m.attempt > job.maxRetries ==>
              && Finalized(s.db, s'.db, m.job, Failed, FailedBody(i, m.attempt, true))
              && MovesTo(s, i, s', Acking(e, false, ToIdle))
  {
    TxIs(cfg, s, Finish(i, TransientError), s', EffectOf(cfg, s, Finish(i, TransientError)).tx);
  }

  // ----- the transaction of a pass -----

  /** The plan for the first lease e of the list. */
  lemma PlanWrites(cfg: Config, s: State, i: ActorId, s': State, e: EntryId, rest: seq<EntryId>, m: Message)
    requires Step(cfg, s, Plan(i), s') && s.actors[i] == Recovering([e] + rest) && m == s.q.entries[e]
    ensures s'.q == s.q && s'.files == s.files
    ensures var skipped := m.job !in s.db.jobs || s.db.jobs[m.job].status.Terminal();
            && (skipped ==> s'.db == s.db && MovesTo(s, i, s', Acking(e, false, ToPass(rest))))
            && (!skipped && m.attempt <= s.db.jobs[m.job].maxRetries ==>
                  && Recorded(s.db, s'.db, m.job, Queued, StaleRecoveredBody(i, m.attempt, m.attempt + 1, e))
                  && MovesTo(s, i, s', Publishing(e, Message(m.job, m.attempt + 1, FromRecovery(e)), ToPass(rest))))
            && (!skipped && m.attempt > s.db.jobs[m.job].maxRetries ==>
                  && Finalized(s.db, s'.db, m.job, Failed, FailedBody(i, m.attempt, true))
                  && MovesTo(s, i, s', DeadLettering(e, ToPass(rest))))
  {
    assert ([e] + rest)[0] == e && ([e] + rest)[1..] == rest;
  }

  // ----- the submitter -----

  lemma SubmitWrites(cfg: Config, s: State, id: JobId, sub: Submission, s': State)
    requires Step(cfg, s, Submit(id, sub), s')
    ensures s'.q == s.q && s'.files == s.files && s'.actors == s.actors
    ensures (exists j :: j in s.db.jobs && s.db.jobs[j].key == sub.key) ==> s'.db == s.db
    ensures !(exists j :: j in s.db.jobs && s.db.jobs[j].key == sub.key) ==>
              && s'.db.jobs.Keys == s.db.jobs.Keys + {id} && id !in s.db.jobs
              && RowOf(s'.db.jobs[id], sub) && s'.db.jobs[id].status == Submitted
              && (forall j :: j in s.db.jobs ==> s'.db.jobs[j] == s.db.jobs[j])
              && s'.db.events == s.db.events + [Event(id, SubmittedBody)]
              && s'.db.finals == s.db.finals && s'.db.conflicts == s.db.conflicts
  {
  }

  lemma CancelWrites(cfg: Config, s: State, j: JobId, s': State)
    requires Step(cfg, s, CancelQueued(j), s')
    ensures s'.q == s.q && s'.files == s.files && s'.actors == s.actors
    ensures Finalized(s.db, s'.db, j, Cancelled, CancelledBody(0, false))
  {
  }

  // ----- the stream -----

  /** One entry with message m is appended. */
  ghost predicate Appended(q: Queue, q': Queue, m: Message) {
    && |q'.entries| == |q.entries| + 1 && q.entries <= q'.entries && q'.entries[|q.entries|] == m
    && q'.cursor == q.cursor && q'.pending == q.pending && q'.dlq == q.dlq
  }

  lemma PublishWrites(cfg: Config, s: State, a: Action, s': State)
    requires Step(cfg, s, a, s') && (a.Publish? || a.PublishInitial?)
    ensures s'.db == s.db && s'.files == s.files
    ensures a.PublishInitial? ==> Appended(s.q, s'.q, Message(a.job, 1, FromSubmitter)) && s'.actors == s.actors
    ensures a.Publish? ==>
              var pc := s.actors[a.i];
              Appended(s.q, s'.q, pc.m) && MovesTo(s, a.i, s', Acking(pc.e, true, pc.cont))
  {
  }

  lemma LeaseWrites(cfg: Config, s: State, i: ActorId, now: int, s': State)
    requires Step(cfg, s, LeaseNext(i, now), s')
    ensures s'.db == s.db && s'.files == s.files && MovesTo(s, i, s', Leased(s.q.cursor))
    ensures s'.q.entries == s.q.entries && s'.q.dlq == s.q.dlq && s'.q.cursor == s.q.cursor + 1
    ensures s'.q.pending == s.q.pending[s.q.cursor := Lease(i, now)]
  {
  }

  lemma AckWrites(cfg: Config, s: State, i: ActorId, s': State)
    requires Step(cfg, s, Ack(i), s')
    ensures s'.db == s.db && s'.files == s.files && s'.q == s.q.(pending := s.q.pending - {s.actors[i].e})
    ensures MovesTo(s, i, s', if s.actors[i].cont.ToIdle? then Idle else Recovering(s.actors[i].cont.rest))
  {
  }

  lemma DeadLetterWrites(cfg: Config, s: State, i: ActorId, s': State, e: EntryId, cont: Cont)
    requires Step(cfg, s, MoveToDeadLetter(i), s') && s.actors[i] == DeadLettering(e, cont)
    ensures s'.db == s.db && s'.files == s.files && MovesTo(s, i, s', Acking(e, false, cont))
    ensures var m := s.q.entries[e]; s'.q == s.q.(dlq := s.q.dlq + [DeadLetter(m.job, m.attempt, m.attempt)])
  {
  }

  /** A renewal resets the lease of a pending entry and touches nothing else. */
  lemma RenewWrites(cfg: Config, s: State, c: ActorId, e: EntryId, now: int, s': State)
    requires Step(cfg, s, Renew(c, e, now), s')
    ensures s'.db == s.db && s'.files == s.files && s'.actors == s.actors
    ensures s'.q.entries == s.q.entries && s'.q.cursor == s.q.cursor && s'.q.dlq == s.q.dlq
    ensures s'.q.pending.Keys == s.q.pending.Keys && (e in s.q.pending ==> s'.q.pending[e] == Lease(c, now))
    ensures forall x :: x in s.q.pending && x != e ==> s'.q.pending[x] == s.q.pending[x]
  {
  }

  /** The write of an artifact: the request names the message's job and attempt, the worker,
      and the run and payload of the row that the worker loaded. */
  lemma ArtifactWrites(cfg: Config, s: State, i: ActorId, result: RunnerResult, at: string, s': State, e: EntryId,
                       m: Message, job: JobRecord)
    requires Step(cfg, s, WriteArtifact(i, result, at), s') && s.actors[i] == Executing(e, job) && m == s.q.entries[e]
    ensures s'.db == s.db && s'.q == s.q && cfg.hasStore(i)
    ensures var w := cfg.artifact(WriteRequest(m.job, job.runId, job.payload, i, m.attempt, at, result));
            && s'.files == s.files[(m.job, m.attempt) := w.bytes]
            && MovesTo(s, i, s', Wrote(e, job, Stored(result, at, w.meta)))
  {
  }

  /** A scan takes the stale leases in id order, up to the count. */
  lemma ScanWrites(cfg: Config, s: State, i: ActorId, now: int, staleAfter: int, count: nat, s': State)
    requires QueueInv(s.q) && Step(cfg, s, FindStale(i, now, staleAfter, count), s')
    ensures s'.db == s.db && s'.q == s.q && s'.files == s.files && MovesTo(s, i, s', s'.actors[i])
    ensures s'.actors[i].Recovering?
    ensures var ids := s'.actors[i].todo;
            && |ids| <= count && (forall k, l :: 0 <= k < l < |ids| ==> ids[k] < ids[l])
            && forall e ::
                 e in ids <==> Stale(s.q, e, now, staleAfter) && StaleCount(s.q, 0, e, now, staleAfter) < count
  {
    StaleFromIsScan(s.q, 0, now, staleAfter, count);
    forall e: EntryId
      ensures e in StaleFrom(s.q, 0, now, staleAfter, count)
         <==> Stale(s.q, e, now, staleAfter) && StaleCount(s.q, 0, e, now, staleAfter) < count
    {
      StaleFromFinds(s.q, 0, now, staleAfter, count, e);
    }
  }

  /** The end of a pass and a crash leave everything but the actor's position. */
  lemma StopWrites(cfg: Config, s: State, a: Action, s': State)
    requires Step(cfg, s, a, s') && (a.EndPass? || a.Crash?)
    ensures s'.db == s.db && s'.q == s.q && s'.files == s.files && MovesTo(s, a.i, s', Idle)
  {
  }

  // ----- where events come from -----

  /** The actor handles the entry with the event's job and attempt. */
  ghost predicate Handles(s: State, i: ActorId, j: JobId, attempt: nat) {
    i < |s.actors| && Subject(s.actors[i]).Some? &&
    var e := Subject(s.actors[i]).value;
    e < |s.q.entries| && s.q.entries[e].job == j && s.q.entries[e].attempt == attempt
  }

  ghost predicate Runs(s: State, i: ActorId, j: JobId, attempt: nat) {
    Handles(s, i, j, attempt) && Busy(s.actors[i])
  }

  /** The step that can have written the event, by the type of the event. */
  ghost predicate Origin(cfg: Config, s: State, a: Action, x: Event) {
    match x.body
    case SubmittedBody => a.Submit? && a.id == x.job && x.job !in s.db.jobs
    case RunningBody(w, n) =>
      a == Start(w) && Handles(s, w, x.job, n) && x.job in s.db.jobs && Admits(cfg.policyOf(w), s.db.jobs[x.job])
    case RetryScheduledBody(w, n, next) =>
      && a == Finish(w, TransientError) && Runs(s, w, x.job, n) && next == n + 1
      && n <= s.actors[w].job.maxRetries && n <= cfg.policyOf(w).retryBudget
    case StaleRecoveredBody(w, n, next, e) =>
      && a == Plan(w) && Handles(s, w, x.job, n) && Subject(s.actors[w]) == Some(e) && next == n + 1
      && x.job in s.db.jobs && n <= s.db.jobs[x.job].maxRetries
    case CompletedBody(w, n, artifact) =>
      a == Finish(w, Success) && Runs(s, w, x.job, n) && artifact == ArtifactOf(s.actors[w])
    case FailedBody(w, n, true) =>
      || (a == Finish(w, TransientError) && Runs(s, w, x.job, n) && n > s.actors[w].job.maxRetries)
      || (a == Plan(w) && Handles(s, w, x.job, n) && x.job in s.db.jobs && n > s.db.jobs[x.job].maxRetries)
    case FailedBody(w, n, false) => a == Finish(w, PolicyError) && Runs(s, w, x.job, n)
    case TimedOutBody(w, n) => a == Finish(w, RunTimedOut) && Runs(s, w, x.job, n)
    case CancelledBody(n, true) => a.Finish? && a.outcome == RunCancelled && Runs(s, a.i, x.job, n)
    case CancelledBody(n, false) => a == CancelQueued(x.job) && n == 0
    case BudgetBlockedBody(w, n) =>
      || (a == Start(w) && Handles(s, w, x.job, n) && x.job in s.db.jobs && !Admits(cfg.policyOf(w), s.db.jobs[x.job]))
      || (&& a == Finish(w, TransientError) && Runs(s, w, x.job, n)
          && n <= s.actors[w].job.maxRetries && n > cfg.policyOf(w).retryBudget)
  }

  lemma LoggedHere(cfg: Config, s: State, a: Action, s': State, x: Event)
    requires Step(cfg, s, a, s') && s'.db.events != s.db.events && s'.db.events[|s.db.events|..] == [x]
    ensures Origin(cfg, s, a, x)
  {
    EventOfStep(cfg, s, a, x, EffectOf(cfg, s, a).tx);
  }

  lemma EventOfStep(cfg: Config, s: State, a: Action, x: Event, tx: DbOp)
    requires Enabled(cfg, s, a) && tx == EffectOf(cfg, s, a).tx && !tx.NoTx? && x.job == tx.Subject()
    requires x.body == match tx { case RecordTx(_, _, b) => b case FinalizeTx(_, _, b) => b case _ => SubmittedBody }
    ensures Origin(cfg, s, a, x)
  {
    if a.Start? {
      AdmitsIff(cfg.policyOf(a.i), s.db.jobs[x.job]);
    }
  }

  /** Every event of every run was appended by one step, and one that its type allows. */
  lemma {:induction false} EventOrigin(cfg: Config, ss: seq<State>, acts: seq<Action>, n: nat, k: nat) returns (m: nat)
    requires Run(cfg, ss, acts) && n <= |acts| && k < |ss[n].db.events|
    ensures m < n && |ss[m].db.events| == k && Origin(cfg, ss[m], acts[m], ss[n].db.events[k])
    ensures ss[m + 1].db.events == ss[m].db.events + [ss[n].db.events[k]]
  {
    assert n > 0;
    assert Step(cfg, ss[n - 1], acts[n - 1], ss[n]);
    EventsGrow(cfg, ss[n - 1], acts[n - 1], ss[n]);
    if k < |ss[n - 1].db.events| {
      m := EventOrigin(cfg, ss, acts, n - 1, k);
    } else {
      m := n - 1;
      LoggedHere(cfg, ss[m], acts[m], ss[n], ss[n].db.events[k]);
    }
  }

  /** A step logs at most one event. */
  lemma EventsGrow(cfg: Config, s: State, a: Action, s': State)
    requires Step(cfg, s, a, s')
    ensures s.db.events <= s'.db.events && |s'.db.events| <= |s.db.events| + 1
  {
  }

  /** The classification of failures: an event says retryable if and only if the attempt was
      beyond max_retries when a transient error or a stale lease ended it; the other failed
      events are those of policy errors. */
  lemma FailureClass(cfg: Config, ss: seq<State>, acts: seq<Action>, n: nat, k: nat) returns (m: nat)
    requires Run(cfg, ss, acts) && n <= |acts| && k < |ss[n].db.events| && ss[n].db.events[k].body.FailedBody?
    ensures m < n && |ss[m].db.events| == k
    ensures var w := ss[n].db.events[k].body.worker;
            && (ss[n].db.events[k].body.retryable <==> acts[m] == Finish(w, TransientError) || acts[m] == Plan(w))
            && (!ss[n].db.events[k].body.retryable <==> acts[m] == Finish(w, PolicyError))
    ensures var x := ss[n].db.events[k];
            x.body.retryable ==> x.job in ss[n].db.jobs && x.body.attempt == ss[n].db.jobs[x.job].maxRetries + 1
  {
    m := EventOrigin(cfg, ss, acts, n, k);
    if ss[n].db.events[k].body.retryable {
      RunKeepsInv(cfg, ss, acts);
      StepsGrow(cfg, ss, acts, m, n);
      assert Inv(ss[m]) && Inv(ss[n]);
      BeyondRetries(cfg, ss[m], acts[m], ss[n].db, ss[n].db.events[k]);
    }
  }

  /** Only the attempt after the last retry is beyond max_retries. */
  lemma BeyondRetries(cfg: Config, s: State, a: Action, db': Db, x: Event)
    requires QueueInv(s.q) && (a.Finish? && a.i < |s.actors| ==> PcShape(s, s.actors[a.i])) && Grows(s.db, db')
    requires x.job in db'.jobs && EventAttempt(db', x) && x.body.FailedBody? && x.body.retryable && Origin(cfg, s, a, x)
    ensures x.body.attempt == db'.jobs[x.job].maxRetries + 1
  {
  }

  /** Every row of every run was inserted by a submission of its id, and has that submission's
      values ever since. */
  lemma {:induction false} RowOrigin(cfg: Config, ss: seq<State>, acts: seq<Action>, n: nat, j: JobId) returns (m: nat)
    requires Run(cfg, ss, acts) && n <= |acts| && j in ss[n].db.jobs
    ensures m < n && acts[m].Submit? && acts[m].id == j && j !in ss[m].db.jobs && RowOf(ss[n].db.jobs[j], acts[m].sub)
  {
    assert n > 0;
    assert Step(cfg, ss[n - 1], acts[n - 1], ss[n]);
    if j in ss[n - 1].db.jobs {
      m := RowOrigin(cfg, ss, acts, n - 1, j);
      RowStays(cfg, ss[n - 1], acts[n - 1], ss[n], j);
    } else {
      m := n - 1;
      RowIsNew(cfg, ss[m], acts[m], ss[n], j);
    }
  }

  lemma RowStays(cfg: Config, s: State, a: Action, s': State, j: JobId)
    requires Step(cfg, s, a, s') && j in s.db.jobs
    ensures j in s'.db.jobs && SameExceptStatus(s.db.jobs[j], s'.db.jobs[j])
  {
    EffectSummary(cfg, s, a);
    ApplyGrows(s.db, EffectOf(cfg, s, a).tx);
  }

  lemma RowIsNew(cfg: Config, s: State, a: Action, s': State, j: JobId)
    requires Step(cfg, s, a, s') && j !in s.db.jobs && j in s'.db.jobs
    ensures a.Submit? && a.id == j && RowOf(s'.db.jobs[j], a.sub)
  {
    EffectSummary(cfg, s, a);
  }

  /** A submission that is accepted leaves a row with its own values in every later state. */
  lemma AcceptedRowLasts(cfg: Config, ss: seq<State>, acts: seq<Action>, m: nat, n: nat)
    requires Run(cfg, ss, acts) && m < n <= |acts| && acts[m].Submit? && !KeyTaken(ss[m].db, acts[m].sub.key)
    ensures acts[m].id in ss[n].db.jobs && RowOf(ss[n].db.jobs[acts[m].id], acts[m].sub)
  {
    assert Step(cfg, ss[m], acts[m], ss[m + 1]);
    SubmitWrites(cfg, ss[m], acts[m].id, acts[m].sub, ss[m + 1]);
    RunKeepsInv(cfg, ss, acts);
    assert Inv(ss[m + 1]);
    StepsGrow(cfg, ss, acts, m + 1, n);
  }

  /** Whatever ran on a worker was submitted within that worker's policy. */
  lemma RanAsSubmitted(cfg: Config, ss: seq<State>, acts: seq<Action>, n: nat, j: JobId, w: ActorId) returns (m: nat)
    requires Run(cfg, ss, acts) && n <= |acts| && RanOn(ss[n].db, j, w)
    ensures m < n && acts[m].Submit? && acts[m].id == j && AdmitsSubmission(cfg.policyOf(w), acts[m].sub)
  {
    OnlyAdmittedJobsRun(cfg, ss, acts, n, j, w);
    m := RowOrigin(cfg, ss, acts, n, j);
    RowAdmission(cfg.policyOf(w), ss[n].db.jobs[j], acts[m].sub);
  }
}
