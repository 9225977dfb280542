/** The objects of the runtime: the database session, the Redis stream wrapper, the
    artifact store and the worker. Each method is proved to commit the transaction or the
    stream command that the protocol says, and a worker's process_one to be a path of
    protocol steps. */
module Runtime {
  import opened Domain
  import opened Store
  import opened Streams
  import opened Protocol
  import opened Safety
  import opened Drain
  import opened Artifacts

  datatype FinalizationResult = Finalized | ConflictRecorded | NotTerminal

  class Database {
    var jobs: map<JobId, JobRecord>
    var events: seq<Event>
    var finals: map<JobId, Finalization>
    var conflicts: seq<Conflict>

    ghost function View(): Db
      reads this
    {
      Db(jobs, events, finals, conflicts)
    }

    constructor ()
      ensures View() == EMPTY_DB
    {
      jobs, events, finals, conflicts := map[], [], map[], [];
    }

    method LoadJobForUpdate(id: JobId) returns (job: Option<JobRecord>)
      ensures job == if id in jobs then Some(jobs[id]) else None
    {
      if id !in jobs {
        return None;
      }
      return Some(jobs[id]);
    }

    /** The insert of create_job: the row and its submitted event. */
    method InsertJob(id: JobId, sub: Submission)
      modifies this
      ensures View() == Store.InsertJob(old(View()), id, sub)
    {
      jobs := jobs[id := FreshRecord(sub)];
      events := events + [Event(id, SubmittedBody)];
    }

    method RecordStateEvent(id: JobId, status: Status, body: Body)
      requires Legal(View(), RecordTx(id, status, body))
      modifies this
      ensures View() == old(Apply(View(), RecordTx(id, status, body)))
    {
      jobs := jobs[id := jobs[id].(status := status)];
      events := events + [Event(id, body)];
    }

    /** finalize_job: a status that is not terminal is a ValueError; the guard row decides
        whether this call writes status and event or leaves a conflict row. */
    method FinalizeJob(id: JobId, status: Status, body: Body) returns (r: FinalizationResult)
      requires id in jobs
      modifies this
      ensures r.NotTerminal? <==> !status.Terminal()
      ensures !r.NotTerminal? ==> (r.Finalized? <==> old(id !in finals))
      ensures View() == if r.NotTerminal? then old(View()) else Finalize(old(View()), id, status, body)
      ensures r.ConflictRecorded? ==>
                jobs == old(jobs) && events == old(events) && finals == old(finals)
                    && |conflicts| == old(|conflicts|) + 1
    {
      if !status.Terminal() {
        return NotTerminal;
      }
      if id in finals {
        conflicts := conflicts + [Conflict(id, status, body.Kind())];
        return ConflictRecorded;
      }
      finals := finals[id := Finalization(status, body.Kind())];
      jobs := jobs[id := jobs[id].(status := status)];
      events := events + [Event(id, body)];
      return Finalized;
    }

    /** cancel_queued_job */
    method CancelQueuedJob(id: JobId)
      requires id in jobs
      modifies this
      ensures View() == Apply(old(View()), FinalizeTx(id, Cancelled, CancelledBody(0, false)))
    {
      var _ := FinalizeJob(id, Cancelled, CancelledBody(0, false));
    }
  }

  class RedisStreamsQueue {
    var entries: seq<Message>
    var cursor: nat
    var pending: map<EntryId, Lease>
    var dlq: seq<DeadLetter>

    ghost function View(): Queue
      reads this
    {
      Queue(entries, cursor, pending, dlq)
    }

    constructor ()
      ensures View() == EMPTY_QUEUE
    {
      entries, cursor, pending, dlq := [], 0, map[], [];
    }

    method PublishJob(m: Message) returns (e: EntryId)
      modifies this
      ensures View() == old(ApplyQ(View(), PublishOp(m)))
      ensures e == old(|entries|)
    {
      e := |entries|;
      entries := entries + [m];
    }

    /** XREADGROUP ">" with a count: the next entries in order, each now pending for the
        consumer and never delivered this way again. */
    method LeaseJobs(consumer: ActorId, now: int, count: nat) returns (leased: seq<EntryId>)
      requires QueueInv(View())
      modifies this
      ensures QueueInv(View()) && entries == old(entries) && dlq == old(dlq)
      ensures |leased| == if old(|entries| - cursor) < count then old(|entries| - cursor) else count
      ensures forall k :: 0 <= k < |leased| ==> leased[k] == old(cursor) + k
      ensures cursor == old(cursor) + |leased|
      ensures forall e :: e in pending <==> e in old(pending) || old(cursor) <= e < cursor
      ensures forall e :: e in pending ==>
              pending[e] == if e in old(pending) then old(pending)[e] else Lease(consumer, now)
      ensures count == 1 ==> View() == old(ApplyQ(View(), LeaseOp(consumer, now)))
    {
      leased := [];
      while |leased| < count && cursor < |entries|
        invariant QueueInv(View()) && entries == old(entries) && dlq == old(dlq)
        invariant |leased| <= count && cursor == old(cursor) + |leased|
        invariant forall k :: 0 <= k < |leased| ==> leased[k] == old(cursor) + k
        invariant forall e :: e in pending <==> e in old(pending) || old(cursor) <= e < cursor
        invariant forall e :: e in pending ==>
                  pending[e] == if e in old(pending) then old(pending)[e] else Lease(consumer, now)
        invariant |leased| == 0 ==> View() == old(View())
        invariant |leased| == 1 ==> View() == old(ApplyQ(View(), LeaseOp(consumer, now)))
      {
        leased := leased + [cursor];
        pending := pending[cursor := Lease(consumer, now)];
        cursor := cursor + 1;
      }
    }

    /** XPENDING with IDLE and a count, read in id order. */
    method FindStaleLeases(now: int, staleAfter: int, count: nat) returns (stale: seq<EntryId>)
      requires QueueInv(View())
      ensures stale == StaleFrom(View(), 0, now, staleAfter, count)
    {
      stale := ScanPending(pending, cursor, now, staleAfter, count, View());
    }

    static method ScanPending(pending: map<EntryId, Lease>, cursor: nat, now: int, staleAfter: int, count: nat,
                              ghost q: Queue)
      returns (stale: seq<EntryId>)
      requires q.pending == pending && q.cursor == cursor
      ensures stale == StaleFrom(q, 0, now, staleAfter, count)
    {
      stale := [];
      var e, left := 0, count;
      ghost var all := StaleFrom(q, 0, now, staleAfter, count);
      while e < cursor && left > 0
        invariant e <= cursor && stale + StaleFrom(q, e, now, staleAfter, left) == all
      {
        StaleFromUnfolds(q, stale, e, now, staleAfter, left);
        if e in pending && now - pending[e].since >= staleAfter {
          stale, left := stale + [e], left - 1;
        }
        e := e + 1;
      }
      StaleFromEnds(q, stale, e, now, staleAfter, left);
    }

    method RenewPendingLease(e: EntryId, consumer: ActorId, now: int) returns (renewed: bool)
      modifies this
      ensures View() == old(ApplyQ(View(), RenewOp(e, consumer, now)))
      ensures renewed <==> e in old(pending)
    {
      renewed := e in pending;
      if renewed {
        pending := pending[e := Lease(consumer, now)];
      }
    }

    method Acknowledge(e: EntryId) returns (count: nat)
      modifies this
      ensures View() == old(ApplyQ(View(), AckOp(e)))
      ensures count == if e in old(pending) then 1 else 0
    {
      count := if e in pending then 1 else 0;
      pending := pending - {e};
    }

    method MoveToDeadLetter(e: EntryId, m: Message, attemptCount: nat)
      modifies this
      ensures View() == old(ApplyQ(ApplyQ(View(), DeadLetterOp(DeadLetter(m.job, m.attempt, attemptCount))), AckOp(e)))
    {
      dlq := dlq + [DeadLetter(m.job, m.attempt, attemptCount)];
      var _ := Acknowledge(e);
    }
  }

  /** A result that the store accepts: every runner's artifact_payload is a dictionary, if any. */
  type RunnerOutput = r: RunnerResult | !r.artifactPayload.NotADict? witness RunnerResult("", Absent)

  /** What a runner does for an attempt of a job: its outcome, its result in case of success,
      and the time at which that is written. */
  datatype RunnerSpec = RunnerSpec(
    outcome: (JobId, nat) -> Outcome, result: (JobId, nat) -> RunnerOutput, stamp: (JobId, nat) -> string)

  class Worker {
    const id: ActorId
    const db: Database
    const queue: RedisStreamsQueue
    const store: ArtifactStore
    const hasStore: bool
    const policy: BudgetPolicy
    const runner: RunnerSpec

    constructor (id: ActorId, db: Database, queue: RedisStreamsQueue, store: ArtifactStore, hasStore: bool,
                 policy: BudgetPolicy, runner: RunnerSpec)
      ensures this.id == id && this.db == db && this.queue == queue && this.store == store
      ensures this.hasStore == hasStore && this.policy == policy && this.runner == runner
    {
      this.id, this.db, this.queue, this.store := id, db, queue, store;
      this.hasStore, this.policy, this.runner := hasStore, policy, runner;
    }

    /** The configuration describes this worker. */
    ghost predicate Configured(cfg: Config) {
      cfg.policyOf(id) == policy && cfg.hasStore(id) == hasStore && cfg.artifact == Writer(store.format)
    }

    /** The protocol state, with this worker at position pc among the given actors. */
    ghost function At(actors: seq<Pc>, pc: Pc): State
      requires id < |actors|
      reads db, queue, store
    {
      State(db.View(), queue.View(), store.files, actors[id := pc])
    }

    /** The actions are this worker's own, end its runs with the runner's outcome for the
        attempt, and write the runner's artifact before a success when there is a store. */
    ghost predicate Obeys(acts: seq<Action>, m: Message) {
      && (forall k :: 0 <= k < |acts| ==> OfMessage(acts[k], m))
      && (Finish(id, Success) in acts && hasStore ==>
          WriteArtifact(id, runner.result(m.job, m.attempt), runner.stamp(m.job, m.attempt)) in acts)
    }

    ghost predicate OfMessage(a: Action, m: Message) {
      match a
      case LeaseNext(i, _) => i == id
      case Start(i) => i == id
      case WriteArtifact(i, result, at) =>
        i == id && hasStore && result == runner.result(m.job, m.attempt) && at == runner.stamp(m.job, m.attempt)
      case Finish(i, o) => i == id && o == runner.outcome(m.job, m.attempt)
      case Publish(i) => i == id
      case Ack(i) => i == id
      case _ => false
    }

    lemma ObeysMore(acts: seq<Action>, a: Action, m: Message)
      requires Obeys(acts, m) && OfMessage(a, m)
      requires a == Finish(id, Success) && hasStore ==>
               WriteArtifact(id, runner.result(m.job, m.attempt), runner.stamp(m.job, m.attempt)) in acts
      ensures Obeys(acts + [a], m)
    {
    }

    /** process_one: lease at most one message and see it through. Run without
        interleaving, it is a path of protocol steps of this worker from idle to idle. */
    method ProcessOne(now: int, ghost cfg: Config, ghost actors: seq<Pc>)
      returns (processed: bool, ghost acts: seq<Action>)
      requires QueueInv(queue.View()) && id < |actors| && Configured(cfg)
      modifies db, queue, store
      ensures processed <==> old(queue.cursor < |queue.entries|)
      ensures Leads(cfg, old(At(actors, Idle)), acts, At(actors, Idle))
      ensures !processed ==> acts == []
      ensures processed ==> Obeys(acts, old(queue.entries[queue.cursor]))
      ensures processed ==> queue.cursor == old(queue.cursor) + 1 && queue.pending == old(queue.pending)
    {
      acts := [];
      ghost var from := At(actors, Idle);
      LeadsNowhere(cfg, from);
      var leased := queue.LeaseJobs(id, now, 1);
      if |leased| == 0 {
        return false, acts;
      }
      var e := leased[0];
      LeadsSnoc(cfg, from, acts, from, LeaseNext(id, now), At(actors, Leased(e)));
      acts := [LeaseNext(id, now)];
      acts := ProcessMessage(e, cfg, actors, from, acts);
      return true, acts;
    }

    /** _process_message: the segments one after the other. */
    method ProcessMessage(e: EntryId, ghost cfg: Config, ghost actors: seq<Pc>, ghost from: State,
                          ghost before: seq<Action>)
      returns (ghost acts: seq<Action>)
      requires QueueInv(queue.View()) && id < |actors| && Configured(cfg) && e < queue.cursor
      requires Leads(cfg, from, before, At(actors, Leased(e)))
      requires Obeys(before, queue.entries[e]) && forall a :: a in before ==> !a.Finish?
      modifies db, queue, store
      ensures Leads(cfg, from, acts, At(actors, Idle)) && Obeys(acts, old(queue.entries[e]))
      ensures queue.cursor == old(queue.cursor) && queue.pending == old(queue.pending) - {e}
    {
      ghost var m := queue.entries[e];
      ghost var s0 := At(actors, Leased(e));
      var pc := Begin(e, cfg, actors);
      LeadsSnoc(cfg, from, before, s0, Start(id), At(actors, pc));
      ObeysMore(before, Start(id), m);
      acts := before + [Start(id)];
      if pc.Executing? {
        pc, acts := RunJob(e, pc.job, cfg, actors, from, acts);
      }
      if !pc.Idle? {
        acts := Settle(e, pc, m, cfg, actors, from, acts);
      }
    }

    /** Publish the next attempt if there is one, then acknowledge. */
    method Settle(e: EntryId, pc: Pc, ghost m: Message, ghost cfg: Config, ghost actors: seq<Pc>,
                  ghost from: State, ghost before: seq<Action>) returns (ghost acts: seq<Action>)
      requires id < |actors|
      requires pc == Acking(e, false, ToIdle) || (pc.Publishing? && pc.e == e && pc.cont == ToIdle)
      requires Leads(cfg, from, before, At(actors, pc)) && Obeys(before, m)
      modifies queue
      ensures Leads(cfg, from, acts, At(actors, Idle)) && Obeys(acts, m)
      ensures queue.cursor == old(queue.cursor) && queue.pending == old(queue.pending) - {e}
    {
      acts := before;
      ghost var s := At(actors, pc);
      if pc.Publishing? {
        var _ := queue.PublishJob(pc.m);
        LeadsSnoc(cfg, from, acts, s, Publish(id), At(actors, Acking(e, true, ToIdle)));
        ObeysMore(acts, Publish(id), m);
        acts := acts + [Publish(id)];
        s := At(actors, Acking(e, true, ToIdle));
      }
      var _ := queue.Acknowledge(e);
      LeadsSnoc(cfg, from, acts, s, Ack(id), At(actors, Idle));
      ObeysMore(acts, Ack(id), m);
      acts := acts + [Ack(id)];
    }

    /** From the runner's call to the transaction that records its outcome. */
    method RunJob(e: EntryId, job: JobRecord, ghost cfg: Config, ghost actors: seq<Pc>, ghost from: State,
                  ghost before: seq<Action>)
      returns (pc: Pc, ghost acts: seq<Action>)
      requires QueueInv(queue.View()) && id < |actors| && Configured(cfg)
      requires e < queue.cursor && queue.entries[e].job in db.jobs
      requires Leads(cfg, from, before, At(actors, Executing(e, job)))
      requires Obeys(before, queue.entries[e]) && forall a :: a in before ==> !a.Finish?
      modifies db, store
      ensures Leads(cfg, from, acts, At(actors, pc)) && Obeys(acts, queue.entries[e])
      ensures pc == Acking(e, false, ToIdle)
           || (pc.Publishing? && pc.e == e && pc.cont == ToIdle)
    {
      ghost var m := queue.entries[e];
      ghost var s0 := At(actors, Executing(e, job));
      ghost var a: Action;
      pc, a := Execute(e, job, cfg, actors);
      LeadsSnoc(cfg, from, before, s0, a, At(actors, pc));
      ObeysMore(before, a, m);
      acts := before + [a];
      if pc.Wrote? {
        ghost var s1 := At(actors, pc);
        pc := Record(pc, e, job, Some(pc.stored), Success, cfg, actors);
        LeadsSnoc(cfg, from, acts, s1, Finish(id, Success), At(actors, pc));
        ObeysMore(acts, Finish(id, Success), m);
        acts := acts + [Finish(id, Success)];
      }
    }

    /** The next atomic action of a suspended process_one, from position pc: what happens
        between two points where the event loop may switch to another worker. */
    method Advance(pc: Pc, now: int, ghost cfg: Config, ghost actors: seq<Pc>) returns (pc': Pc, ghost a: Action)
      requires QueueInv(queue.View()) && id < |actors| && Configured(cfg) && actors[id] == pc
      requires PcShape(At(actors, pc), pc) && WorkerPc(pc) && (pc.Idle? ==> queue.cursor < |queue.entries|)
      modifies db, queue, store
      ensures Step(cfg, old(At(actors, pc)), a, At(actors, pc')) && WorkerStep(a) && a.i == id
      ensures pc.Idle? ==> pc'.Leased?
      ensures a.LeaseNext? <==> pc.Idle?
      ensures pc.Executing? && a.Finish? ==>
              a.outcome == runner.outcome(queue.entries[pc.e].job, queue.entries[pc.e].attempt)
      ensures pc'.Wrote? ==>
                pc.Executing? && pc'.e == pc.e
                    && runner.outcome(queue.entries[pc.e].job, queue.entries[pc.e].attempt).Success?
      ensures a.WriteArtifact? ==>
                pc.Executing? && a.result == runner.result(queue.entries[pc.e].job, queue.entries[pc.e].attempt)
    {
      match pc {
        case Idle =>
          var leased := queue.LeaseJobs(id, now, 1);
          pc', a := Leased(leased[0]), LeaseNext(id, now);
        case Leased(e) =>
          a := Start(id);
          pc' := Begin(e, cfg, actors);
        case Executing(e, job) => pc', a := Execute(e, job, cfg, actors);
        case Wrote(e, job, stored) =>
          a := Finish(id, Success);
          pc' := Record(pc, e, job, Some(stored), Success, cfg, actors);
        case Publishing(e, m, _) =>
          var _ := queue.PublishJob(m);
          pc', a := Acking(e, true, ToIdle), Publish(id);
        case Acking(e, _, _) =>
          var _ := queue.Acknowledge(e);
          pc', a := Idle, Ack(id);
      }
    }

    /** The first transaction: skip, block or record running. */
    method Begin(e: EntryId, ghost cfg: Config, ghost actors: seq<Pc>) returns (pc: Pc)
      requires QueueInv(queue.View()) && id < |actors| && Configured(cfg) && e < queue.cursor
      modifies db, queue
      ensures Step(cfg, old(At(actors, Leased(e))), Start(id), At(actors, pc))
      ensures pc == Idle || pc == Acking(e, false, ToIdle)
              || (pc.Executing? && pc.e == e && queue.entries[e].job in db.jobs)
      ensures queue.entries == old(queue.entries) && queue.cursor == old(queue.cursor)
      ensures queue.pending == if pc.Idle? then old(queue.pending) - {e} else old(queue.pending)
    {
      var m := queue.entries[e];
      ghost var s := At(actors, Leased(e));
      var job := db.LoadJobForUpdate(m.job);
      if job.None? || job.value.status.Terminal() {
        pc := Acking(e, false, ToIdle);
      } else if policy.ValidateDispatch(job.value).Some? {
        BlockDispatch(e, m);
        pc := Idle;
      } else {
        db.RecordStateEvent(m.job, Running, RunningBody(id, m.attempt));
        pc := Executing(e, job.value);
      }
      StartStep(cfg, s, id, StartEffect(cfg, s, id, e), At(actors, pc));
    }

    /** The dispatch budget block, with its acknowledgement inside the transaction. */
    method BlockDispatch(e: EntryId, m: Message)
      requires m.job in db.jobs
      modifies db, queue
      ensures db.View() == old(Apply(db.View(), FinalizeTx(m.job, Failed, BudgetBlockedBody(id, m.attempt))))
      ensures queue.View() == old(ApplyQ(queue.View(), AckOp(e)))
    {
      var _ := db.FinalizeJob(m.job, Failed, BudgetBlockedBody(id, m.attempt));
      var _ := queue.Acknowledge(e);
    }

    /** The runner's outcome, and the artifact file when there is a store. */
    method Execute(e: EntryId, job: JobRecord, ghost cfg: Config, ghost actors: seq<Pc>)
      returns (pc: Pc, ghost a: Action)
      requires QueueInv(queue.View()) && id < |actors| && Configured(cfg)
      requires e < queue.cursor && queue.entries[e].job in db.jobs
      modifies db, store
      ensures Step(cfg, old(At(actors, Executing(e, job))), a, At(actors, pc)) && OfMessage(a, queue.entries[e])
      ensures a == Finish(id, runner.outcome(queue.entries[e].job, queue.entries[e].attempt))
           || (a.WriteArtifact? && runner.outcome(queue.entries[e].job, queue.entries[e].attempt).Success?
               && db.View() == old(db.View()))
      ensures a == Finish(id, Success) ==> !hasStore
      ensures if a.WriteArtifact? then pc.Wrote? && pc.e == e && pc.job == job
              else pc == Acking(e, false, ToIdle) || (pc.Publishing? && pc.e == e && pc.cont == ToIdle)
    {
      var m := queue.entries[e];
      var outcome := runner.outcome(m.job, m.attempt);
      if outcome.Success? && hasStore {
        var result, at := runner.result(m.job, m.attempt), runner.stamp(m.job, m.attempt);
        var r := WriteRequest(m.job, job.runId, job.payload, id, m.attempt, at, result);
        var meta := store.WriteStubJobArtifact(r);
        pc, a := Wrote(e, job, Stored(result, at, meta.value)), WriteArtifact(id, result, at);
      } else {
        a := Finish(id, outcome);
        pc := Record(Executing(e, job), e, job, None, outcome, cfg, actors);
      }
    }

    /** The transaction that records the outcome: record_completed or one of the handlers. */
    method Record(pc: Pc, e: EntryId, job: JobRecord, artifact: Option<Stored>, outcome: Outcome,
                  ghost cfg: Config, ghost actors: seq<Pc>) returns (pc': Pc)
      requires QueueInv(queue.View()) && id < |actors| && Configured(cfg)
      requires e < queue.cursor && queue.entries[e].job in db.jobs
      requires pc == if artifact.Some? then Wrote(e, job, artifact.value) else Executing(e, job)
      requires if artifact.Some? then outcome.Success? else outcome.Success? ==> !cfg.hasStore(id)
      modifies db
      ensures Step(cfg, old(At(actors, pc)), Finish(id, outcome), At(actors, pc'))
      ensures pc' == Acking(e, false, ToIdle)
           || (pc'.Publishing? && pc'.e == e && pc'.cont == ToIdle && outcome.TransientError?)
    {
      var m := queue.entries[e];
      match outcome {
        case TransientError => pc' := HandleTransientError(e, job, cfg, actors);
        case Success =>
          pc' := Conclude(pc, e, job, artifact, outcome, Completed, CompletedBody(id, m.attempt, artifact), cfg,
                          actors);
        case PolicyError =>
          pc' := Conclude(pc, e, job, artifact, outcome, Failed, FailedBody(id, m.attempt, false), cfg, actors);
        case RunTimedOut =>
          pc' := Conclude(pc, e, job, artifact, outcome, TimedOut, TimedOutBody(id, m.attempt), cfg, actors);
        case RunCancelled =>
          pc' := Conclude(pc, e, job, artifact, outcome, Cancelled, CancelledBody(m.attempt, true), cfg, actors);
      }
    }

    /** A final outcome: one finalize call. */
    method Conclude(pc: Pc, e: EntryId, job: JobRecord, artifact: Option<Stored>, outcome: Outcome, status: Status,
                    body: Body, ghost cfg: Config, ghost actors: seq<Pc>)
      returns (pc': Pc)
      requires QueueInv(queue.View()) && id < |actors| && e < queue.cursor && queue.entries[e].job in db.jobs
      requires pc == if artifact.Some? then Wrote(e, job, artifact.value) else Executing(e, job)
      requires if artifact.Some? then outcome.Success? else outcome.Success? ==> !cfg.hasStore(id)
      requires FinishEffect(cfg, id, queue.entries[e], e, job, artifact, outcome)
            == Effect(FinalizeTx(queue.entries[e].job, status, body), NoOp, Acking(e, false, ToIdle))
      modifies db
      ensures Step(cfg, old(At(actors, pc)), Finish(id, outcome), At(actors, pc')) && pc' == Acking(e, false, ToIdle)
    {
      FinishBodyIsFinal(cfg, id, queue.entries[e], e, job, artifact, outcome);
      ghost var s := At(actors, pc);
      var _ := db.FinalizeJob(queue.entries[e].job, status, body);
      pc' := Acking(e, false, ToIdle);
      FinishStep(cfg, s, id, outcome, artifact, At(actors, pc'));
    }

    /** _handle_transient_error up to its commit: retry within both budgets, else finalize. */
    method HandleTransientError(e: EntryId, job: JobRecord, ghost cfg: Config, ghost actors: seq<Pc>) returns (pc': Pc)
      requires QueueInv(queue.View()) && id < |actors| && Configured(cfg)
      requires e < queue.cursor && queue.entries[e].job in db.jobs
      modifies db
      ensures Step(cfg, old(At(actors, Executing(e, job))), Finish(id, TransientError), At(actors, pc'))
      ensures pc' == Acking(e, false, ToIdle) || (pc'.Publishing? && pc'.e == e && pc'.cont == ToIdle)
    {
      var m := queue.entries[e];
      ghost var s := At(actors, Executing(e, job));
      if m.attempt > job.maxRetries {
        pc' := Conclude(Executing(e, job), e, job, None, TransientError, Failed, FailedBody(id, m.attempt, true), cfg,
                        actors);
      } else if !policy.RetryAllowed(m.attempt + 1) {
        pc' := Conclude(Executing(e, job), e, job, None, TransientError, Failed, BudgetBlockedBody(id, m.attempt), cfg,
                        actors);
      } else {
        db.RecordStateEvent(m.job, Queued, RetryScheduledBody(id, m.attempt, m.attempt + 1));
        pc' := Publishing(e, Message(m.job, m.attempt + 1, FromRetry(e)), ToIdle);
        FinishStep(cfg, s, id, TransientError, None, At(actors, pc'));
      }
    }
  }

  lemma FinishBodyIsFinal(cfg: Config, i: ActorId, m: Message, e: EntryId, job: JobRecord, artifact: Option<Stored>,
                          o: Outcome)
    ensures var tx := FinishEffect(cfg, i, m, e, job, artifact, o).tx;
            tx.FinalizeTx? ==> tx.body.Kind().Final() && tx.status == tx.body.Kind().FinalStatus()
  {
  }

  /** The protocol step of a worker's first transaction. */
  lemma StartStep(cfg: Config, s: State, i: ActorId, eff: Effect, s': State)
    requires Ready(s, Start(i)) && eff == StartEffect(cfg, s, i, s.actors[i].e)
    requires && Legal(s.db, eff.tx)
             && s' == s.(db := Apply(s.db, eff.tx), q := ApplyQ(s.q, eff.op), actors := s.actors[i := eff.pc])
    ensures Step(cfg, s, Start(i), s')
  {
  }

  /** The protocol step of a worker's outcome transaction. */
  lemma FinishStep(cfg: Config, s: State, i: ActorId, o: Outcome, artifact: Option<Stored>, s': State)
    requires Ready(s, Finish(i, o)) && StoreFirst(cfg, s, Finish(i, o))
             && artifact == if s.actors[i].Wrote? then Some(s.actors[i].stored) else None
    requires var pc := s.actors[i];
             var eff := FinishEffect(cfg, i, s.q.entries[pc.e], pc.e, pc.job, artifact, o);
             && Legal(s.db, eff.tx) && eff.op.NoOp?
             && s' == s.(db := Apply(s.db, eff.tx), actors := s.actors[i := eff.pc])
    ensures Step(cfg, s, Finish(i, o), s')
  {
  }
}
