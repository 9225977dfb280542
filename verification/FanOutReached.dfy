/** The fan-out bound is reached: every entry that may have successors is requeued by a pass
    while its worker is still alive, and then retried by that worker. */
module FanOutReached {
  import opened Domain
  import opened Store
  import opened Streams
  import opened Protocol
  import opened FanOut
  import opened RetryBudget

  lemma ExtendCareful(cfg: Config, ss: seq<State>, acts: seq<Action>, a: Action)
    returns (ss': seq<State>, acts': seq<Action>)
    requires CarefulRun(cfg, ss, acts) && Enabled(cfg, ss[|acts|], a) && CarefulStep(ss[|acts|], a)
    ensures CarefulRun(cfg, ss', acts') && acts' == acts + [a] && ss' == ss + [Next(cfg, ss[|acts|], a)]
  {
    ss', acts' := ExtendRun(cfg, ss, acts, a);
    forall k | 0 <= k < |acts'|
      ensures CarefulStep(ss'[k], acts'[k])
    {
      assert k < |acts| ==> ss'[k] == ss[k] && acts'[k] == acts[k];
    }
  }

  /** Job 0 has the row of the submission and is not terminal. */
  ghost predicate OpenJob(db: Db, sub: Submission) {
    0 in db.jobs && SameExceptStatus(FreshRecord(sub), db.jobs[0]) && !db.jobs[0].status.Terminal()
  }

  ghost predicate EndsAt(cfg: Config, ss: seq<State>, acts: seq<Action>, sub: Submission, q: Queue, actors: seq<Pc>) {
    && CarefulRun(cfg, ss, acts)
    && ss[|acts|].q == q && ss[|acts|].actors == actors && OpenJob(ss[|acts|].db, sub)
  }

  /** Worker 0 admits the job and may retry it as often as the job allows. */
  ghost predicate Willing(cfg: Config, sub: Submission) {
    cfg.policyOf(0).ValidateDispatch(FreshRecord(sub)).None? && cfg.policyOf(0).retryBudget >= sub.maxRetries
  }

  // ----- one entry -----

  lemma TakeNext(cfg: Config, ss: seq<State>, acts: seq<Action>, sub: Submission, q: Queue)
    returns (ss': seq<State>, acts': seq<Action>, job: JobRecord)
    requires EndsAt(cfg, ss, acts, sub, q, [Idle, Idle]) && Willing(cfg, sub)
    requires q.cursor < |q.entries| && q.entries[q.cursor].job == 0 && q.pending == map[]
    ensures EndsAt(cfg, ss', acts', sub, q.(cursor := q.cursor + 1, pending := map[q.cursor := Lease(0, 0)]),
                   [Executing(q.cursor, job), Idle])
    ensures SameExceptStatus(FreshRecord(sub), job)
  {
    ss', acts' := ExtendCareful(cfg, ss, acts, LeaseNext(0, 0));
    job := ss[|acts|].db.jobs[0];
    ss', acts' := ExtendCareful(cfg, ss', acts', Start(0));
  }

  lemma RequeueLive(cfg: Config, ss: seq<State>, acts: seq<Action>, sub: Submission, q: Queue, c: EntryId,
                    job: JobRecord)
    returns (ss': seq<State>, acts': seq<Action>)
    requires EndsAt(cfg, ss, acts, sub, q, [Executing(c, job), Idle]) && QueueInv(q)
    requires c < q.cursor && q.pending == map[c := Lease(0, 0)]
    requires q.entries[c].job == 0 && q.entries[c].attempt <= sub.maxRetries
    ensures EndsAt(cfg, ss', acts', sub,
                   q.(entries := q.entries + [Message(0, q.entries[c].attempt + 1, FromRecovery(c))], pending := map[]),
                   [Executing(c, job), Idle])
  {
    ss', acts' := PlanRequeue(cfg, ss, acts, sub, q, c, job);
    ss', acts' := ExtendCareful(cfg, ss', acts', Publish(1));
    ss', acts' := ExtendCareful(cfg, ss', acts', Ack(1));
    ss', acts' := ExtendCareful(cfg, ss', acts', EndPass(1));
  }

  lemma FindLive(cfg: Config, ss: seq<State>, acts: seq<Action>, sub: Submission, q: Queue, c: EntryId, job: JobRecord)
    returns (ss': seq<State>, acts': seq<Action>)
    requires EndsAt(cfg, ss, acts, sub, q, [Executing(c, job), Idle]) && QueueInv(q)
    requires c < q.cursor && q.pending == map[c := Lease(0, 0)]
    ensures EndsAt(cfg, ss', acts', sub, q, [Executing(c, job), Recovering([c])])
  {
    LoneLease(q, c);
    ss', acts' := ExtendCareful(cfg, ss, acts, FindStale(1, 0, 0, 1));
  }

  lemma PlanRequeue(cfg: Config, ss: seq<State>, acts: seq<Action>, sub: Submission, q: Queue, c: EntryId,
                    job: JobRecord) returns (ss': seq<State>, acts': seq<Action>)
    requires EndsAt(cfg, ss, acts, sub, q, [Executing(c, job), Idle]) && QueueInv(q)
    requires c < q.cursor && q.pending == map[c := Lease(0, 0)]
    requires q.entries[c].job == 0 && q.entries[c].attempt <= sub.maxRetries
    ensures EndsAt(cfg, ss', acts', sub, q,
                   [Executing(c, job),
                    Publishing(c, Message(0, q.entries[c].attempt + 1, FromRecovery(c)), ToPass([]))])
  {
    ss', acts' := FindLive(cfg, ss, acts, sub, q, c, job);
    assert [c][1..] == [];
    ss', acts' := ExtendCareful(cfg, ss', acts', Plan(1));
  }

  lemma ScheduleRetry(cfg: Config, ss: seq<State>, acts: seq<Action>, sub: Submission, q: Queue, c: EntryId,
                      job: JobRecord) returns (ss': seq<State>, acts': seq<Action>)
    requires EndsAt(cfg, ss, acts, sub, q, [Executing(c, job), Idle]) && Willing(cfg, sub)
    requires c < |q.entries| && SameExceptStatus(FreshRecord(sub), job)
    requires q.entries[c].job == 0 && q.entries[c].attempt <= sub.maxRetries
    ensures EndsAt(cfg, ss', acts', sub, q,
                   [Publishing(c, Message(0, q.entries[c].attempt + 1, FromRetry(c)), ToIdle), Idle])
  {
    ss', acts' := ExtendCareful(cfg, ss, acts, Finish(0, TransientError));
  }

  lemma RetryToo(cfg: Config, ss: seq<State>, acts: seq<Action>, sub: Submission, q: Queue, c: EntryId, job: JobRecord)
    returns (ss': seq<State>, acts': seq<Action>)
    requires EndsAt(cfg, ss, acts, sub, q, [Executing(c, job), Idle]) && Willing(cfg, sub)
    requires c < |q.entries| && q.pending == map[] && SameExceptStatus(FreshRecord(sub), job)
    requires q.entries[c].job == 0 && q.entries[c].attempt <= sub.maxRetries
    ensures EndsAt(cfg, ss', acts', sub,
                   q.(entries := q.entries + [Message(0, q.entries[c].attempt + 1, FromRetry(c))]), [Idle, Idle])
  {
    ss', acts' := ScheduleRetry(cfg, ss, acts, sub, q, c, job);
    ss', acts' := ExtendCareful(cfg, ss', acts', Publish(0));
    ss', acts' := ExtendCareful(cfg, ss', acts', Ack(0));
  }

  /** The stream after its next entry got both of its successors. */
  ghost function Doubled(q: Queue): Queue
    requires q.cursor < |q.entries|
  {
    var next := q.entries[q.cursor].attempt + 1;
    q.(cursor := q.cursor + 1,
      entries := q.entries + [Message(0, next, FromRecovery(q.cursor)), Message(0, next, FromRetry(q.cursor))])
  }

  lemma DoubleNext(cfg: Config, ss: seq<State>, acts: seq<Action>, sub: Submission, q: Queue)
    returns (ss': seq<State>, acts': seq<Action>)
    requires EndsAt(cfg, ss, acts, sub, q, [Idle, Idle]) && Willing(cfg, sub)
    requires q.cursor < |q.entries| && q.entries[q.cursor].job == 0 && q.pending == map[]
    requires q.entries[q.cursor].attempt <= sub.maxRetries
    ensures EndsAt(cfg, ss', acts', sub, Doubled(q), [Idle, Idle])
  {
    var c := q.cursor;
    var job;
    ss', acts', job := TakeNext(cfg, ss, acts, sub, q);
    var leased := q.(cursor := c + 1, pending := map[c := Lease(0, 0)]);
    ss', acts' := RequeueLive(cfg, ss', acts', sub, leased, c, job);
    var requeued := leased.(
      entries := q.entries + [Message(0, q.entries[c].attempt + 1, FromRecovery(c))], pending := map[]);
    assert requeued.entries[c] == q.entries[c];
    ss', acts' := RetryToo(cfg, ss', acts', sub, requeued, c, job);
    assert Doubled(q).entries == requeued.entries + [Message(0, q.entries[c].attempt + 1, FromRetry(c))];
  }

  // ----- one generation after the other -----

  /** The entries of job 0 from an index on carry one attempt, and exactly the first n entries
      are the submitter's. */
  ghost predicate Generations(q: Queue, n: nat, last: nat, attempt: nat) {
    && q.cursor <= last <= |q.entries| && q.pending == map[]
    && (forall x :: 0 <= x < |q.entries| ==> q.entries[x].job == 0 && (q.entries[x].origin.FromSubmitter? <==> x < n))
    && (forall x :: q.cursor <= x < last ==> q.entries[x].attempt == attempt)
    && (forall x :: last <= x < |q.entries| ==> q.entries[x].attempt == attempt + 1)
  }

  lemma DoubledGenerations(q: Queue, n: nat, last: nat, attempt: nat)
    requires Generations(q, n, last, attempt) && q.cursor < last && n <= |q.entries|
    ensures Generations(Doubled(q), n, last, attempt) && |Doubled(q).entries| == |q.entries| + 2
  {
  }

  /** r of the entries before index last get their successors. */
  lemma {:induction false} DoubleSome(cfg: Config, ss: seq<State>, acts: seq<Action>, sub: Submission, q: Queue,
                                      n: nat, last: nat, attempt: nat, r: nat)
    returns (ss': seq<State>, acts': seq<Action>, q': Queue)
    requires EndsAt(cfg, ss, acts, sub, q, [Idle, Idle]) && Willing(cfg, sub) && attempt <= sub.maxRetries
    requires Generations(q, n, last, attempt) && n <= |q.entries| && q.cursor + r <= last
    ensures EndsAt(cfg, ss', acts', sub, q', [Idle, Idle]) && Generations(q', n, last, attempt)
    ensures q'.cursor == q.cursor + r && |q'.entries| == |q.entries| + 2 * r
    decreases r
  {
    ss', acts', q' := ss, acts, q;
    if r > 0 {
      ss', acts', q' := DoubleSome(cfg, ss, acts, sub, q, n, last, attempt, r - 1);
      ss', acts' := DoubleNext(cfg, ss', acts', sub, q');
      DoubledGenerations(q', n, last, attempt);
      q' := Doubled(q');
    }
  }

  /** The undelivered entries are the generation of the attempt, and the stream is full up to it. */
  ghost predicate Full(q: Queue, n: nat, attempt: nat) {
    && attempt >= 1 && Generations(q, n, |q.entries|, attempt)
    && |q.entries| == TotalTo(n, attempt) == q.cursor + WidthAt(n, attempt)
  }

  lemma {:induction false} FillUp(cfg: Config, sub: Submission, n: nat, attempt: nat)
    returns (ss: seq<State>, acts: seq<Action>, q: Queue)
    requires Willing(cfg, sub) && 1 <= attempt <= sub.maxRetries + 1
    ensures EndsAt(cfg, ss, acts, sub, q, [Idle, Idle]) && Full(q, n, attempt) && n <= |q.entries|
    decreases attempt
  {
    if attempt == 1 {
      ss, acts, q := PublishMany(cfg, sub, n);
      assert TotalTo(n, 1) == TotalTo(n, 0) + WidthAt(n, 1);
    } else {
      ss, acts, q := FillUp(cfg, sub, n, attempt - 1);
      var last := |q.entries|;
      ss, acts, q := DoubleSome(cfg, ss, acts, sub, q, n, last, attempt - 1, WidthAt(n, attempt - 1));
    }
  }

  lemma {:induction false} PublishMany(cfg: Config, sub: Submission, n: nat)
    returns (ss: seq<State>, acts: seq<Action>, q: Queue)
    ensures EndsAt(cfg, ss, acts, sub, q, [Idle, Idle])
    ensures Generations(q, n, n, 1) && |q.entries| == n && q.cursor == 0
  {
    if n == 0 {
      var s := State(EMPTY_DB, EMPTY_QUEUE, map[], [Idle, Idle]);
      ss, acts := ExtendCareful(cfg, [s], [], Submit(0, sub));
      q := EMPTY_QUEUE;
    } else {
      ss, acts, q := PublishMany(cfg, sub, n - 1);
      ss, acts := ExtendCareful(cfg, ss, acts, PublishInitial(0));
      q := q.(entries := q.entries + [Message(0, 1, FromSubmitter)]);
    }
  }

  // ----- counting -----

  ghost function Below(n: nat): (xs: set<nat>)
    ensures |xs| == n && forall x: nat :: x in xs <==> x < n
  {
    if n == 0 then {} else Below(n - 1) + {n - 1}
  }

  lemma CountsOf(q: Queue, n: nat, attempt: nat)
    requires Full(q, n, attempt) && n <= |q.entries|
    ensures |Initial(q, 0)| == n
    ensures |set e: nat | e < |q.entries| && q.entries[e].job == 0| == n * (Pow2(attempt) - 1)
  {
    assert Initial(q, 0) == Below(n);
    assert (set e: nat | e < |q.entries| && q.entries[e].job == 0) == Below(|q.entries|);
    TotalClosedForm(n, attempt);
  }

  /** For every number of publishes and every max_retries the bound of BoundedFanOut is
      reached, by a careful run without any crash, if the worker's retry budget allows it. */
  lemma FanOutIsReached(cfg: Config, sub: Submission, n: nat) returns (ss: seq<State>, acts: seq<Action>)
    requires Willing(cfg, sub)
    ensures CarefulRun(cfg, ss, acts)
    ensures var s := ss[|acts|];
            && 0 in s.db.jobs && s.db.jobs[0].maxRetries == sub.maxRetries && |Initial(s.q, 0)| == n
            && |set e: nat | e < |s.q.entries| && s.q.entries[e].job == 0| == n * (Pow2(sub.maxRetries + 1) - 1)
  {
    var q;
    ss, acts, q := FillUp(cfg, sub, n, sub.maxRetries + 1);
    CountsOf(q, n, sub.maxRetries + 1);
  }
}
