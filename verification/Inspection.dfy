/** Queue inspection: the backpressure snapshot of a run and the count of its conflict rows. */
module Inspection {
  import opened Domain
  import opened Store
  import opened Streams
  import opened Protocol
  import opened Safety
  import opened SingleFlight
  import opened Conflicts
  import opened Drain
  import opened Runtime
  import opened Isolation
  import opened Reports

  datatype Backpressure = Backpressure(
    queueDepth: int, lag: int, leased: nat, running: nat, dlq: nat, utilization: real, retryRate: real)

  /** Busy workers over workers, 1 at most; 0 without workers. */
  function Utilization(running: nat, workers: nat): real {
    if workers == 0 then 0.0 else if running >= workers then 1.0 else running as real / workers as real
  }

  function RetryRate(retries: nat, submitted: nat): real {
    if submitted == 0 then 0.0 else retries as real / submitted as real
  }

  /** What the stream and the tables say about the load of a run. */
  ghost function PressureOf(q: Queue, db: Db, run: RunId, ids: seq<JobId>, workers: nat): Backpressure {
    var running := StatusCount(db.jobs, ids, |ids|, Running);
    Backpressure(QueueDepth(q), |q.entries| - q.cursor, |q.pending|, running, |q.dlq|, Utilization(running, workers),
                 RetryRate(Matching(RunEvents(db, db.events, run), IS_RETRY_BODY), |ids|))
  }

  method CountRunning(jobs: map<JobId, JobRecord>, ids: seq<JobId>) returns (count: nat)
    ensures count == StatusCount(jobs, ids, |ids|, Running)
  {
    count := 0;
    var k := 0;
    while k < |ids|
      invariant k <= |ids| && count == StatusCount(jobs, ids, k, Running)
    {
      if ids[k] in jobs && jobs[ids[k]].status == Running {
        count := count + 1;
      }
      k := k + 1;
    }
  }

  method CountRetries(events: seq<Event>) returns (count: nat)
    ensures count == Matching(events, IS_RETRY_BODY)
  {
    count := 0;
    var k := 0;
    while k < |events|
      invariant k <= |events| && count == Matching(events[..k], IS_RETRY_BODY)
    {
      assert events[..k + 1] == events[..k] + [events[k]];
      MatchingAppend(events[..k], events[k], IS_RETRY_BODY);
      if events[k].body.RetryScheduledBody? {
        count := count + 1;
      }
      k := k + 1;
    }
    assert events[..k] == events;
  }

  /** inspect_queue_backpressure, without the figures that read timestamps. */
  method InspectQueueBackpressure(db: Database, queue: RedisStreamsQueue, run: RunId, ids: seq<JobId>, workers: nat)
    returns (p: Backpressure)
    ensures p == PressureOf(queue.View(), db.View(), run, ids, workers)
  {
    var leased, lag := |queue.pending|, |queue.entries| - queue.cursor;
    var running := CountRunning(db.jobs, ids);
    var events := SelectRunEvents(db, run);
    var retries := CountRetries(events);
    return Backpressure(leased + lag, lag, leased, running, |queue.dlq|, Utilization(running, workers),
                        RetryRate(retries, |ids|));
  }

  ghost predicate Undelivered(q: Queue, e: EntryId) {
    q.cursor <= e < |q.entries|
  }

  /** The first n entries of the stream that are not delivered. */
  ghost function UndeliveredEntries(q: Queue, n: nat): set<EntryId> {
    set e: EntryId | e < n && Undelivered(q, e)
  }

  /** The entries that are delivered and not acknowledged. */
  ghost function Unacknowledged(q: Queue): set<EntryId> {
    set e: EntryId | e < q.cursor && !Acked(q, e)
  }

  lemma {:induction false} CountUndelivered(q: Queue, n: nat)
    requires q.cursor <= n <= |q.entries|
    ensures |UndeliveredEntries(q, n)| == n - q.cursor
  {
    if n == q.cursor {
      assert UndeliveredEntries(q, n) == {};
    } else {
      CountUndelivered(q, n - 1);
      assert Undelivered(q, n - 1);
      assert UndeliveredEntries(q, n) == UndeliveredEntries(q, n - 1) + {n - 1};
    }
  }

  /** The stream figures: delivered and not acknowledged, not delivered, and both together. */
  lemma StreamFigures(q: Queue)
    requires q.cursor <= |q.entries| && forall e :: e in q.pending ==> e < q.cursor
    ensures |q.pending| == |Unacknowledged(q)|
    ensures |q.entries| - q.cursor == |UndeliveredEntries(q, |q.entries|)|
    ensures QueueDepth(q) == |Unacknowledged(q)| + |UndeliveredEntries(q, |q.entries|)|
  {
    assert Unacknowledged(q) == q.pending.Keys;
    assert |q.pending| == |q.pending.Keys|;
    CountUndelivered(q, |q.entries|);
  }

  lemma QueueShape(cfg: Config, ss: seq<State>, acts: seq<Action>, n: nat)
    requires Run(cfg, ss, acts) && n < |ss|
    ensures ss[n].q.cursor <= |ss[n].q.entries| && forall e :: e in ss[n].q.pending ==> e < ss[n].q.cursor
  {
    RunKeepsInv(cfg, ss, acts);
    assert Inv(ss[n]);
  }

  /** What the stream figures of the snapshot mean. */
  ghost predicate StreamMeans(p: Backpressure, q: Queue) {
    && p.leased == |Unacknowledged(q)| && p.lag == |UndeliveredEntries(q, |q.entries|)|
    && p.queueDepth == p.leased + p.lag && p.dlq == |q.dlq|
  }

  /** Busy workers over workers, and 1 from the point where every worker is busy. */
  ghost predicate UtilizationIs(u: real, running: nat, workers: nat) {
    && 0.0 <= u <= 1.0 && (workers == 0 ==> u == 0.0)
    && (workers > 0 ==> (u == 1.0 <==> running >= workers))
    && (workers > 0 && running <= workers ==> u * workers as real == running as real)
  }

  ghost predicate RateIs(rate: real, retries: nat, submitted: nat) {
    if submitted == 0 then rate == 0.0 else rate * submitted as real == retries as real
  }

  /** What its figures about the tables mean. */
  ghost predicate LoadMeans(p: Backpressure, db: Db, run: RunId, ids: seq<JobId>, workers: nat) {
    && p.running == |StatusRows(db.jobs, ids, |ids|, Running)|
    && UtilizationIs(p.utilization, p.running, workers)
    && RateIs(p.retryRate, Matching(RunEvents(db, db.events, run), IS_RETRY_BODY), |ids|)
  }

  /** In every reachable state the snapshot tells the entries delivered and not acknowledged,
      the entries not delivered, both together, the running rows, the dead letters, the busy
      workers over the workers up to 1, and the scheduled retries over the submitted jobs. */
  lemma PressureMeans(cfg: Config, ss: seq<State>, acts: seq<Action>, n: nat, run: RunId, ids: seq<JobId>, workers: nat)
    requires Run(cfg, ss, acts) && n < |ss|
    ensures StreamMeans(PressureOf(ss[n].q, ss[n].db, run, ids, workers), ss[n].q)
    ensures LoadMeans(PressureOf(ss[n].q, ss[n].db, run, ids, workers), ss[n].db, run, ids, workers)
  {
    QueueShape(cfg, ss, acts, n);
    StreamFigures(ss[n].q);
    TableFigures(ss[n].q, ss[n].db, run, ids, workers);
  }

  lemma TableFigures(q: Queue, db: Db, run: RunId, ids: seq<JobId>, workers: nat)
    ensures LoadMeans(PressureOf(q, db, run, ids, workers), db, run, ids, workers)
  {
    StatusCountIsRows(db.jobs, ids, |ids|, Running);
    UtilizationMeans(StatusCount(db.jobs, ids, |ids|, Running), workers);
    RateMeans(Matching(RunEvents(db, db.events, run), IS_RETRY_BODY), |ids|);
  }

  lemma RateMeans(retries: nat, submitted: nat)
    ensures RateIs(RetryRate(retries, submitted), retries, submitted)
  {
  }

  lemma UtilizationMeans(running: nat, workers: nat)
    ensures UtilizationIs(Utilization(running, workers), running, workers)
  {
    if workers > 0 && running < workers {
      var u := running as real / workers as real;
      assert u * workers as real == running as real;
      assert 0.0 <= u < 1.0;
    }
  }

  // ----- conflict rows -----

  ghost function RunConflicts(db: Db, conflicts: seq<Conflict>, run: RunId): nat {
    if conflicts == [] then 0
    else
      var last := conflicts[|conflicts| - 1];
      RunConflicts(db, conflicts[..|conflicts| - 1], run)
      + if last.job in db.jobs && db.jobs[last.job].runId == run then 1 else 0
  }

  /** finalization_conflict_attempt_count */
  method ConflictAttemptCount(db: Database, run: RunId) returns (count: nat)
    ensures count == RunConflicts(db.View(), db.conflicts, run)
  {
    count := 0;
    var k := 0;
    while k < |db.conflicts|
      invariant k <= |db.conflicts| && count == RunConflicts(db.View(), db.conflicts[..k], run)
    {
      assert db.conflicts[..k + 1][..k] == db.conflicts[..k];
      var x := db.conflicts[k];
      if x.job in db.jobs && db.jobs[x.job].runId == run {
        count := count + 1;
      }
      k := k + 1;
    }
    assert db.conflicts[..k] == db.conflicts;
  }

  ghost predicate OfRun(db: Db, j: JobId, run: RunId) {
    j in db.jobs && db.jobs[j].runId == run
  }

  /** The conflict rows of the run, by position. */
  ghost function ConflictRows(db: Db, conflicts: seq<Conflict>, run: RunId): set<nat> {
    set k: nat | k < |conflicts| && OfRun(db, conflicts[k].job, run)
  }

  /** The count takes every conflict row of the run, whatever it conflicted about. */
  lemma {:induction false} RunConflictsCount(db: Db, conflicts: seq<Conflict>, run: RunId)
    ensures RunConflicts(db, conflicts, run) == |ConflictRows(db, conflicts, run)|
  {
    if conflicts != [] {
      var n := |conflicts| - 1;
      RunConflictsCount(db, conflicts[..n], run);
      assert ConflictRows(db, conflicts, run)
          == ConflictRows(db, conflicts[..n], run) + if OfRun(db, conflicts[n].job, run) then {n} else {};
    } else {
      assert ConflictRows(db, conflicts, run) == {};
    }
  }

  ghost function SumOfConflicts(db: Db, conflicts: seq<Conflict>, runs: seq<RunId>): nat {
    if runs == [] then 0
    else SumOfConflicts(db, conflicts, runs[..|runs| - 1]) + RunConflicts(db, conflicts, runs[|runs| - 1])
  }

  lemma {:induction false} SumOfOneMore(db: Db, conflicts: seq<Conflict>, x: Conflict, runs: seq<RunId>)
    requires Distinct(runs)
    ensures SumOfConflicts(db, conflicts + [x], runs)
         == SumOfConflicts(db, conflicts, runs)
          + if x.job in db.jobs && db.jobs[x.job].runId in runs then 1 else 0
  {
    if runs != [] {
      var n := |runs| - 1;
      SumOfOneMore(db, conflicts, x, runs[..n]);
      assert (conflicts + [x])[..|conflicts|] == conflicts;
      assert runs == runs[..n] + [runs[n]] && runs[n] !in runs[..n];
    }
  }

  lemma {:induction false} NoConflicts(db: Db, runs: seq<RunId>)
    ensures SumOfConflicts(db, [], runs) == 0
  {
    if runs != [] {
      NoConflicts(db, runs[..|runs| - 1]);
    }
  }

  lemma {:induction false} SumsToAll(db: Db, conflicts: seq<Conflict>, runs: seq<RunId>)
    requires Distinct(runs) && forall j :: j in db.jobs ==> db.jobs[j].runId in runs
    requires forall k :: 0 <= k < |conflicts| ==> conflicts[k].job in db.jobs
    ensures SumOfConflicts(db, conflicts, runs) == |conflicts|
  {
    if conflicts == [] {
      NoConflicts(db, runs);
    } else {
      var n := |conflicts| - 1;
      SumsToAll(db, conflicts[..n], runs);
      SumOfOneMore(db, conflicts[..n], conflicts[n], runs);
      assert conflicts == conflicts[..n] + [conflicts[n]];
    }
  }

  /** In every reachable state the counts of the runs add up to all conflict rows. */
  lemma ConflictsAddUp(cfg: Config, ss: seq<State>, acts: seq<Action>, n: nat, runs: seq<RunId>)
    requires Run(cfg, ss, acts) && n < |ss| && Distinct(runs)
    requires forall j :: j in ss[n].db.jobs ==> ss[n].db.jobs[j].runId in runs
    ensures SumOfConflicts(ss[n].db, ss[n].db.conflicts, runs) == |ss[n].db.conflicts|
  {
    RunKeepsInv(cfg, ss, acts);
    assert Inv(ss[n]);
    SumsToAll(ss[n].db, ss[n].db.conflicts, runs);
  }

  ghost predicate LateCancelOf(s: State, a: Action, db: Db, run: RunId) {
    LateCancel(s, a) && OfRun(db, a.job, run)
  }

  /** The steps before position n that cancelled a finalized job of the run. */
  ghost function LateCancelsOf(ss: seq<State>, acts: seq<Action>, n: nat, db: Db, run: RunId): set<nat>
    requires n <= |acts| < |ss|
  {
    set m: nat | m < n && LateCancelOf(ss[m], acts[m], db, run)
  }

  lemma LateCancelsStep(ss: seq<State>, acts: seq<Action>, n: nat, db: Db, run: RunId)
    requires n < |acts| < |ss|
    ensures |LateCancelsOf(ss, acts, n + 1, db, run)| == |LateCancelsOf(ss, acts, n, db, run)|
          + if LateCancelOf(ss[n], acts[n], db, run) then 1 else 0
  {
    assert LateCancelsOf(ss, acts, n + 1, db, run)
        == LateCancelsOf(ss, acts, n, db, run) + if LateCancelOf(ss[n], acts[n], db, run) then {n} else {};
  }

  lemma OneMoreConflict(db: Db, conflicts: seq<Conflict>, x: Conflict, run: RunId)
    ensures RunConflicts(db, conflicts + [x], run)
         == RunConflicts(db, conflicts, run) + if OfRun(db, x.job, run) then 1 else 0
  {
    assert (conflicts + [x])[..|conflicts|] == conflicts;
  }

  lemma {:induction false} CountLateCancels(ss: seq<State>, acts: seq<Action>, n: nat, db: Db, run: RunId)
    requires n <= |acts| < |ss|
    ensures RunConflicts(db, LateCancels(ss, acts, n), run) == |LateCancelsOf(ss, acts, n, db, run)|
  {
    if n == 0 {
      assert LateCancelsOf(ss, acts, 0, db, run) == {};
    } else {
      CountLateCancels(ss, acts, n - 1, db, run);
      LateCancelsStep(ss, acts, n - 1, db, run);
      if LateCancel(ss[n - 1], acts[n - 1]) {
        var some := LateCancels(ss, acts, n - 1);
        OneMoreConflict(db, some, Conflict(acts[n - 1].job, Cancelled, KCancelled), run);
      } else {
        assert LateCancels(ss, acts, n) == LateCancels(ss, acts, n - 1);
      }
    }
  }

  /** In single-flight runs the count of a run is the number of its late cancellations. */
  lemma RunConflictsAreLateCancels(cfg: Config, ss: seq<State>, acts: seq<Action>, n: nat, run: RunId)
    requires SingleFlightRun(cfg, ss, acts) && n <= |acts|
    ensures RunConflicts(ss[n].db, ss[n].db.conflicts, run) == |LateCancelsOf(ss, acts, n, ss[n].db, run)|
  {
    ConflictsAreLateCancels(cfg, ss, acts, n);
    CountLateCancels(ss, acts, n, ss[n].db, run);
  }

  lemma {:induction false} OwnRunConflicts(db: Db, conflicts: seq<Conflict>, own: set<JobId>, run: RunId)
    requires forall j :: j in db.jobs && j !in own ==> db.jobs[j].runId != run
    ensures RunConflicts(Part(db, own), OwnConflicts(conflicts, own), run) == RunConflicts(db, conflicts, run)
  {
    if conflicts != [] {
      var n := |conflicts| - 1;
      OwnRunConflicts(db, conflicts[..n], own, run);
      var some := OwnConflicts(conflicts[..n], own);
      if conflicts[n].job in own {
        assert (some + [conflicts[n]])[..|some|] == some;
      } else {
        assert some + [] == some;
      }
    }
  }

  lemma {:induction false} OwnStatus(db: Db, own: set<JobId>, ids: seq<JobId>, n: nat, status: Status)
    requires n <= |ids| && forall k :: 0 <= k < |ids| ==> ids[k] in own
    ensures StatusCount(Part(db, own).jobs, ids, n, status) == StatusCount(db.jobs, ids, n, status)
  {
    if n > 0 {
      OwnStatus(db, own, ids, n - 1, status);
    }
  }

  /** After a drain that left no dead letter and no running job there is no load; what stays is
      the retry rate. */
  lemma DrainedPressure(s: State, run: RunId, ids: seq<JobId>, workers: nat)
    requires Drained(s) && s.q.dlq == [] && StatusCount(s.db.jobs, ids, |ids|, Running) == 0
    ensures PressureOf(s.q, s.db, run, ids, workers)
         == Backpressure(0, 0, 0, 0, 0, 0.0,
                         RetryRate(Matching(RunEvents(s.db, s.db.events, run), IS_RETRY_BODY), |ids|))
  {
  }
}
