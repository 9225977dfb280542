/** Report accounting over the tables and the stream: lifecycle buckets, the event fold,
    queue depth, and the 95th percentile. */
module Reports {
  import opened Domain
  import opened Store
  import opened Streams
  import opened Protocol
  import opened Safety
  import opened Guard
  import opened SingleFlight
  import opened Execution
  import opened Runtime
  import opened Artifacts

  // ----- lifecycle buckets -----

  ghost predicate Distinct(ids: seq<JobId>) {
    forall k, l :: 0 <= k < l < |ids| ==> ids[k] != ids[l]
  }

  /** The ids of a run's job rows, in whatever order the query returns them. */
  ghost predicate RunRows(db: Db, run: RunId, ids: seq<JobId>) {
    && Distinct(ids)
    && (forall j :: j in ids <==> j in db.jobs && db.jobs[j].runId == run)
  }

  datatype Lifecycle = Lifecycle(
    queued: nat, running: nat, completed: nat, failed: nat, timedOut: nat, cancelled: nat, dlq: nat)

  /** How many of the first n rows have the status. */
  ghost function StatusCount(jobs: map<JobId, JobRecord>, ids: seq<JobId>, n: nat, status: Status): nat
    requires n <= |ids|
  {
    if n == 0 then 0
    else
      StatusCount(jobs, ids, n - 1, status) +
      if ids[n - 1] in jobs && jobs[ids[n - 1]].status == status then 1 else 0
  }

  ghost predicate HasStatus(jobs: map<JobId, JobRecord>, j: JobId, status: Status) {
    j in jobs && jobs[j].status == status
  }

  /** The positions in the list of the rows with a status. */
  ghost function StatusRows(jobs: map<JobId, JobRecord>, ids: seq<JobId>, n: nat, status: Status): set<nat>
    requires n <= |ids|
  {
    set k: nat | k < n && HasStatus(jobs, ids[k], status)
  }

  lemma {:induction false} StatusCountIsRows(jobs: map<JobId, JobRecord>, ids: seq<JobId>, n: nat, status: Status)
    requires n <= |ids|
    ensures StatusCount(jobs, ids, n, status) == |StatusRows(jobs, ids, n, status)|
  {
    if n == 0 {
      assert StatusRows(jobs, ids, 0, status) == {};
    } else {
      StatusCountIsRows(jobs, ids, n - 1, status);
      StatusRowsStep(jobs, ids, n - 1, status);
    }
  }

  lemma StatusRowsStep(jobs: map<JobId, JobRecord>, ids: seq<JobId>, n: nat, status: Status)
    requires n < |ids|
    ensures |StatusRows(jobs, ids, n + 1, status)|
         == |StatusRows(jobs, ids, n, status)| + if HasStatus(jobs, ids[n], status) then 1 else 0
  {
    assert StatusRows(jobs, ids, n + 1, status)
        == StatusRows(jobs, ids, n, status) + if HasStatus(jobs, ids[n], status) then {n} else {};
  }

  function Add(c: Lifecycle, status: Status): Lifecycle {
    match status
    case Submitted => c.(queued := c.queued + 1)
    case Queued => c.(queued := c.queued + 1)
    case Running => c.(running := c.running + 1)
    case Completed => c.(completed := c.completed + 1)
    case Failed => c.(failed := c.failed + 1)
    case TimedOut => c.(timedOut := c.timedOut + 1)
    case Cancelled => c.(cancelled := c.cancelled + 1)
  }

  /** Submitted rows go to the queued bucket, and no status is called dlq. */
  ghost predicate Buckets(jobs: map<JobId, JobRecord>, ids: seq<JobId>, n: nat, c: Lifecycle)
    requires n <= |ids|
  {
    && c.queued == StatusCount(jobs, ids, n, Submitted) + StatusCount(jobs, ids, n, Queued)
    && c.running == StatusCount(jobs, ids, n, Running) && c.completed == StatusCount(jobs, ids, n, Completed)
    && c.failed == StatusCount(jobs, ids, n, Failed) && c.timedOut == StatusCount(jobs, ids, n, TimedOut)
    && c.cancelled == StatusCount(jobs, ids, n, Cancelled) && c.dlq == 0
  }

  ghost function BucketSum(c: Lifecycle): nat {
    c.queued + c.running + c.completed + c.failed + c.timedOut + c.cancelled + c.dlq
  }

  ghost function LifecycleOf(jobs: map<JobId, JobRecord>, ids: seq<JobId>, n: nat): Lifecycle
    requires n <= |ids| && forall k :: 0 <= k < |ids| ==> ids[k] in jobs
  {
    if n == 0 then Lifecycle(0, 0, 0, 0, 0, 0, 0)
    else Add(LifecycleOf(jobs, ids, n - 1), jobs[ids[n - 1]].status)
  }

  /** The rows, each added to the bucket of its status. */
  method LifecycleCounts(jobs: map<JobId, JobRecord>, ids: seq<JobId>) returns (c: Lifecycle)
    requires forall k :: 0 <= k < |ids| ==> ids[k] in jobs
    ensures c == LifecycleOf(jobs, ids, |ids|)
  {
    c := Lifecycle(0, 0, 0, 0, 0, 0, 0);
    var k := 0;
    while k < |ids|
      invariant k <= |ids| && c == LifecycleOf(jobs, ids, k)
    {
      c := Add(c, jobs[ids[k]].status);
      k := k + 1;
    }
  }

  /** The buckets hold the right numbers, together all rows, and dlq stays 0. */
  lemma {:induction false} BucketsPartitionRows(jobs: map<JobId, JobRecord>, ids: seq<JobId>, n: nat)
    requires n <= |ids| && forall k :: 0 <= k < |ids| ==> ids[k] in jobs
    ensures Buckets(jobs, ids, n, LifecycleOf(jobs, ids, n)) && BucketSum(LifecycleOf(jobs, ids, n)) == n
  {
    if n > 0 {
      BucketsPartitionRows(jobs, ids, n - 1);
      AddOne(jobs, ids, n, LifecycleOf(jobs, ids, n - 1), jobs[ids[n - 1]].status);
    }
  }

  /** The positions in the list of the rows with a terminal status. */
  ghost function TerminalRows(jobs: map<JobId, JobRecord>, ids: seq<JobId>, n: nat): set<nat>
    requires n <= |ids|
  {
    set k: nat | k < n && ids[k] in jobs && jobs[ids[k]].status.Terminal()
  }

  lemma TerminalRowsStep(jobs: map<JobId, JobRecord>, ids: seq<JobId>, n: nat)
    requires n < |ids| && ids[n] in jobs
    ensures |TerminalRows(jobs, ids, n + 1)|
         == |TerminalRows(jobs, ids, n)| + if jobs[ids[n]].status.Terminal() then 1 else 0
  {
    assert TerminalRows(jobs, ids, n + 1)
        == TerminalRows(jobs, ids, n) + if jobs[ids[n]].status.Terminal() then {n} else {};
  }

  function TerminalSum(c: Lifecycle): nat {
    c.completed + c.failed + c.timedOut + c.cancelled
  }

  /** The four terminal buckets hold the rows with a terminal status. */
  lemma {:induction false} TerminalBuckets(jobs: map<JobId, JobRecord>, ids: seq<JobId>, n: nat)
    requires n <= |ids| && forall k :: 0 <= k < |ids| ==> ids[k] in jobs
    ensures TerminalSum(LifecycleOf(jobs, ids, n)) == |TerminalRows(jobs, ids, n)|
  {
    if n == 0 {
      assert TerminalRows(jobs, ids, 0) == {};
    } else {
      TerminalBuckets(jobs, ids, n - 1);
      TerminalRowsStep(jobs, ids, n - 1);
    }
  }

  /** One bucket holds the rows with its status. */
  lemma CompletedBucket(jobs: map<JobId, JobRecord>, ids: seq<JobId>)
    requires forall k :: 0 <= k < |ids| ==> ids[k] in jobs
    ensures LifecycleOf(jobs, ids, |ids|).completed == |StatusRows(jobs, ids, |ids|, Completed)|
  {
    BucketsPartitionRows(jobs, ids, |ids|);
    StatusCountIsRows(jobs, ids, |ids|, Completed);
  }

  lemma AddOne(jobs: map<JobId, JobRecord>, ids: seq<JobId>, n: nat, c: Lifecycle, status: Status)
    requires 0 < n <= |ids| && ids[n - 1] in jobs && jobs[ids[n - 1]].status == status && Buckets(jobs, ids, n - 1, c)
    ensures Buckets(jobs, ids, n, Add(c, status)) && BucketSum(Add(c, status)) == BucketSum(c) + 1
  {
    match status {
      case Submitted =>
      case Queued =>
      case Running =>
      case Completed =>
      case Failed =>
      case TimedOut =>
      case Cancelled =>
    }
  }

  // ----- the event fold -----

  /** The events of one job, in log order. */
  ghost function EventsOf(events: seq<Event>, j: JobId): seq<Event> {
    if events == [] then []
    else
      var last := events[|events| - 1];
      EventsOf(events[..|events| - 1], j) + if last.job == j then [last] else []
  }

  ghost function Matching(events: seq<Event>, p: Body -> bool): nat {
    if events == [] then 0
    else Matching(events[..|events| - 1], p) + if p(events[|events| - 1].body) then 1 else 0
  }

  ghost function MatchingPerJob(events: seq<Event>, ids: seq<JobId>, p: Body -> bool): nat {
    if ids == [] then 0
    else MatchingPerJob(events, ids[..|ids| - 1], p) + Matching(EventsOf(events, ids[|ids| - 1]), p)
  }

  lemma MatchingAppend(events: seq<Event>, x: Event, p: Body -> bool)
    ensures Matching(events + [x], p) == Matching(events, p) + if p(x.body) then 1 else 0
  {
    assert (events + [x])[..|events|] == events;
  }

  lemma EventsOfAppend(events: seq<Event>, x: Event, j: JobId)
    ensures EventsOf(events + [x], j) == EventsOf(events, j) + if x.job == j then [x] else []
  {
    assert (events + [x])[..|events|] == events;
  }

  lemma GroupAppend(events: seq<Event>, x: Event, j: JobId, p: Body -> bool)
    ensures Matching(EventsOf(events + [x], j), p)
         == Matching(EventsOf(events, j), p) + if x.job == j && p(x.body) then 1 else 0
  {
    EventsOfAppend(events, x, j);
    MatchingAppend(EventsOf(events, j), x, p);
    assert EventsOf(events, j) + [] == EventsOf(events, j);
  }

  lemma {:induction false} PerJobAppend(events: seq<Event>, x: Event, ids: seq<JobId>, p: Body -> bool)
    requires Distinct(ids)
    ensures MatchingPerJob(events + [x], ids, p)
         == MatchingPerJob(events, ids, p) + if x.job in ids && p(x.body) then 1 else 0
  {
    if ids != [] {
      var n := |ids| - 1;
      PerJobAppend(events, x, ids[..n], p);
      GroupAppend(events, x, ids[n], p);
      LastOrEarlier(ids, x.job);
    }
  }

  lemma LastOrEarlier(ids: seq<JobId>, j: JobId)
    requires Distinct(ids) && ids != []
    ensures var n := |ids| - 1;
            (j in ids <==> j in ids[..n] || j == ids[n]) && ids[n] !in ids[..n]
  {
    assert ids == ids[..|ids| - 1] + [ids[|ids| - 1]];
  }

  lemma {:induction false} PerJobOfNothing(ids: seq<JobId>, p: Body -> bool)
    ensures MatchingPerJob([], ids, p) == 0
  {
    if ids != [] {
      PerJobOfNothing(ids[..|ids| - 1], p);
    }
  }

  /** Grouping by job loses and duplicates nothing: the per-job counts add up to the count
      over the log. */
  lemma {:induction false} GroupsAddUp(events: seq<Event>, ids: seq<JobId>, p: Body -> bool)
    requires Distinct(ids)
    requires forall k :: 0 <= k < |events| ==> events[k].job in ids
    ensures MatchingPerJob(events, ids, p) == Matching(events, p)
  {
    if events == [] {
      PerJobOfNothing(ids, p);
    } else {
      var n := |events| - 1;
      GroupsAddUp(events[..n], ids, p);
      assert events == events[..n] + [events[n]];
      PerJobAppend(events[..n], events[n], ids, p);
    }
  }

  /** The dictionary holds the events of every job seen, and nothing else was seen. */
  ghost predicate Grouped(events: seq<Event>, order: seq<JobId>, groups: map<JobId, seq<Event>>) {
    && Distinct(order)
    && (forall j :: j in order ==> j in groups && groups[j] == EventsOf(events, j))
    && (forall j: JobId :: j !in order ==> EventsOf(events, j) == [])
  }

  lemma GroupedStep(events: seq<Event>, x: Event, order: seq<JobId>, groups: map<JobId, seq<Event>>,
                    order': seq<JobId>, groups': map<JobId, seq<Event>>)
    requires Grouped(events, order, groups)
    requires order' == if x.job in order then order else order + [x.job]
    requires groups' == groups[x.job := if x.job in order then groups[x.job] + [x] else [x]]
    ensures Grouped(events + [x], order', groups')
  {
    forall j: JobId
      ensures EventsOf(events + [x], j) == EventsOf(events, j) + if x.job == j then [x] else []
    {
      EventsOfAppend(events, x, j);
    }
    assert forall j :: j in order' <==> j in order || j == x.job;
  }

  lemma {:induction false} GroupsCoverLog(events: seq<Event>, order: seq<JobId>, groups: map<JobId, seq<Event>>)
    requires forall j: JobId :: j !in order ==> EventsOf(events, j) == []
    ensures forall k :: 0 <= k < |events| ==> events[k].job in order
  {
    if events != [] {
      var n := |events| - 1;
      assert events == events[..n] + [events[n]];
      forall j: JobId | j !in order
        ensures EventsOf(events[..n], j) == [] && events[n].job != j
      {
        assert EventsOf(events, j) == [];
      }
      GroupsCoverLog(events[..n], order, groups);
      forall k | 0 <= k < |events|
        ensures events[k].job in order
      {
        assert k < n ==> events[..n][k] == events[k];
      }
    }
  }

  /** defaultdict(list): append to the job's list, which is new for a new job. */
  method Append(x: Event, order: seq<JobId>, groups: map<JobId, seq<Event>>, ghost before: seq<Event>)
    returns (order': seq<JobId>, groups': map<JobId, seq<Event>>)
    requires Grouped(before, order, groups)
    ensures Grouped(before + [x], order', groups')
  {
    if x.job in order {
      order', groups' := order, groups[x.job := groups[x.job] + [x]];
    } else {
      order', groups' := order + [x.job], groups[x.job := [x]];
    }
    GroupedStep(before, x, order, groups, order', groups');
  }

  /** events_by_job: the dictionary of lists, and its keys in order of first use. */
  method GroupByJob(events: seq<Event>) returns (order: seq<JobId>, groups: map<JobId, seq<Event>>)
    ensures Grouped(events, order, groups)
    ensures forall k :: 0 <= k < |events| ==> events[k].job in order
  {
    order, groups := [], map[];
    var k := 0;
    while k < |events|
      invariant k <= |events|
      invariant Grouped(events[..k], order, groups)
    {
      order, groups := Append(events[k], order, groups, events[..k]);
      assert events[..k + 1] == events[..k] + [events[k]];
      k := k + 1;
    }
    assert events[..k] == events;
    GroupsCoverLog(events, order, groups);
  }

  datatype Counters = Counters(
    retries: nat, transient: nat, permanent: nat, timeout: nat, cancelled: nat, artifacts: nat)

  const IS_RETRY_BODY: Body -> bool := (b: Body) => b.RetryScheduledBody?
  const IS_TRANSIENT: Body -> bool := (b: Body) => b.FailedBody? && b.retryable
  const IS_PERMANENT: Body -> bool := (b: Body) => b.FailedBody? && !b.retryable
  const IS_TIMEOUT: Body -> bool := (b: Body) => b.TimedOutBody?
  const IS_CANCELLED: Body -> bool := (b: Body) => b.CancelledBody?
  const IS_COMPLETED: Body -> bool := (b: Body) => b.CompletedBody?

  /** validate_artifact_integrity accepts the artifact that a completed event names. */
  ghost predicate ArtifactOk(c: Codec, files: map<Path, Bytes>, x: Event) {
    x.body.CompletedBody? ==> x.body.artifact.Some? && Intact(c, files, x.body.artifact.value.meta)
  }

  /** What one event adds to the counters. */
  function Bump(c: Counters, body: Body): Counters {
    match body
    case RetryScheduledBody(_, _, _) => c.(retries := c.retries + 1)
    case FailedBody(_, _, true) => c.(transient := c.transient + 1)
    case FailedBody(_, _, false) => c.(permanent := c.permanent + 1)
    case TimedOutBody(_, _) => c.(timeout := c.timeout + 1)
    case CancelledBody(_, _) => c.(cancelled := c.cancelled + 1)
    case CompletedBody(_, _, _) => c.(artifacts := c.artifacts + 1)
    case _ => c
  }

  const NO_COUNTERS := Counters(0, 0, 0, 0, 0, 0)

  /** c is base plus the numbers that n gives for each kind of event. */
  ghost predicate CountsList(c: Counters, base: Counters, events: seq<Event>) {
    && c.retries == base.retries + Matching(events, IS_RETRY_BODY)
    && c.transient == base.transient + Matching(events, IS_TRANSIENT)
    && c.permanent == base.permanent + Matching(events, IS_PERMANENT)
    && c.timeout == base.timeout + Matching(events, IS_TIMEOUT)
    && c.cancelled == base.cancelled + Matching(events, IS_CANCELLED)
    && c.artifacts == base.artifacts + Matching(events, IS_COMPLETED)
  }

  ghost predicate CountsJobs(c: Counters, events: seq<Event>, ids: seq<JobId>) {
    && c.retries == MatchingPerJob(events, ids, IS_RETRY_BODY)
    && c.transient == MatchingPerJob(events, ids, IS_TRANSIENT)
    && c.permanent == MatchingPerJob(events, ids, IS_PERMANENT)
    && c.timeout == MatchingPerJob(events, ids, IS_TIMEOUT)
    && c.cancelled == MatchingPerJob(events, ids, IS_CANCELLED)
    && c.artifacts == MatchingPerJob(events, ids, IS_COMPLETED)
  }

  ghost predicate AllArtifactsOk(c: Codec, files: map<Path, Bytes>, events: seq<Event>) {
    forall x :: x in events ==> ArtifactOk(c, files, x)
  }

  lemma BumpCounts(base: Counters, events: seq<Event>, c: Counters, x: Event)
    requires CountsList(c, base, events)
    ensures CountsList(Bump(c, x.body), base, events + [x])
  {
    MatchingAppend(events, x, IS_RETRY_BODY);
    MatchingAppend(events, x, IS_TRANSIENT);
    MatchingAppend(events, x, IS_PERMANENT);
    MatchingAppend(events, x, IS_TIMEOUT);
    MatchingAppend(events, x, IS_CANCELLED);
    MatchingAppend(events, x, IS_COMPLETED);
  }

  /** from_dict and validate_artifact_integrity for a completed event. */
  method CheckArtifact(x: Event, store: ArtifactStore) returns (ok: bool)
    ensures ok <==> ArtifactOk(store.format.codec, store.files, x)
  {
    if !x.body.CompletedBody? {
      return true;
    }
    if x.body.artifact.None? {
      return false;
    }
    var error := store.ValidateArtifactIntegrity(x.body.artifact.value.meta);
    return error.None?;
  }

  /** The inner loop: the events of one job, up to the first artifact that does not validate. */
  method FoldJob(events: seq<Event>, base: Counters, store: ArtifactStore) returns (c: Counters, ok: bool)
    ensures ok <==> AllArtifactsOk(store.format.codec, store.files, events)
    ensures ok ==> CountsList(c, base, events)
  {
    c, ok := base, true;
    var k := 0;
    while k < |events|
      invariant k <= |events|
      invariant AllArtifactsOk(store.format.codec, store.files, events[..k]) && CountsList(c, base, events[..k])
    {
      ok := CheckArtifact(events[k], store);
      if !ok {
        assert events[k] in events;
        return c, false;
      }
      BumpCounts(base, events[..k], c, events[k]);
      assert events[..k + 1] == events[..k] + [events[k]];
      c, k := Bump(c, events[k].body), k + 1;
    }
    assert events[..k] == events;
  }

  lemma JobCounted(events: seq<Event>, ids: seq<JobId>, c: Counters, j: JobId, c': Counters)
    requires CountsJobs(c, events, ids) && CountsList(c', c, EventsOf(events, j))
    ensures CountsJobs(c', events, ids + [j])
  {
    assert (ids + [j])[..|ids|] == ids;
  }

  lemma AllJobsCounted(events: seq<Event>, ids: seq<JobId>, c: Counters)
    requires CountsJobs(c, events, ids) && Distinct(ids)
    requires forall k :: 0 <= k < |events| ==> events[k].job in ids
    ensures CountsList(c, NO_COUNTERS, events)
  {
    GroupsAddUp(events, ids, IS_RETRY_BODY);
    GroupsAddUp(events, ids, IS_TRANSIENT);
    GroupsAddUp(events, ids, IS_PERMANENT);
    GroupsAddUp(events, ids, IS_TIMEOUT);
    GroupsAddUp(events, ids, IS_CANCELLED);
    GroupsAddUp(events, ids, IS_COMPLETED);
  }

  lemma {:induction false} GroupMembers(events: seq<Event>, j: JobId)
    ensures forall x :: x in EventsOf(events, j) <==> x in events && x.job == j
  {
    if events != [] {
      var n := |events| - 1;
      GroupMembers(events[..n], j);
      assert events == events[..n] + [events[n]];
    }
  }

  /** Artifacts are fine in the log when they are fine in every group. */
  lemma OkByGroup(c: Codec, files: map<Path, Bytes>, events: seq<Event>, ids: seq<JobId>)
    requires forall k :: 0 <= k < |events| ==> events[k].job in ids
    requires forall j :: j in ids ==> AllArtifactsOk(c, files, EventsOf(events, j))
    ensures AllArtifactsOk(c, files, events)
  {
    forall x | x in events
      ensures ArtifactOk(c, files, x)
    {
      GroupMembers(events, x.job);
      assert x in EventsOf(events, x.job);
      assert AllArtifactsOk(c, files, EventsOf(events, x.job));
    }
  }

  lemma BadGroup(c: Codec, files: map<Path, Bytes>, events: seq<Event>, j: JobId)
    requires !AllArtifactsOk(c, files, EventsOf(events, j))
    ensures !AllArtifactsOk(c, files, events)
  {
    GroupMembers(events, j);
  }

  /** What the fold knows after the jobs in ids. */
  ghost predicate Folded(c: Codec, files: map<Path, Bytes>, events: seq<Event>, ids: seq<JobId>, counters: Counters) {
    CountsJobs(counters, events, ids) && forall j :: j in ids ==> AllArtifactsOk(c, files, EventsOf(events, j))
  }

  lemma NothingFolded(c: Codec, files: map<Path, Bytes>, events: seq<Event>)
    ensures Folded(c, files, events, [], NO_COUNTERS)
  {
  }

  lemma JobFolded(c: Codec, files: map<Path, Bytes>, events: seq<Event>, ids: seq<JobId>, before: Counters, j: JobId,
                  after: Counters)
    requires Folded(c, files, events, ids, before) && AllArtifactsOk(c, files, EventsOf(events, j))
    requires CountsList(after, before, EventsOf(events, j))
    ensures Folded(c, files, events, ids + [j], after)
  {
    JobCounted(events, ids, before, j, after);
  }

  lemma AllFolded(c: Codec, files: map<Path, Bytes>, events: seq<Event>, ids: seq<JobId>, counters: Counters)
    requires Folded(c, files, events, ids, counters) && Distinct(ids)
    requires forall k :: 0 <= k < |events| ==> events[k].job in ids
    ensures AllArtifactsOk(c, files, events) && CountsList(counters, NO_COUNTERS, events)
  {
    OkByGroup(c, files, events, ids);
    AllJobsCounted(events, ids, counters);
  }

  /** The fold of build_smoke_report over a run's events: it raises exactly when the artifact
      of a completed event is missing or does not validate, and otherwise its counters are
      those of the log. */
  method FoldEvents(events: seq<Event>, store: ArtifactStore) returns (r: Option<Counters>)
    ensures r.Some? <==> AllArtifactsOk(store.format.codec, store.files, events)
    ensures r.Some? ==> CountsList(r.value, NO_COUNTERS, events)
  {
    var order, groups := GroupByJob(events);
    var c, k := NO_COUNTERS, 0;
    NothingFolded(store.format.codec, store.files, events);
    while k < |order|
      invariant k <= |order| && Folded(store.format.codec, store.files, events, order[..k], c)
    {
      var next, ok := FoldJob(groups[order[k]], c, store);
      if !ok {
        BadGroup(store.format.codec, store.files, events, order[k]);
        return None;
      }
      JobFolded(store.format.codec, store.files, events, order[..k], c, order[k], next);
      assert order[..k + 1] == order[..k] + [order[k]];
      c, k := next, k + 1;
    }
    assert order[..k] == order;
    AllFolded(store.format.codec, store.files, events, order, c);
    return Some(c);
  }

  // ----- the report and the tables agree -----

  ghost function RunEvents(db: Db, events: seq<Event>, run: RunId): seq<Event> {
    if events == [] then []
    else
      var last := events[|events| - 1];
      RunEvents(db, events[..|events| - 1], run) +
      if last.job in db.jobs && db.jobs[last.job].runId == run then [last] else []
  }

  lemma {:induction false} RunEventsOf(db: Db, events: seq<Event>, run: RunId, j: JobId)
    requires j in db.jobs && db.jobs[j].runId == run
    ensures EventsOf(RunEvents(db, events, run), j) == EventsOf(events, j)
  {
    if events != [] {
      var n := |events| - 1;
      RunEventsOf(db, events[..n], run, j);
      EventsOfAppend(RunEvents(db, events[..n], run), events[n], j);
      assert RunEvents(db, events[..n], run) + [] == RunEvents(db, events[..n], run);
    }
  }

  lemma {:induction false} RunEventsMembers(db: Db, events: seq<Event>, run: RunId)
    ensures forall x :: x in RunEvents(db, events, run) <==>
            x in events && x.job in db.jobs && db.jobs[x.job].runId == run
  {
    if events != [] {
      var n := |events| - 1;
      RunEventsMembers(db, events[..n], run);
      assert events == events[..n] + [events[n]];
    }
  }

  /** The events of the run, in log order. */
  method SelectRunEvents(db: Database, run: RunId) returns (events: seq<Event>)
    ensures events == RunEvents(db.View(), db.events, run)
  {
    events := [];
    var k := 0;
    while k < |db.events|
      invariant k <= |db.events|
      invariant events == RunEvents(db.View(), db.events[..k], run)
    {
      var x := db.events[k];
      assert db.events[..k + 1][..k] == db.events[..k];
      if x.job in db.jobs && db.jobs[x.job].runId == run {
        events := events + [x];
      }
      k := k + 1;
    }
    assert db.events[..k] == db.events;
  }

  /** How often a job has an event named after a terminal status. */
  method NamedEvents(events: seq<Event>, j: JobId) returns (count: nat)
    ensures count == Count(events, j, IS_NAMED_AS_STATUS)
  {
    count := 0;
    var k := 0;
    while k < |events|
      invariant k <= |events| && count == Count(events[..k], j, IS_NAMED_AS_STATUS)
    {
      CountAppend(events[..k], events[k], j, IS_NAMED_AS_STATUS);
      assert events[..k + 1] == events[..k] + [events[k]];
      if events[k].job == j && events[k].body.Kind().NamedAsStatus() {
        count := count + 1;
      }
      k := k + 1;
    }
    assert events[..k] == events;
  }

  /** The ids of all job rows that a query with an optional run filter sees. */
  ghost predicate QueryRows(db: Db, run: Option<RunId>, ids: seq<JobId>) {
    && Distinct(ids)
    && (forall j :: j in ids <==> j in db.jobs && (run.None? || db.jobs[j].runId == run.value))
  }

  ghost function DuplicatesAmong(events: seq<Event>, ids: seq<JobId>): set<JobId> {
    if ids == [] then {}
    else
      var n := |ids| - 1;
      DuplicatesAmong(events, ids[..n]) + if Count(events, ids[n], IS_NAMED_AS_STATUS) > 1 then {ids[n]} else {}
  }

  lemma {:induction false} DuplicatesAre(events: seq<Event>, ids: seq<JobId>)
    ensures forall j :: j in DuplicatesAmong(events, ids) <==> j in ids && Count(events, j, IS_NAMED_AS_STATUS) > 1
  {
    if ids != [] {
      var n := |ids| - 1;
      DuplicatesAre(events, ids[..n]);
      assert ids == ids[..n] + [ids[n]];
    }
  }

  lemma OneMoreGroup(events: seq<Event>, ids: seq<JobId>, k: nat)
    requires Distinct(ids) && k < |ids|
    ensures |DuplicatesAmong(events, ids[..k + 1])|
         == |DuplicatesAmong(events, ids[..k])| + if Count(events, ids[k], IS_NAMED_AS_STATUS) > 1 then 1 else 0
  {
    DuplicatesAre(events, ids[..k]);
    assert ids[..k + 1][..k] == ids[..k] && ids[k] !in ids[..k];
  }

  /** duplicate_terminal_event_count: group by job, keep the groups of more than one, count. */
  method DuplicateTerminalEventCount(db: Database, ghost run: Option<RunId>, ids: seq<JobId>) returns (count: nat)
    requires QueryRows(db.View(), run, ids)
    ensures count == |DuplicateTerminalJobs(db.View(), run)|
  {
    count := 0;
    var k := 0;
    while k < |ids|
      invariant k <= |ids| && count == |DuplicatesAmong(db.events, ids[..k])|
    {
      var n := NamedEvents(db.events, ids[k]);
      OneMoreGroup(db.events, ids, k);
      if n > 1 {
        count := count + 1;
      }
      k := k + 1;
    }
    DuplicatesAreJobs(db.View(), run, ids);
    assert ids[..k] == ids;
  }

  lemma DuplicatesAreJobs(db: Db, run: Option<RunId>, ids: seq<JobId>)
    requires QueryRows(db, run, ids)
    ensures DuplicatesAmong(db.events, ids) == DuplicateTerminalJobs(db, run)
  {
    DuplicatesAre(db.events, ids);
  }

  ghost function OfKind(k: Kind): Body -> bool {
    (b: Body) => b.Kind() == k
  }

  /** All final events of job j have kind f. */
  ghost predicate FinalsAre(events: seq<Event>, j: JobId, f: Kind) {
    forall x :: x in events && x.job == j && x.body.Kind().Final() ==> x.body.Kind() == f
  }

  /** If all final events of a job have one kind, that kind occurs as often as final events do,
      and the other final kinds not at all. */
  lemma {:induction false} KindCount(events: seq<Event>, j: JobId, f: Kind, k: Kind)
    requires k.Final() && FinalsAre(events, j, f)
    ensures Matching(EventsOf(events, j), OfKind(k)) == if k == f then Count(events, j, IS_FINAL) else 0
  {
    if events != [] {
      var n := |events| - 1;
      var x := events[n];
      assert events == events[..n] + [x];
      KindCount(events[..n], j, f, k);
      GroupAppend(events[..n], x, j, OfKind(k));
      CountAppend(events[..n], x, j, IS_FINAL);
      assert x in events && OfKind(k)(x.body) == (x.body.Kind() == k);
    }
  }

  /** A job has one event of final kind k if its guard row says k, and none otherwise. */
  lemma FinalKindOnce(db: Db, j: JobId, k: Kind)
    requires GuardInv(db) && j in db.jobs && k.Final()
    ensures Matching(EventsOf(db.events, j), OfKind(k)) == if j in db.finals && db.finals[j].kind == k then 1 else 0
  {
    var f := if j in db.finals then db.finals[j].kind else if k == KFailed then KCompleted else KFailed;
    forall x | x in db.events && x.job == j && x.body.Kind().Final()
      ensures x.body.Kind() == f
    {
      var i :| 0 <= i < |db.events| && db.events[i] == x;
    }
    KindCount(db.events, j, f, k);
  }

  ghost function KindRows(db: Db, ids: seq<JobId>, k: Kind): nat {
    if ids == [] then 0
    else
      var j := ids[|ids| - 1];
      KindRows(db, ids[..|ids| - 1], k) + if j in db.finals && db.finals[j].kind == k then 1 else 0
  }

  lemma {:induction false} KindRowsCount(db: Db, run: RunId, ids: seq<JobId>, k: Kind)
    requires GuardInv(db) && k.Final() && forall j :: j in ids ==> j in db.jobs && db.jobs[j].runId == run
    ensures MatchingPerJob(RunEvents(db, db.events, run), ids, OfKind(k)) == KindRows(db, ids, k)
  {
    if ids != [] {
      var n := |ids| - 1;
      KindRowsCount(db, run, ids[..n], k);
      RunEventsOf(db, db.events, run, ids[n]);
      FinalKindOnce(db, ids[n], k);
    }
  }

  /** The log of a run has as many events of a final kind as the run has guard rows of it. */
  lemma FinalKindsInLog(db: Db, run: RunId, ids: seq<JobId>, k: Kind)
    requires GuardInv(db) && k.Final() && RunRows(db, run, ids)
    ensures Matching(RunEvents(db, db.events, run), OfKind(k)) == KindRows(db, ids, k)
  {
    RunEventsMembers(db, db.events, run);
    var events := RunEvents(db, db.events, run);
    forall i | 0 <= i < |events|
      ensures events[i].job in ids
    {
      assert events[i] in events;
    }
    GroupsAddUp(events, ids, OfKind(k));
    KindRowsCount(db, run, ids, k);
  }

  lemma {:induction false} CompletedRows(db: Db, ids: seq<JobId>, n: nat)
    requires GuardInv(db) && Agree(db) && n <= |ids|
    ensures KindRows(db, ids[..n], KCompleted) == StatusCount(db.jobs, ids, n, Completed)
  {
    if n > 0 {
      CompletedRows(db, ids, n - 1);
      assert ids[..n][..n - 1] == ids[..n - 1];
    }
  }

  /** Counting two kinds of events that exclude each other. */
  lemma {:induction false} MatchingSum(events: seq<Event>, p: Body -> bool, q: Body -> bool, r: Body -> bool)
    requires forall b: Body :: !(p(b) && q(b)) && (r(b) <==> p(b) || q(b))
    ensures Matching(events, r) == Matching(events, p) + Matching(events, q)
  {
    if events != [] {
      MatchingSum(events[..|events| - 1], p, q, r);
    }
  }

  /** In every reachable state the failure classification of a run is that of its guard rows:
      timeouts, cancellations, and transient and permanent failures together. */
  lemma ClassesAreGuardRows(cfg: Config, ss: seq<State>, acts: seq<Action>, n: nat, run: RunId, ids: seq<JobId>,
                            c: Counters)
    requires Run(cfg, ss, acts) && n < |ss| && RunRows(ss[n].db, run, ids)
    requires CountsList(c, NO_COUNTERS, RunEvents(ss[n].db, ss[n].db.events, run))
    ensures var db := ss[n].db;
            && c.timeout == KindRows(db, ids, KTimedOut) && c.cancelled == KindRows(db, ids, KCancelled)
            && c.transient + c.permanent == KindRows(db, ids, KFailed)
            && c.artifacts == KindRows(db, ids, KCompleted)
  {
    RunKeepsInv(cfg, ss, acts);
    assert Inv(ss[n]);
    var events := RunEvents(ss[n].db, ss[n].db.events, run);
    MatchingSame(events, IS_TIMEOUT, OfKind(KTimedOut));
    MatchingSame(events, IS_CANCELLED, OfKind(KCancelled));
    MatchingSame(events, IS_COMPLETED, OfKind(KCompleted));
    MatchingSum(events, IS_TRANSIENT, IS_PERMANENT, OfKind(KFailed));
    FinalKindsInLog(ss[n].db, run, ids, KTimedOut);
    FinalKindsInLog(ss[n].db, run, ids, KCancelled);
    FinalKindsInLog(ss[n].db, run, ids, KCompleted);
    FinalKindsInLog(ss[n].db, run, ids, KFailed);
  }

  lemma {:induction false} MatchingSame(events: seq<Event>, p: Body -> bool, q: Body -> bool)
    requires forall b: Body :: p(b) == q(b)
    ensures Matching(events, p) == Matching(events, q)
  {
    if events != [] {
      MatchingSame(events[..|events| - 1], p, q);
    }
  }

  /** Every worker has an artifact store. */
  ghost predicate AllStored(cfg: Config) {
    forall i: ActorId :: cfg.hasStore(i)
  }

  ghost predicate CompletedStored(db: Db) {
    forall k :: 0 <= k < |db.events| && db.events[k].body.CompletedBody? ==> db.events[k].body.artifact.Some?
  }

  lemma StoredKept(cfg: Config, s: State, a: Action, s': State)
    requires Step(cfg, s, a, s') && AllStored(cfg) && CompletedStored(s.db)
    ensures CompletedStored(s'.db)
  {
    EffectSummary(cfg, s, a);
    var tx := EffectOf(cfg, s, a).tx;
    if tx.RecordTx? || tx.FinalizeTx? {
      CompletionNamesArtifact(cfg, s, a, tx);
    }
    forall k | 0 <= k < |s'.db.events| && s'.db.events[k].body.CompletedBody?
      ensures s'.db.events[k].body.artifact.Some?
    {
      assert k < |s.db.events| ==> s'.db.events[k] == s.db.events[k];
    }
  }

  lemma CompletionNamesArtifact(cfg: Config, s: State, a: Action, tx: DbOp)
    requires Enabled(cfg, s, a) && AllStored(cfg) && tx == EffectOf(cfg, s, a).tx && (tx.RecordTx? || tx.FinalizeTx?)
    ensures tx.body.CompletedBody? ==> tx.body.artifact.Some?
  {
  }

  /** A single-flight run whose workers all write through a store of the format. */
  ghost predicate StoredRun(cfg: Config, f: Format, ss: seq<State>, acts: seq<Action>) {
    SingleFlightRun(cfg, ss, acts) && AllStored(cfg) && cfg.artifact == Writer(f) && RoundTrips(f.codec)
  }

  lemma {:induction false} StoredUntil(cfg: Config, ss: seq<State>, acts: seq<Action>, k: nat)
    requires SingleFlightRun(cfg, ss, acts) && AllStored(cfg) && k <= |acts|
    ensures CompletedStored(ss[k].db)
  {
    if k > 0 {
      StoredUntil(cfg, ss, acts, k - 1);
      assert Step(cfg, ss[k - 1], acts[k - 1], ss[k]);
      StoredKept(cfg, ss[k - 1], acts[k - 1], ss[k]);
    }
  }

  /** The result in a completed event keeps the identity fields of its artifact. */
  ghost predicate ResultKeeps(f: Format, db: Db, x: Event) {
    x.body.CompletedBody? && x.body.artifact.Some? && x.job in db.jobs ==>
      KeepsIdentity(f, RequestFor(db, x.job, x.body.worker, x.body.attempt, x.body.artifact.value))
  }

  /** In every state of a single-flight run with stores, the artifact of a completed event
      validates if and only if the result that the event carries keeps the identity fields. */
  lemma CompletedIntactIff(cfg: Config, f: Format, ss: seq<State>, acts: seq<Action>, k: nat, x: Event)
    requires StoredRun(cfg, f, ss, acts) && k < |ss| && x in ss[k].db.events
    ensures x.job in ss[k].db.jobs && (x.body.CompletedBody? ==> x.body.artifact.Some?)
    ensures ArtifactOk(f.codec, ss[k].files, x) <==> ResultKeeps(f, ss[k].db, x)
  {
    StoredUntil(cfg, ss, acts, k);
    ArtifactsStayValid(cfg, ss, acts, k);
    TablesAgree(cfg, ss, acts, k);
    MatchMeansIff(cfg, f, ss[k], x);
  }

  lemma MatchMeansIff(cfg: Config, f: Format, s: State, x: Event)
    requires RowsInv(s.db) && CompletedStored(s.db) && ArtifactsMatch(cfg, s) && x in s.db.events
    requires cfg.artifact == Writer(f) && RoundTrips(f.codec)
    ensures x.job in s.db.jobs && (x.body.CompletedBody? ==> x.body.artifact.Some?)
    ensures ArtifactOk(f.codec, s.files, x) <==> ResultKeeps(f, s.db, x)
  {
    var i :| 0 <= i < |s.db.events| && s.db.events[i] == x;
    if x.body.CompletedBody? {
      assert EventMatches(cfg, s, s.db.events[i]);
      var stored := x.body.artifact.value;
      var r := RequestFor(s.db, x.job, x.body.worker, x.body.attempt, stored);
      assert Written(s.files[(r.job, r.attempt)], stored.meta) == Write(f, r);
      WrittenIsIntactIff(f, s.files, r);
    }
  }

  /** In every state of a single-flight run with stores: the file of a completed attempt decodes
      to a document that tells of the event's job, worker, attempt and result, and the event's
      metadata describes that file. */
  lemma CompletedTells(cfg: Config, f: Format, ss: seq<State>, acts: seq<Action>, k: nat, x: Event)
    requires StoredRun(cfg, f, ss, acts) && k < |ss| && x in ss[k].db.events && x.body.CompletedBody?
    ensures x.job in ss[k].db.jobs && x.body.artifact.Some? && (x.job, x.body.attempt) in ss[k].files
    ensures var s, stored := ss[k], x.body.artifact.value;
            var row, bytes := s.db.jobs[x.job], s.files[(x.job, x.body.attempt)];
            var d := f.codec.decode(bytes);
            && d.Some?
            && Tells(f, d.value, x.job, row.runId, row.payload, x.body.worker, x.body.attempt, stored.createdAt,
                     stored.result)
            && Describes(f, stored.meta, bytes, x.job, row.runId, row.payload, x.body.attempt, stored.createdAt,
                         stored.result)
  {
    StoredUntil(cfg, ss, acts, k);
    ArtifactsStayValid(cfg, ss, acts, k);
    TablesAgree(cfg, ss, acts, k);
    var i :| 0 <= i < |ss[k].db.events| && ss[k].db.events[i] == x;
    assert EventMatches(cfg, ss[k], ss[k].db.events[i]);
    var stored := x.body.artifact.value;
    WrittenTells(f, RequestFor(ss[k].db, x.job, x.body.worker, x.body.attempt, stored));
    FileTells(cfg, f, ss[k], x.job, x.body.worker, x.body.attempt, stored);
  }

  lemma FileTells(cfg: Config, f: Format, s: State, j: JobId, worker: ActorId, attempt: nat, stored: Stored)
    requires FileIs(cfg, s, j, worker, attempt, stored) && cfg.artifact == Writer(f)
    ensures var w := Write(f, RequestFor(s.db, j, worker, attempt, stored));
            s.files[(j, attempt)] == w.bytes && stored.meta == w.meta
  {
  }

  /** The metadata of a completed event points to the file of its own attempt. */
  lemma CompletedPath(cfg: Config, f: Format, ss: seq<State>, acts: seq<Action>, k: nat, x: Event)
    requires StoredRun(cfg, f, ss, acts) && k < |ss| && x in ss[k].db.events
    ensures x.body.CompletedBody? && x.body.artifact.Some? ==>
            x.body.artifact.value.meta.path == (x.job, x.body.attempt)
  {
    ArtifactsStayValid(cfg, ss, acts, k);
    var i :| 0 <= i < |ss[k].db.events| && ss[k].db.events[i] == x;
    assert EventMatches(cfg, ss[k], ss[k].db.events[i]);
    if x.body.CompletedBody? && x.body.artifact.Some? {
      var r := RequestFor(ss[k].db, x.job, x.body.worker, x.body.attempt, x.body.artifact.value);
      assert x.body.artifact.value.meta == Write(f, r).meta;
    }
  }

  ghost predicate AllResultsKeep(f: Format, db: Db, events: seq<Event>) {
    forall x :: x in events ==> ResultKeeps(f, db, x)
  }

  /** In every state of a single-flight run with stores, the report over any run id raises if
      and only if the result of one of its completed events overrides an identity field. */
  lemma ReportRaisesIff(cfg: Config, f: Format, ss: seq<State>, acts: seq<Action>, k: nat, run: RunId)
    requires StoredRun(cfg, f, ss, acts) && k < |ss|
    ensures var events := RunEvents(ss[k].db, ss[k].db.events, run);
            AllArtifactsOk(f.codec, ss[k].files, events) <==> AllResultsKeep(f, ss[k].db, events)
  {
    var events := RunEvents(ss[k].db, ss[k].db.events, run);
    RunEventsMembers(ss[k].db, ss[k].db.events, run);
    forall x | x in events
      ensures ArtifactOk(f.codec, ss[k].files, x) <==> ResultKeeps(f, ss[k].db, x)
    {
      CompletedIntactIff(cfg, f, ss, acts, k, x);
    }
  }

  /** A worker has leased a job that was just published. */
  lemma LeasedInSingleFlight(cfg: Config, sub: Submission) returns (ss: seq<State>, acts: seq<Action>)
    ensures SingleFlightRun(cfg, ss, acts)
    ensures ss[|acts|] == Started(sub).(db := InsertJob(EMPTY_DB, 0, sub), actors := [Leased(0)])
  {
    ss, acts := [State(EMPTY_DB, EMPTY_QUEUE, map[], [Idle])], [];
    ss, acts := ExtendSingleFlight(cfg, ss, acts, Submit(0, sub));
    ss, acts := ExtendSingleFlight(cfg, ss, acts, PublishInitial(0));
    ss, acts := ExtendSingleFlight(cfg, ss, acts, LeaseNext(0, 0));
  }

  lemma StartedInSingleFlight(cfg: Config, sub: Submission) returns (ss: seq<State>, acts: seq<Action>)
    requires cfg.policyOf(0).ValidateDispatch(FreshRecord(sub)).None?
    ensures SingleFlightRun(cfg, ss, acts) && ss[|acts|] == Started(sub)
  {
    ss, acts := LeasedInSingleFlight(cfg, sub);
    ss, acts := ExtendSingleFlight(cfg, ss, acts, Start(0));
  }

  lemma WroteInSingleFlight(cfg: Config, f: Format, sub: Submission, result: RunnerResult, at: string)
    returns (ss: seq<State>, acts: seq<Action>)
    requires AllStored(cfg) && cfg.artifact == Writer(f) && !result.artifactPayload.NotADict?
    requires cfg.policyOf(0).ValidateDispatch(FreshRecord(sub)).None?
    ensures SingleFlightRun(cfg, ss, acts)
    ensures var w := Write(f, WriteRequest(0, sub.runId, sub.payload, 0, 1, at, result));
            ss[|acts|] == Started(sub).(
            files := map[(0, 1) := w.bytes], actors := [Wrote(0, FreshRecord(sub), Stored(result, at, w.meta))])
  {
    ss, acts := StartedInSingleFlight(cfg, sub);
    ss, acts := ExtendSingleFlight(cfg, ss, acts, WriteArtifact(0, result, at));
  }

  /** Every result can complete a job: after a run in which a runner returned it, the report
      over the job's run raises if and only if the result overrides an identity field. */
  lemma AnyResultCanComplete(cfg: Config, f: Format, sub: Submission, result: RunnerResult, at: string)
    returns (ss: seq<State>, acts: seq<Action>)
    requires AllStored(cfg) && cfg.artifact == Writer(f) && RoundTrips(f.codec)
    requires !result.artifactPayload.NotADict? && cfg.policyOf(0).ValidateDispatch(FreshRecord(sub)).None?
    ensures StoredRun(cfg, f, ss, acts)
    ensures var s := ss[|acts|];
            && (AllArtifactsOk(f.codec, s.files, RunEvents(s.db, s.db.events, sub.runId))
                <==> KeepsIdentity(f, WriteRequest(0, sub.runId, sub.payload, 0, 1, at, result)))
  {
    ss, acts := WroteInSingleFlight(cfg, f, sub, result, at);
    ss, acts := ExtendSingleFlight(cfg, ss, acts, Finish(0, Success));
    CompletedLog(cfg, f, sub, result, at, ss[|acts|]);
    ReportRaisesIff(cfg, f, ss, acts, |acts|, sub.runId);
  }

  lemma CompletedLog(cfg: Config, f: Format, sub: Submission, result: RunnerResult, at: string, s: State)
    requires 0 in s.db.jobs && SameExceptStatus(FreshRecord(sub), s.db.jobs[0])
    requires var r := WriteRequest(0, sub.runId, sub.payload, 0, 1, at, result);
             s.db.events == Started(sub).db.events
                 + [Event(0, CompletedBody(0, 1, Some(Stored(result, at, Write(f, r).meta))))]
    ensures AllResultsKeep(f, s.db, RunEvents(s.db, s.db.events, sub.runId))
       <==> KeepsIdentity(f, WriteRequest(0, sub.runId, sub.payload, 0, 1, at, result))
  {
    var x := s.db.events[2];
    RunEventsMembers(s.db, s.db.events, sub.runId);
    assert x in RunEvents(s.db, s.db.events, sub.runId);
    assert RequestFor(s.db, 0, 0, 1, x.body.artifact.value)
        == WriteRequest(0, sub.runId, sub.payload, 0, 1, at, result);
  }

  /** One that does: a payload whose job_id is not the job's. */
  lemma OverrideRaises(cfg: Config, f: Format, sub: Submission, value: Value)
    returns (ss: seq<State>, acts: seq<Action>)
    requires AllStored(cfg) && cfg.artifact == Writer(f) && RoundTrips(f.codec) && value != Text(f.idText(0))
    requires cfg.policyOf(0).ValidateDispatch(FreshRecord(sub)).None?
    ensures StoredRun(cfg, f, ss, acts)
    ensures var s := ss[|acts|]; !AllArtifactsOk(f.codec, s.files, RunEvents(s.db, s.db.events, sub.runId))
  {
    var result := RunnerResult("", Dict(map["job_id" := value]));
    ss, acts := AnyResultCanComplete(cfg, f, sub, result, "");
    assert !Keeps(result.artifactPayload.fields, "job_id", Text(f.idText(0)));
  }

  /** The log of every run id has one completed event for each completed job: a report that
      does not raise has artifact completeness 1. */
  lemma ReportIsComplete(cfg: Config, ss: seq<State>, acts: seq<Action>, k: nat, run: RunId, ids: seq<JobId>)
    requires SingleFlightRun(cfg, ss, acts) && k < |ss| && RunRows(ss[k].db, run, ids)
    ensures Matching(RunEvents(ss[k].db, ss[k].db.events, run), IS_COMPLETED)
            == StatusCount(ss[k].db.jobs, ids, |ids|, Completed)
  {
    TablesAgree(cfg, ss, acts, k);
    ReportOn(ss[k], run, ids);
  }

  lemma TablesAgree(cfg: Config, ss: seq<State>, acts: seq<Action>, k: nat)
    requires SingleFlightRun(cfg, ss, acts) && k < |ss|
    ensures GuardInv(ss[k].db) && Agree(ss[k].db)
  {
    SingleFlightIsSafe(cfg, ss, acts);
    RunKeepsInv(cfg, ss, acts);
    assert Inv(ss[k]);
  }

  lemma ReportOn(s: State, run: RunId, ids: seq<JobId>)
    requires GuardInv(s.db) && Agree(s.db) && RunRows(s.db, run, ids)
    ensures Matching(RunEvents(s.db, s.db.events, run), IS_COMPLETED) == StatusCount(s.db.jobs, ids, |ids|, Completed)
  {
    FinalKindsInLog(s.db, run, ids, KCompleted);
    CompletedRows(s.db, ids, |ids|);
    assert ids[..|ids|] == ids;
    MatchingSame(RunEvents(s.db, s.db.events, run), IS_COMPLETED, OfKind(KCompleted));
  }

  // ----- queue depth -----

  ghost function EntryCount(q: Queue, n: nat, p: (Queue, EntryId) -> bool): nat {
    if n == 0 then 0 else EntryCount(q, n - 1, p) + if p(q, n - 1) then 1 else 0
  }

  const IS_UNACKED: (Queue, EntryId) -> bool := (q: Queue, e: EntryId) => Unacked(q, e)
  const IS_PENDING: (Queue, EntryId) -> bool := (q: Queue, e: EntryId) => e in q.pending
  const IS_UNDELIVERED: (Queue, EntryId) -> bool := (q: Queue, e: EntryId) => e >= q.cursor
  const IS_ACKED: (Queue, EntryId) -> bool := (q: Queue, e: EntryId) => Acked(q, e)

  /** What XINFO GROUPS gives: pending plus lag. */
  function QueueDepth(q: Queue): int {
    |q.pending| + (|q.entries| - q.cursor)
  }

  lemma {:induction false} Partition(q: Queue, n: nat)
    requires QueueInv(q) && n <= |q.entries|
    ensures EntryCount(q, n, IS_PENDING) + EntryCount(q, n, IS_UNDELIVERED) + EntryCount(q, n, IS_ACKED) == n
    ensures EntryCount(q, n, IS_UNACKED) == EntryCount(q, n, IS_PENDING) + EntryCount(q, n, IS_UNDELIVERED)
    ensures EntryCount(q, n, IS_UNDELIVERED) == if n <= q.cursor then 0 else n - q.cursor
  {
    if n > 0 {
      Partition(q, n - 1);
    }
  }

  lemma {:induction false} PendingCount(q: Queue, n: nat, low: set<EntryId>)
    requires forall e: EntryId :: e in low <==> e in q.pending && e < n
    ensures EntryCount(q, n, IS_PENDING) == |low|
  {
    if n == 0 {
      assert low == {};
    } else {
      PendingCount(q, n - 1, low - {n - 1});
    }
  }

  /** Undelivered, pending and acknowledged entries partition the stream, and queue_depth is
      exactly the number of entries that are not acknowledged. */
  lemma QueueDepthIsUnacked(cfg: Config, ss: seq<State>, acts: seq<Action>, k: nat)
    requires Run(cfg, ss, acts) && k < |ss|
    ensures var q := ss[k].q;
            && QueueDepth(q) == EntryCount(q, |q.entries|, IS_UNACKED)
            && QueueDepth(q) + EntryCount(q, |q.entries|, IS_ACKED) == |q.entries|
  {
    RunKeepsInv(cfg, ss, acts);
    assert Inv(ss[k]);
    var q := ss[k].q;
    Partition(q, |q.entries|);
    PendingCount(q, |q.entries|, q.pending.Keys);
    assert |q.pending| == |q.pending.Keys|;
  }

  // ----- the 95th percentile -----

  ghost function AtMost(values: seq<int>, x: int): nat {
    if values == [] then 0 else AtMost(values[1..], x) + if values[0] <= x then 1 else 0
  }

  predicate Ascending(values: seq<int>) {
    forall k, l :: 0 <= k < l < |values| ==> values[k] <= values[l]
  }

  function Insert(x: int, values: seq<int>): (r: seq<int>)
    requires Ascending(values)
    ensures Ascending(r) && |r| == |values| + 1
    ensures forall y :: y in r <==> y == x || y in values
  {
    if values == [] then [x]
    else if x <= values[0] then [x] + values
    else
      var rest := Insert(x, values[1..]);
      assert values == [values[0]] + values[1..];
      assert forall k :: 0 <= k < |rest| ==> rest[k] in rest && rest[k] >= values[0];
      [values[0]] + rest
  }

  function Sorted(values: seq<int>): (r: seq<int>)
    ensures Ascending(r) && |r| == |values|
    ensures forall y :: y in r <==> y in values
  {
    if values == [] then []
    else
      assert values == [values[0]] + values[1..];
      Insert(values[0], Sorted(values[1..]))
  }

  lemma {:induction false} InsertCounts(x: int, values: seq<int>, y: int)
    requires Ascending(values)
    ensures AtMost(Insert(x, values), y) == AtMost(values, y) + if x <= y then 1 else 0
  {
    if values != [] && x > values[0] {
      InsertCounts(x, values[1..], y);
      assert ([values[0]] + Insert(x, values[1..]))[1..] == Insert(x, values[1..]);
    } else {
      assert ([x] + values)[1..] == values;
    }
  }

  lemma {:induction false} SortedCounts(values: seq<int>, y: int)
    ensures AtMost(Sorted(values), y) == AtMost(values, y)
  {
    if values != [] {
      SortedCounts(values[1..], y);
      InsertCounts(values[0], Sorted(values[1..]), y);
    }
  }

  /** In an ascending list at least i + 1 values are at or below the one at index i, and at
      most i values are strictly below it. */
  lemma {:induction false} AtMostAscending(values: seq<int>, i: nat)
    requires Ascending(values) && i < |values|
    ensures AtMost(values, values[i]) >= i + 1 && AtMost(values, values[i] - 1) <= i
  {
    if i == 0 {
      NothingBelow(values, values[0] - 1);
    } else {
      AtMostAscending(values[1..], i - 1);
      assert values[1..][i - 1] == values[i];
    }
  }

  lemma {:induction false} NothingBelow(values: seq<int>, x: int)
    requires forall k :: 0 <= k < |values| ==> values[k] > x
    ensures AtMost(values, x) == 0
  {
    if values != [] {
      NothingBelow(values[1..], x);
    }
  }

  /** The order statistic at index 95 * (n - 1) / 100, and 0 for no values. */
  method P95(values: seq<int>) returns (p: int)
    ensures values == [] ==> p == 0
    ensures values != [] ==>
              && p in values
              && AtMost(values, p) >= 95 * (|values| - 1) / 100 + 1
              && AtMost(values, p - 1) <= 95 * (|values| - 1) / 100
  {
    if |values| == 0 {
      return 0;
    }
    var sorted := Sorted(values);
    var index := (|values| - 1) * 95 / 100;
    p := sorted[index];
    AtMostAscending(sorted, index);
    SortedCounts(values, p);
    SortedCounts(values, p - 1);
  }
}
