/** In single-flight runs every attempt of a job is executed at most once, so nobody
    overwrites the artifact file that a completed event points to. */
module Execution {
  import opened Domain
  import opened Store
  import opened Streams
  import opened Protocol
  import opened Safety
  import opened SingleFlight

  // ----- artifact files -----

  /** The request that a worker's stored artifact came from; the row still has what it needs. */
  ghost function RequestFor(db: Db, j: JobId, worker: ActorId, attempt: nat, stored: Stored): WriteRequest
    requires j in db.jobs
  {
    WriteRequest(j, db.jobs[j].runId, db.jobs[j].payload, worker, attempt, stored.createdAt, stored.result)
  }

  /** The file of the attempt holds the bytes that the store made of the request, and the
      metadata is what the store returned for it. */
  ghost predicate FileIs(cfg: Config, s: State, j: JobId, worker: ActorId, attempt: nat, stored: Stored) {
    && j in s.db.jobs && (j, attempt) in s.files
    && Written(s.files[(j, attempt)], stored.meta) == cfg.artifact(RequestFor(s.db, j, worker, attempt, stored))
    && !stored.result.artifactPayload.NotADict?
  }

  ghost predicate EventMatches(cfg: Config, s: State, x: Event) {
    x.body.CompletedBody? && x.body.artifact.Some? ==>
      FileIs(cfg, s, x.job, x.body.worker, x.body.attempt, x.body.artifact.value)
  }

  /** Every completed event still describes the bytes in the store. */
  ghost predicate ArtifactsMatch(cfg: Config, s: State) {
    forall k :: 0 <= k < |s.db.events| ==> EventMatches(cfg, s, s.db.events[k])
  }

  ghost predicate PcMatches(cfg: Config, s: State, i: ActorId)
    requires i < |s.actors|
  {
    s.actors[i].Wrote? && s.actors[i].e < |s.q.entries| ==>
      var m := s.q.entries[s.actors[i].e];
      FileIs(cfg, s, m.job, i, m.attempt, s.actors[i].stored)
  }

  /** So does what a worker is about to commit. */
  ghost predicate WrittenMatch(cfg: Config, s: State) {
    forall i :: 0 <= i < |s.actors| ==> PcMatches(cfg, s, i)
  }

  /** A file stays as it is while its path is not written and its row is not lost. */
  lemma FileStays(cfg: Config, s: State, s': State, j: JobId, worker: ActorId, attempt: nat, stored: Stored)
    requires FileIs(cfg, s, j, worker, attempt, stored) && Grows(s.db, s'.db)
    requires (j, attempt) in s'.files && s'.files[(j, attempt)] == s.files[(j, attempt)]
    ensures FileIs(cfg, s', j, worker, attempt, stored)
  {
  }

  /** While worker i executes, no other worker has written a file for the same job. */
  lemma NoOtherWriter(s: State, i: ActorId, k: ActorId)
    requires QueueInv(s.q) && HoldInv(s) && LiveInv(s) && i < |s.actors| && k < |s.actors| && i != k
    requires s.actors[i].Executing? && s.actors[k].Wrote?
    requires s.actors[i].e < |s.q.entries| && s.actors[k].e < |s.q.entries|
    ensures s.q.entries[s.actors[k].e].job != s.q.entries[s.actors[i].e].job
  {
    HeldIsLive(s, i, s.actors[i].e);
    HeldIsLive(s, k, s.actors[k].e);
    OneHolderPerJob(s, i, s.actors[i].e, k, s.actors[k].e);
  }

  /** While worker i executes, its job has no completed event yet. */
  lemma NoCompletedEventYet(s: State, i: ActorId)
    requires RowsInv(s.db) && BusyInv(s) && i < |s.actors| && s.actors[i].Executing? && s.actors[i].e < |s.q.entries|
    ensures forall k :: 0 <= k < |s.db.events| && s.db.events[k].body.CompletedBody? ==>
              s.db.events[k].job != s.q.entries[s.actors[i].e].job
  {
  }

  /** The event a step appends, and what a completed event says about its worker. */
  lemma CompletedComesFromWrote(cfg: Config, s: State, a: Action, s': State)
    requires QueueInv(s.q) && Enabled(cfg, s, a) && s' == Next(cfg, s, a) && |s'.db.events| > |s.db.events|
    ensures s'.db.events[..|s.db.events|] == s.db.events && |s'.db.events| == |s.db.events| + 1
    ensures var x := s'.db.events[|s.db.events|];
            x.body.CompletedBody? && x.body.artifact.Some? ==>
              && !External(a) && !a.WriteArtifact? && s.actors[a.i].Wrote? && s.actors[a.i].e < |s.q.entries|
              && x.job == s.q.entries[s.actors[a.i].e].job && x.body.attempt == s.q.entries[s.actors[a.i].e].attempt
              && x.body.worker == a.i && x.body.artifact.value == s.actors[a.i].stored
  {
  }

  /** What a step does to the files. */
  ghost predicate FilesMove(cfg: Config, s: State, a: Action, s': State)
    requires Ready(s, a)
  {
    s'.files == if a.WriteArtifact? then
                  s.files[(RequestOf(s, a).job, RequestOf(s, a).attempt) := cfg.artifact(RequestOf(s, a)).bytes]
                else s.files
  }

  lemma OldEventsMatch(cfg: Config, s: State, a: Action, s': State, x: Event)
    requires RowsInv(s.db) && BusyInv(s) && Ready(s, a) && Grows(s.db, s'.db) && FilesMove(cfg, s, a, s')
    requires x in s.db.events && EventMatches(cfg, s, x)
    ensures EventMatches(cfg, s', x)
  {
    if x.body.CompletedBody? && x.body.artifact.Some? {
      var k :| 0 <= k < |s.db.events| && s.db.events[k] == x;
      if a.WriteArtifact? {
        NoCompletedEventYet(s, a.i);
      }
      FileStays(cfg, s, s', x.job, x.body.worker, x.body.attempt, x.body.artifact.value);
    }
  }

  lemma ArtifactsStep(cfg: Config, s: State, a: Action, s': State)
    requires QueueInv(s.q) && RowsInv(s.db) && BusyInv(s) && Enabled(cfg, s, a) && s' == Next(cfg, s, a)
    requires ArtifactsMatch(cfg, s) && WrittenMatch(cfg, s)
    ensures ArtifactsMatch(cfg, s')
  {
    NextExtends(cfg, s, a);
    forall k | 0 <= k < |s'.db.events|
      ensures EventMatches(cfg, s', s'.db.events[k])
    {
      var x := s'.db.events[k];
      if k < |s.db.events| {
        assert x == s.db.events[k] && x in s.db.events;
        OldEventsMatch(cfg, s, a, s', x);
      } else {
        CompletedComesFromWrote(cfg, s, a, s');
        NewEventMatches(cfg, s, a, s', x);
      }
    }
  }

  lemma NewEventMatches(cfg: Config, s: State, a: Action, s': State, x: Event)
    requires WrittenMatch(cfg, s) && Grows(s.db, s'.db) && Ready(s, a) && FilesMove(cfg, s, a, s')
    requires x.body.CompletedBody? && x.body.artifact.Some? ==>
               && !External(a) && !a.WriteArtifact? && s.actors[a.i].Wrote? && s.actors[a.i].e < |s.q.entries|
               && x.job == s.q.entries[s.actors[a.i].e].job && x.body.attempt == s.q.entries[s.actors[a.i].e].attempt
               && x.body.worker == a.i && x.body.artifact.value == s.actors[a.i].stored
    ensures EventMatches(cfg, s', x)
  {
    if x.body.CompletedBody? && x.body.artifact.Some? {
      assert PcMatches(cfg, s, a.i);
      FileStays(cfg, s, s', x.job, x.body.worker, x.body.attempt, x.body.artifact.value);
    }
  }

  /** A worker that has written its file keeps it until it commits. */
  lemma OthersKeepFiles(cfg: Config, s: State, a: Action, s': State, i: ActorId)
    requires QueueInv(s.q) && HoldInv(s) && LiveInv(s) && WrittenMatch(cfg, s) && Extends(s, s') && Ready(s, a)
    requires FilesMove(cfg, s, a, s') && i < |s.actors| == |s'.actors| && s'.actors[i] == s.actors[i]
    requires s.actors[i].Wrote? ==> s.actors[i].e < |s.q.entries|
    requires a.WriteArtifact? ==> i != a.i
    ensures PcMatches(cfg, s', i)
  {
    if s.actors[i].Wrote? {
      assert PcMatches(cfg, s, i);
      if a.WriteArtifact? {
        NoOtherWriter(s, a.i, i);
      }
      var m := s.q.entries[s.actors[i].e];
      FileStays(cfg, s, s', m.job, i, m.attempt, s.actors[i].stored);
    }
  }

  lemma WroteOnlyByWriting(cfg: Config, s: State, a: Action, pc: Pc)
    requires Ready(s, a) && pc == EffectOf(cfg, s, a).pc && pc.Wrote?
    ensures a.WriteArtifact? && pc.e == s.actors[a.i].e
    ensures pc.stored == Stored(a.result, a.createdAt, cfg.artifact(RequestOf(s, a)).meta)
  {
  }

  /** The writer itself: the row has the run id and the payload of the worker's snapshot. */
  lemma WriterMatches(cfg: Config, s: State, a: Action, s': State)
    requires Enabled(cfg, s, a) && !External(a) && ShapedAt(s, s.actors[a.i]) && Extends(s, s')
             && FilesMove(cfg, s, a, s')
    requires s'.actors == s.actors[a.i := EffectOf(cfg, s, a).pc]
    ensures PcMatches(cfg, s', a.i)
  {
    var pc := EffectOf(cfg, s, a).pc;
    if pc.Wrote? {
      WroteOnlyByWriting(cfg, s, a, pc);
      var m := s.q.entries[pc.e];
      assert RequestFor(s'.db, m.job, a.i, m.attempt, pc.stored) == RequestOf(s, a);
    }
  }

  /** PcShape without its range condition, which holds in the states considered here. */
  ghost predicate ShapedAt(s: State, pc: Pc) {
    s.q.cursor <= |s.q.entries| && PcShape(s, pc)
  }

  lemma WrittenStep(cfg: Config, s: State, a: Action, s': State)
    requires HoldInv(s) && LiveInv(s) && WrittenMatch(cfg, s) && Enabled(cfg, s, a) && s' == Next(cfg, s, a)
    requires QueueInv(s.q) && forall i :: 0 <= i < |s.actors| ==> PcShape(s, s.actors[i])
    ensures WrittenMatch(cfg, s')
  {
    NextExtends(cfg, s, a);
    forall i | 0 <= i < |s'.actors|
      ensures PcMatches(cfg, s', i)
    {
      assert PcShape(s, s.actors[i]);
      if External(a) || i != a.i {
        OthersKeepFiles(cfg, s, a, s', i);
      } else {
        WriterMatches(cfg, s, a, s');
      }
    }
  }

  // ----- at most one execution per attempt -----

  /** Later entries of a job carry larger attempt numbers. */
  ghost predicate AttemptsGrow(s: State) {
    forall x, y :: 0 <= x < y < |s.q.entries| && s.q.entries[x].job == s.q.entries[y].job ==>
      s.q.entries[x].attempt < s.q.entries[y].attempt
  }

  /** Entry x has been through its worker's first transaction, or lost its worker. */
  ghost predicate Begun(s: State, x: EntryId) {
    x < s.q.cursor && forall i :: 0 <= i < |s.actors| ==> s.actors[i] != Leased(x)
  }

  /** Every running event names the attempt of an entry that has begun. */
  ghost predicate RunningBegun(s: State) {
    forall k :: 0 <= k < |s.db.events| && s.db.events[k].body.RunningBody? ==>
      exists x :: 0 <= x < |s.q.entries| && RunsEntry(s, s.db.events[k], x) && Begun(s, x)
  }

  ghost predicate RunsEntry(s: State, ev: Event, x: EntryId)
    requires x < |s.q.entries|
  {
    ev.body.RunningBody? && s.q.entries[x].job == ev.job && s.q.entries[x].attempt == ev.body.attempt
  }

  /** No two running events name the same job and attempt. */
  ghost predicate RunsOnce(db: Db) {
    forall k, l :: 0 <= k < l < |db.events| && db.events[k].job == db.events[l].job ==>
      db.events[k].body.RunningBody? && db.events[l].body.RunningBody? ==>
        db.events[k].body.attempt != db.events[l].body.attempt
  }

  lemma AttemptsStep(s: State, a: Action, s': State)
    requires QueueInv(s.q) && HoldInv(s) && LiveInv(s) && AttemptsGrow(s) && Ready(s, a) && SingleFlightStep(s, a)
    requires !External(a) ==> PcShape(s, s.actors[a.i])
    requires s'.q.entries == s.q.entries
          || (a.Publish? && s'.q.entries == s.q.entries + [s.actors[a.i].m])
          || (a.PublishInitial? && s'.q.entries == s.q.entries + [Message(a.job, 1, FromSubmitter)])
    ensures AttemptsGrow(s')
  {
    if a.Publish? {
      var e := s.actors[a.i].e;
      HeldIsLive(s, a.i, e);
      assert forall x :: 0 <= x < |s.q.entries| && s.q.entries[x].job == s.q.entries[e].job ==> x <= e;
    }
  }

  lemma PublishedBy(cfg: Config, s: State, a: Action, s': State)
    requires Enabled(cfg, s, a) && s' == Next(cfg, s, a)
    ensures s'.q.entries == s.q.entries
         || (a.Publish? && s'.q.entries == s.q.entries + [s.actors[a.i].m])
         || (a.PublishInitial? && s'.q.entries == s.q.entries + [Message(a.job, 1, FromSubmitter)])
  {
  }

  /** Only a worker's first transaction appends a running event, and for its own entry. */
  lemma RunningComesFromStart(cfg: Config, s: State, a: Action, s': State)
    requires QueueInv(s.q) && Enabled(cfg, s, a) && s' == Next(cfg, s, a) && |s'.db.events| > |s.db.events|
    ensures |s'.db.events| == |s.db.events| + 1 && s'.db.events[..|s.db.events|] == s.db.events
    ensures var x := s'.db.events[|s.db.events|];
            x.body.RunningBody? ==>
              && a.Start? && s.actors[a.i].e < |s.q.entries| && s'.actors[a.i].Executing?
              && RunsEntry(s, x, s.actors[a.i].e)
  {
  }

  lemma BegunStays(cfg: Config, s: State, a: Action, s': State, eff: Effect, x: EntryId)
    requires QueueInv(s.q) && Ready(s, a) && eff == EffectOf(cfg, s, a) && s'.q == ApplyQ(s.q, eff.op)
    requires s'.actors == if External(a) then s.actors else s.actors[a.i := eff.pc]
    requires x < |s.q.entries| && Begun(s, x)
    ensures Begun(s', x)
  {
  }

  /** Once its only holder has moved on, a leased entry has begun. */
  lemma StartBegins(s: State, i: ActorId, s': State)
    requires QueueInv(s.q) && HoldInv(s) && i < |s.actors| && s.actors[i].Leased? && s.actors[i].e < s.q.cursor
    requires s'.q.cursor == s.q.cursor && |s'.actors| == |s.actors| && !s'.actors[i].Leased?
    requires forall k :: 0 <= k < |s.actors| && k != i ==> s'.actors[k] == s.actors[k]
    ensures Begun(s', s.actors[i].e)
  {
    var e := s.actors[i].e;
    assert Holds(s.actors[i], e);
    forall k | 0 <= k < |s.actors| && k != i
      ensures s.actors[k] != Leased(e)
    {
      assert Holds(s.actors[k], e) ==> k == i;
    }
  }

  /** An entry that is about to start has no running event yet. */
  lemma NotRunYet(s: State, i: ActorId)
    requires QueueInv(s.q) && AttemptsGrow(s) && RunningBegun(s)
    requires i < |s.actors| && s.actors[i].Leased? && s.actors[i].e < |s.q.entries|
    ensures forall k :: 0 <= k < |s.db.events| && s.db.events[k].body.RunningBody? ==>
              !RunsEntry(s, s.db.events[k], s.actors[i].e)
  {
    forall k | 0 <= k < |s.db.events| && s.db.events[k].body.RunningBody?
      ensures !RunsEntry(s, s.db.events[k], s.actors[i].e)
    {
      var x :| 0 <= x < |s.q.entries| && RunsEntry(s, s.db.events[k], x) && Begun(s, x);
      assert x != s.actors[i].e;
    }
  }

  lemma RunningFrame(s: State, s': State, started: EntryId)
    requires RunningBegun(s) && RunsOnce(s.db) && Extends(s, s')
    requires forall x: nat :: x < |s.q.entries| && Begun(s, x) ==> Begun(s', x)
    requires |s'.db.events| <= |s.db.events| + 1
    requires |s'.db.events| > |s.db.events| && s'.db.events[|s.db.events|].body.RunningBody? ==>
               && started < |s.q.entries| && Begun(s', started) && RunsEntry(s, s'.db.events[|s.db.events|], started)
               && forall k :: 0 <= k < |s.db.events| && s.db.events[k].body.RunningBody? ==>
                    !RunsEntry(s, s.db.events[k], started)
    ensures RunningBegun(s') && RunsOnce(s'.db)
  {
    forall k | 0 <= k < |s'.db.events| && s'.db.events[k].body.RunningBody?
      ensures exists x :: 0 <= x < |s'.q.entries| && RunsEntry(s', s'.db.events[k], x) && Begun(s', x)
    {
      if k < |s.db.events| {
        var x :| 0 <= x < |s.q.entries| && RunsEntry(s, s.db.events[k], x) && Begun(s, x);
        assert RunsEntry(s', s'.db.events[k], x);
      } else {
        assert RunsEntry(s', s'.db.events[k], started);
      }
    }
  }

  lemma RunningStep(cfg: Config, s: State, a: Action, s': State)
    requires QueueInv(s.q) && HoldInv(s) && AttemptsGrow(s) && RunningBegun(s) && RunsOnce(s.db)
    requires Enabled(cfg, s, a) && s' == Next(cfg, s, a) && (!External(a) ==> PcShape(s, s.actors[a.i]))
    ensures RunningBegun(s') && RunsOnce(s'.db)
  {
    NextExtends(cfg, s, a);
    EffectSummary(cfg, s, a);
    forall x: nat | x < |s.q.entries| && Begun(s, x)
      ensures Begun(s', x)
    {
      BegunStays(cfg, s, a, s', EffectOf(cfg, s, a), x);
    }
    if |s'.db.events| > |s.db.events| {
      RunningComesFromStart(cfg, s, a, s');
    }
    if a.Start? {
      NotRunYet(s, a.i);
      if s'.actors[a.i].Executing? {
        StartBegins(s, a.i, s');
      }
    }
    RunningFrame(s, s', if a.Start? then s.actors[a.i].e else 0);
  }

  ghost predicate ExecutionInv(cfg: Config, s: State) {
    ArtifactsMatch(cfg, s) && WrittenMatch(cfg, s) && AttemptsGrow(s) && RunningBegun(s) && RunsOnce(s.db)
  }

  lemma ExecutionStep(cfg: Config, s: State, a: Action, s': State)
    requires QueueInv(s.q) && RowsInv(s.db) && forall i :: 0 <= i < |s.actors| ==> PcShape(s, s.actors[i])
    requires HoldInv(s) && LiveInv(s) && BusyInv(s) && ExecutionInv(cfg, s)
    requires Enabled(cfg, s, a) && SingleFlightStep(s, a) && s' == Next(cfg, s, a)
    ensures ExecutionInv(cfg, s')
  {
    NextExtends(cfg, s, a);
    WrittenStep(cfg, s, a, s');
    ArtifactsStep(cfg, s, a, s');
    PublishedBy(cfg, s, a, s');
    AttemptsStep(s, a, s');
    RunningStep(cfg, s, a, s');
  }

  lemma {:induction false} ExecutionUntil(cfg: Config, ss: seq<State>, acts: seq<Action>, k: nat)
    requires SingleFlightRun(cfg, ss, acts) && k <= |acts|
    ensures ExecutionInv(cfg, ss[k])
  {
    if k > 0 {
      ExecutionUntil(cfg, ss, acts, k - 1);
      SfUntil(cfg, ss, acts, k - 1);
      assert Step(cfg, ss[k - 1], acts[k - 1], ss[k]);
      ExecutionStep(cfg, ss[k - 1], acts[k - 1], ss[k]);
    }
  }

  /** In every state of a single-flight run, each attempt of each job has started at most
      once, and for every completed event with an artifact the file of its attempt still holds
      the very bytes that the store wrote, and the metadata that it returned, for that worker's
      result on that job. */
  lemma ArtifactsStayValid(cfg: Config, ss: seq<State>, acts: seq<Action>, k: nat)
    requires SingleFlightRun(cfg, ss, acts) && k < |ss|
    ensures RunsOnce(ss[k].db) && ArtifactsMatch(cfg, ss[k])
  {
    ExecutionUntil(cfg, ss, acts, k);
  }
}
