/** The report over a run is the same whether or not the tables hold other jobs. */
module OwnReports {
  import opened Domain
  import opened Store
  import opened Artifacts
  import opened Reports
  import opened Isolation

  /** Jobs that are not own belong to other runs. */
  ghost predicate Foreign(db: Db, own: set<JobId>, run: RunId) {
    forall j :: j in db.jobs && j !in own ==> db.jobs[j].runId != run
  }

  lemma {:induction false} OwnRunEvents(db: Db, events: seq<Event>, own: set<JobId>, run: RunId)
    requires Foreign(db, own, run)
    ensures RunEvents(Part(db, own), OwnEvents(events, own), run) == RunEvents(db, events, run)
  {
    if events != [] {
      var n := |events| - 1;
      OwnRunEvents(db, events[..n], own, run);
      var some := OwnEvents(events[..n], own);
      if events[n].job in own {
        assert (some + [events[n]])[..|some|] == some;
      } else {
        assert some + [] == some && RunEvents(db, events[..n], run) + [] == RunEvents(db, events[..n], run);
      }
    }
  }

  lemma {:induction false} OwnCount(events: seq<Event>, own: set<JobId>, j: JobId, p: Kind -> bool)
    requires j in own
    ensures Count(OwnEvents(events, own), j, p) == Count(events, j, p)
  {
    if events != [] {
      var n := |events| - 1;
      OwnCount(events[..n], own, j, p);
      var some := OwnEvents(events[..n], own);
      if events[n].job in own {
        CountAppend(some, events[n], j, p);
      } else {
        assert some + [] == some;
      }
    }
  }

  lemma OwnDuplicates(db: Db, own: set<JobId>, run: RunId)
    requires Foreign(db, own, run)
    ensures DuplicateTerminalJobs(Part(db, own), Some(run)) == DuplicateTerminalJobs(db, Some(run))
  {
    forall j | j in own
      ensures Count(OwnEvents(db.events, own), j, IS_NAMED_AS_STATUS) == Count(db.events, j, IS_NAMED_AS_STATUS)
    {
      OwnCount(db.events, own, j, IS_NAMED_AS_STATUS);
    }
  }

  lemma {:induction false} OwnLifecycle(db: Db, own: set<JobId>, ids: seq<JobId>, n: nat)
    requires n <= |ids| && forall k :: 0 <= k < |ids| ==> ids[k] in db.jobs && ids[k] in own
    ensures LifecycleOf(Part(db, own).jobs, ids, n) == LifecycleOf(db.jobs, ids, n)
  {
    if n > 0 {
      OwnLifecycle(db, own, ids, n - 1);
    }
  }

  lemma OwnRows(db: Db, own: set<JobId>, run: RunId, ids: seq<JobId>)
    requires Foreign(db, own, run)
    ensures RunRows(Part(db, own), run, ids) <==> RunRows(db, run, ids)
  {
  }

  /** An artifact whose metadata points to an own file is judged by the own files. */
  lemma OwnArtifacts(c: Codec, files: map<Path, Bytes>, own: set<JobId>, events: seq<Event>)
    requires forall x :: x in events && x.body.CompletedBody? && x.body.artifact.Some? ==>
             x.body.artifact.value.meta.path.0 in own
    ensures AllArtifactsOk(c, PartFiles(files, own), events) <==> AllArtifactsOk(c, files, events)
  {
    forall x | x in events
      ensures ArtifactOk(c, PartFiles(files, own), x) <==> ArtifactOk(c, files, x)
    {
    }
  }
}
