/** Stale-lease recovery: what one pass does to the tables and the stream, and why passes
    followed by draining bring back every published job after any crash. */
module Recovery {
  import opened Domain
  import opened Store
  import opened Streams
  import opened Protocol
  import opened Safety
  import opened FaultFree
  import opened Drain
  import opened Runtime

  /** The actions are actors' own. */
  ghost predicate NoneExternal(acts: seq<Action>) {
    forall a :: a in acts ==> !External(a)
  }

  // ----- one lease -----

  /** Plan, then publish or dead-letter if the plan says so, then acknowledge. */
  ghost function HandleLease(i: ActorId, s: State, e: EntryId): (s': State)
    requires e < |s.q.entries|
    ensures s'.actors == s.actors && s'.files == s.files && s.q.entries <= s'.q.entries && s'.q.cursor == s.q.cursor
    ensures s'.q.pending.Keys <= s.q.pending.Keys
  {
    var m := s.q.entries[e];
    var eff := PlanEffect(s, i, e, []);
    var q := match eff.pc
      case Publishing(_, next, _) => ApplyQ(s.q, PublishOp(next))
      case DeadLettering(_, _) => ApplyQ(s.q, DeadLetterOp(DeadLetter(m.job, m.attempt, m.attempt)))
      case _ => s.q;
    s.(db := Apply(s.db, eff.tx), q := ApplyQ(q, AckOp(e)))
  }

  ghost function HandleLeases(i: ActorId, s: State, todo: seq<EntryId>): (s': State)
    requires forall k :: 0 <= k < |todo| ==> todo[k] < |s.q.entries|
    ensures s'.actors == s.actors && s'.files == s.files && s.q.entries <= s'.q.entries && s'.q.cursor == s.q.cursor
    ensures s'.q.pending.Keys <= s.q.pending.Keys
    decreases |todo|
  {
    if todo == [] then s else HandleLeases(i, HandleLease(i, s, todo[0]), todo[1..])
  }

  ghost function Place(s: State, i: ActorId, pc: Pc): State
    requires i < |s.actors|
  {
    s.(actors := s.actors[i := pc])
  }

  /** Handling a lease without interleaving is a path of protocol steps of the pass. */
  lemma HandleLeaseLeads(cfg: Config, i: ActorId, s: State, e: EntryId, rest: seq<EntryId>,
                         from: State, before: seq<Action>) returns (acts: seq<Action>)
    requires i < |s.actors| && e < |s.q.entries|
    requires Leads(cfg, from, before, Place(s, i, Recovering([e] + rest))) && NoneExternal(before)
    ensures Leads(cfg, from, acts, Place(HandleLease(i, s, e), i, Recovering(rest))) && NoneExternal(acts)
  {
    var s1;
    s1, acts := PlanLeads(cfg, i, s, e, rest, from, before);
    var s2;
    s2, acts := ForwardLeads(cfg, i, s1, e, rest, from, acts);
    var s3 := Place(HandleLease(i, s, e), i, Recovering(rest));
    LeaseHandled(i, s, e, rest, s2, s3);
    AckStep(cfg, i, s2, s3);
    LeadsSnoc(cfg, from, acts, s2, Ack(i), s3);
    acts := acts + [Ack(i)];
  }

  lemma PlanLeads(cfg: Config, i: ActorId, s: State, e: EntryId, rest: seq<EntryId>, from: State, before: seq<Action>)
    returns (s1: State, acts: seq<Action>)
    requires i < |s.actors| && e < |s.q.entries|
    requires Leads(cfg, from, before, Place(s, i, Recovering([e] + rest))) && NoneExternal(before)
    ensures var eff := PlanEffect(s, i, e, rest);
            Legal(s.db, eff.tx) && s1 == Place(s.(db := Apply(s.db, eff.tx)), i, eff.pc)
    ensures Leads(cfg, from, acts, s1) && NoneExternal(acts)
  {
    var s0 := Place(s, i, Recovering([e] + rest));
    var eff := PlanEffect(s, i, e, rest);
    s1 := Place(s.(db := Apply(s.db, eff.tx)), i, eff.pc);
    PlanStep(cfg, s, i, e, rest, s0, s1);
    LeadsSnoc(cfg, from, before, s0, Plan(i), s1);
    acts := before + [Plan(i)];
  }

  /** What the plan asks for before the acknowledgement. */
  lemma ForwardLeads(cfg: Config, i: ActorId, s1: State, e: EntryId, rest: seq<EntryId>, from: State,
                     before: seq<Action>)
    returns (s2: State, acts: seq<Action>)
    requires i < |s1.actors| && e < |s1.q.entries| && Leads(cfg, from, before, s1) && NoneExternal(before)
    requires var pc := s1.actors[i];
             (pc.Publishing? || pc.DeadLettering? || pc.Acking?) && pc.e == e && pc.cont == ToPass(rest)
    ensures |s2.actors| == |s1.actors| && s2.actors == s1.actors[i := s2.actors[i]] && s2.files == s1.files
            && s2.db == s1.db
    ensures s2.actors[i].Acking? && s2.actors[i].e == e && s2.actors[i].cont == ToPass(rest)
    ensures var m := s1.q.entries[e];
            s2.q == match s1.actors[i]
                    case Publishing(_, next, _) => ApplyQ(s1.q, PublishOp(next))
                    case DeadLettering(_, _) => ApplyQ(s1.q, DeadLetterOp(DeadLetter(m.job, m.attempt, m.attempt)))
                    case _ => s1.q
    ensures Leads(cfg, from, acts, s2) && NoneExternal(acts)
  {
    s2, acts := s1, before;
    match s1.actors[i] {
      case Publishing(_, next, _) =>
        s2 := Place(s1.(q := ApplyQ(s1.q, PublishOp(next))), i, Acking(e, true, ToPass(rest)));
        PublishStep(cfg, i, s1, s2);
        LeadsSnoc(cfg, from, before, s1, Publish(i), s2);
        acts := acts + [Publish(i)];
      case DeadLettering(_, _) =>
        var m := s1.q.entries[e];
        s2 := Place(s1.(q := ApplyQ(s1.q, DeadLetterOp(DeadLetter(m.job, m.attempt, m.attempt)))), i,
                    Acking(e, false, ToPass(rest)));
        DeadLetterStep(cfg, i, s1, s2);
        LeadsSnoc(cfg, from, before, s1, MoveToDeadLetter(i), s2);
        acts := acts + [MoveToDeadLetter(i)];
      case _ =>
    }
  }

  /** The state before the acknowledgement, and after it. */
  lemma LeaseHandled(i: ActorId, s: State, e: EntryId, rest: seq<EntryId>, s2: State, s3: State)
    requires i < |s.actors| && e < |s.q.entries| && s3 == Place(HandleLease(i, s, e), i, Recovering(rest))
    requires |s2.actors| == |s.actors| && s2.actors == s.actors[i := s2.actors[i]] && s2.files == s.files
    requires s2.actors[i].Acking? && s2.actors[i].e == e && s2.actors[i].cont == ToPass(rest)
    requires var eff := PlanEffect(s, i, e, rest);
             && Legal(s.db, eff.tx) && s2.db == Apply(s.db, eff.tx)
             && s2.q == match eff.pc
                        case Publishing(_, next, _) => ApplyQ(s.q, PublishOp(next))
                        case DeadLettering(_, _) =>
                          ApplyQ(s.q, DeadLetterOp(DeadLetter(s.q.entries[e].job, s.q.entries[e].attempt,
                                                              s.q.entries[e].attempt)))
                        case _ => s.q
    ensures s3 == Place(s2.(q := ApplyQ(s2.q, AckOp(e))), i, Recovering(rest))
  {
  }

  lemma PublishStep(cfg: Config, i: ActorId, s: State, s': State)
    requires i < |s.actors| && s.actors[i].Publishing?
    requires s' == Place(s.(q := ApplyQ(s.q, PublishOp(s.actors[i].m))), i,
                         Acking(s.actors[i].e, true, s.actors[i].cont))
    ensures Step(cfg, s, Publish(i), s')
  {
  }

  lemma DeadLetterStep(cfg: Config, i: ActorId, s: State, s': State)
    requires i < |s.actors| && s.actors[i].DeadLettering? && s.actors[i].e < |s.q.entries|
    requires var m := s.q.entries[s.actors[i].e];
             s' == Place(s.(q := ApplyQ(s.q, DeadLetterOp(DeadLetter(m.job, m.attempt, m.attempt)))), i,
                         Acking(s.actors[i].e, false, s.actors[i].cont))
    ensures Step(cfg, s, MoveToDeadLetter(i), s')
  {
  }

  lemma AckStep(cfg: Config, i: ActorId, s: State, s': State)
    requires i < |s.actors| && s.actors[i].Acking?
    requires s' == Place(s.(q := ApplyQ(s.q, AckOp(s.actors[i].e))), i, Resume(s.actors[i].cont))
    ensures Step(cfg, s, Ack(i), s')
  {
  }

  lemma PlanStep(cfg: Config, s: State, i: ActorId, e: EntryId, rest: seq<EntryId>, s0: State, s1: State)
    requires i < |s.actors| && e < |s.q.entries| && s0 == Place(s, i, Recovering([e] + rest))
    requires var eff := PlanEffect(s, i, e, rest);
             Legal(s.db, eff.tx) && s1 == Place(s.(db := Apply(s.db, eff.tx)), i, eff.pc)
    ensures Step(cfg, s0, Plan(i), s1)
  {
    assert ([e] + rest)[1..] == rest;
  }

  lemma {:induction false} HandleLeasesLead(cfg: Config, i: ActorId, s: State, todo: seq<EntryId>,
                                            from: State, before: seq<Action>) returns (acts: seq<Action>)
    requires i < |s.actors| && forall k :: 0 <= k < |todo| ==> todo[k] < |s.q.entries|
    requires Leads(cfg, from, before, Place(s, i, Recovering(todo))) && NoneExternal(before)
    ensures Leads(cfg, from, acts, Place(HandleLeases(i, s, todo), i, Recovering([]))) && NoneExternal(acts)
    decreases |todo|
  {
    acts := before;
    if todo != [] {
      assert todo == [todo[0]] + todo[1..];
      acts := HandleLeaseLeads(cfg, i, s, todo[0], todo[1..], from, before);
      acts := HandleLeasesLead(cfg, i, HandleLease(i, s, todo[0]), todo[1..], from, acts);
    }
  }

  // ----- one pass -----

  /** recover_stale_leases without concurrent steps. */
  ghost function Pass(i: ActorId, s: State, now: int, staleAfter: int, count: nat): State
    requires QueueInv(s.q)
  {
    HandleLeases(i, s, StaleFrom(s.q, 0, now, staleAfter, count))
  }

  lemma PassLeads(cfg: Config, i: ActorId, s: State, now: int, staleAfter: int, count: nat) returns (acts: seq<Action>)
    requires QueueInv(s.q) && i < |s.actors| && s.actors[i] == Idle
    ensures Leads(cfg, s, acts, Pass(i, s, now, staleAfter, count)) && NoneExternal(acts)
  {
    var stale := StaleFrom(s.q, 0, now, staleAfter, count);
    LeadsNowhere(cfg, s);
    LeadsSnoc(cfg, s, [], s, FindStale(i, now, staleAfter, count), Place(s, i, Recovering(stale)));
    acts := HandleLeasesLead(cfg, i, s, stale, s, [FindStale(i, now, staleAfter, count)]);
    var s' := Pass(i, s, now, staleAfter, count);
    assert s' == Place(Place(s', i, Recovering([])), i, Idle);
    LeadsSnoc(cfg, s, acts, Place(s', i, Recovering([])), EndPass(i), s');
    acts := acts + [EndPass(i)];
  }

  // ----- accounting -----

  datatype Tally = Tally(requeued: nat, dlq: nat, terminal: nat, missing: nat)

  ghost function MissingAmong(s: State, todo: seq<EntryId>): nat
    requires forall k :: 0 <= k < |todo| ==> todo[k] < |s.q.entries|
  {
    if todo == [] then 0
    else MissingAmong(s, todo[..|todo| - 1]) + if s.q.entries[todo[|todo| - 1]].job !in s.db.jobs then 1 else 0
  }

  /** Every handled lease is in exactly one counter; the stream grew by the requeued ones,
      the dead-letter stream by the dead-lettered ones. */
  ghost predicate Accounts(s: State, todo: seq<EntryId>, s': State, t: Tally)
    requires forall k :: 0 <= k < |todo| ==> todo[k] < |s.q.entries|
  {
    && |todo| == t.requeued + t.dlq + t.terminal + t.missing
    && |s'.q.entries| == |s.q.entries| + t.requeued
    && |s'.q.dlq| == |s.q.dlq| + t.dlq
    && t.missing == MissingAmong(s, todo)
  }

  /** Nothing in the tables about job j changed. */
  ghost predicate Untouched(s: State, s': State, j: JobId) {
    && SameFor(s.db, s'.db, j)
    && (j in s.db.jobs && j in s'.db.jobs ==> s'.db.jobs[j] == s.db.jobs[j])
    && (j in s.db.finals && j in s'.db.finals ==> s'.db.finals[j] == s.db.finals[j])
  }

  ghost predicate Detected(s: State, todo: seq<EntryId>, j: JobId) {
    exists e :: e in todo && e < |s.q.entries| && s.q.entries[e].job == j
  }

  /** The new entry x carries the next attempt of one of the handled leases. */
  ghost predicate RequeuedFrom(s: State, todo: seq<EntryId>, m: Message) {
    && m.origin.FromRecovery? && m.origin.parent in todo && m.origin.parent < |s.q.entries|
    && m.job == s.q.entries[m.origin.parent].job && m.attempt == s.q.entries[m.origin.parent].attempt + 1
  }

  ghost predicate PassEffects(s: State, todo: seq<EntryId>, s': State) {
    && s.q.entries <= s'.q.entries && s.q.dlq <= s'.q.dlq && s'.q.cursor == s.q.cursor
    && s'.db.jobs.Keys == s.db.jobs.Keys
    && (forall e :: e in s'.q.pending <==> e in s.q.pending && e !in todo)
    && (forall e :: e in s'.q.pending ==> s'.q.pending[e] == s.q.pending[e])
    && (forall x :: |s.q.entries| <= x < |s'.q.entries| ==> RequeuedFrom(s, todo, s'.q.entries[x]))
    && (forall j: JobId :: !Detected(s, todo, j) ==> Untouched(s, s', j))
  }

  lemma LeaseEffects(i: ActorId, s: State, e: EntryId)
    requires e < |s.q.entries|
    ensures PassEffects(s, [e], HandleLease(i, s, e))
  {
    var eff := PlanEffect(s, i, e, []);
    OtherTrails(s.db, eff.tx, HandleLease(i, s, e).db);
    forall j: JobId | !Detected(s, [e], j)
      ensures Untouched(s, HandleLease(i, s, e), j)
    {
      assert e in [e];
      assert SameFor(s.db, HandleLease(i, s, e).db, j);
    }
  }

  lemma EffectsCompose(s: State, a: seq<EntryId>, mid: State, b: seq<EntryId>, s': State)
    requires PassEffects(s, a, mid) && PassEffects(mid, b, s')
    requires forall e :: e in b ==> e < |s.q.entries|
    ensures PassEffects(s, a + b, s')
  {
    forall x | |s.q.entries| <= x < |s'.q.entries|
      ensures RequeuedFrom(s, a + b, s'.q.entries[x])
    {
      if x < |mid.q.entries| {
        assert s'.q.entries[x] == mid.q.entries[x];
        assert RequeuedFrom(s, a, mid.q.entries[x]);
      } else {
        assert RequeuedFrom(mid, b, s'.q.entries[x]);
      }
    }
    forall j: JobId | !Detected(s, a + b, j)
      ensures Untouched(s, s', j)
    {
      StillUndetected(s, a, mid, b, j);
      assert Untouched(s, mid, j) && Untouched(mid, s', j);
    }
  }

  lemma StillUndetected(s: State, a: seq<EntryId>, mid: State, b: seq<EntryId>, j: JobId)
    requires !Detected(s, a + b, j) && s.q.entries <= mid.q.entries && forall e :: e in b ==> e < |s.q.entries|
    ensures !Detected(s, a, j) && !Detected(mid, b, j)
  {
    forall e | e in a && e < |s.q.entries|
      ensures s.q.entries[e].job != j
    {
      assert e in a + b;
    }
    forall e | e in b && e < |mid.q.entries|
      ensures mid.q.entries[e].job != j
    {
      assert e in a + b;
    }
  }

  lemma {:induction false} PassEffectsHold(i: ActorId, s: State, todo: seq<EntryId>)
    requires forall k :: 0 <= k < |todo| ==> todo[k] < |s.q.entries|
    ensures PassEffects(s, todo, HandleLeases(i, s, todo))
    decreases |todo|
  {
    if todo != [] {
      var mid := HandleLease(i, s, todo[0]);
      LeaseEffects(i, s, todo[0]);
      PassEffectsHold(i, mid, todo[1..]);
      EffectsCompose(s, [todo[0]], mid, todo[1..], HandleLeases(i, mid, todo[1..]));
      assert todo == [todo[0]] + todo[1..];
    }
  }

  // ----- recovery after a crash -----

  /** One pass after the other, at the given times. */
  ghost function Passes(i: ActorId, s: State, times: seq<int>, count: nat): State
    requires QueueInv(s.q)
    decreases |times|
  {
    if times == [] then s else Passes(i, Pass(i, s, times[0], 0, count), times[1..], count)
  }

  ghost predicate LeasedBefore(q: Queue, now: int) {
    forall e :: e in q.pending ==> q.pending[e].since <= now
  }

  /** Taking out an increasing list of members takes out as many members as it is long. */
  lemma {:induction false} RemoveIncreasing(before: set<EntryId>, ids: seq<EntryId>, after: set<EntryId>)
    requires forall k, l :: 0 <= k < l < |ids| ==> ids[k] < ids[l]
    requires forall k :: 0 <= k < |ids| ==> ids[k] in before
    requires forall e :: e in after <==> e in before && e !in ids
    ensures |after| == |before| - |ids|
  {
    if ids == [] {
      assert after == before;
    } else {
      var n := |ids| - 1;
      RemoveIncreasing(before, ids[..n], after + {ids[n]});
    }
  }

  /** With threshold 0 a pass takes as many leases as its count allows. */
  lemma PassShrinks(i: ActorId, s: State, now: int, count: nat)
    requires QueueInv(s.q) && LeasedBefore(s.q, now)
    ensures var p := Pass(i, s, now, 0, count).q.pending;
            && |p| == (if |s.q.pending| < count then 0 else |s.q.pending| - count)
            && forall e :: e in p ==> e in s.q.pending && p[e] == s.q.pending[e]
  {
    var ids := StaleFrom(s.q, 0, now, 0, count);
    PassEffectsHold(i, s, ids);
    Shrinks(s.q, now, count, ids, Pass(i, s, now, 0, count).q.pending);
  }

  lemma Shrinks(q: Queue, now: int, count: nat, ids: seq<EntryId>, p: map<EntryId, Lease>)
    requires QueueInv(q) && LeasedBefore(q, now) && ids == StaleFrom(q, 0, now, 0, count)
    requires forall e :: e in p <==> e in q.pending && e !in ids
    ensures |p| == if |q.pending| < count then 0 else |q.pending| - count
  {
    StaleFromIsScan(q, 0, now, 0, count);
    RemoveIncreasing(q.pending.Keys, ids, p.Keys);
    assert |p| == |p.Keys| && |q.pending| == |q.pending.Keys|;
    if |ids| < count {
      forall e | e in q.pending
        ensures e in ids
      {
        assert Stale(q, e, now, 0);
      }
      assert p.Keys == {};
    }
  }

  lemma {:induction false} PassesClear(cfg: Config, i: ActorId, s: State, times: seq<int>, count: nat)
    returns (acts: seq<Action>)
    requires QueueInv(s.q) && Stopped(s) && i < |s.actors|
    requires |times| * count >= |s.q.pending| && forall t :: t in times ==> LeasedBefore(s.q, t)
    ensures var s' := Passes(i, s, times, count);
            Leads(cfg, s, acts, s') && Stopped(s') && s'.q.pending == map[] && |s'.actors| == |s.actors|
    ensures NoneExternal(acts)
    decreases |times|
  {
    if times == [] {
      acts := [];
      LeadsNowhere(cfg, s);
    } else {
      var mid := Pass(i, s, times[0], 0, count);
      var first := PassLeads(cfg, i, s, times[0], 0, count);
      PassShrinks(i, s, times[0], count);
      assert |times| * count == count + (|times| - 1) * count;
      assert times[0] in times && forall t :: t in times[1..] ==> t in times;
      var rest := PassesClear(cfg, i, mid, times[1..], count);
      acts := LeadsCompose(cfg, s, first, mid, rest, Passes(i, mid, times[1..], count));
    }
  }

  lemma LeadsCompose(cfg: Config, s: State, a: seq<Action>, mid: State, b: seq<Action>, s': State)
    returns (acts: seq<Action>)
    requires Leads(cfg, s, a, mid) && Leads(cfg, mid, b, s')
    ensures Leads(cfg, s, acts, s') && acts == a + b
  {
    var ss :| Steps(cfg, ss, a) && ss[0] == s && ss[|a|] == mid;
    var tt :| Steps(cfg, tt, b) && tt[0] == mid && tt[|b|] == s';
    acts := a + b;
    var uu := StepsCompose(cfg, ss, a, tt, b);
  }

  lemma {:induction false} WorkersHoldPending(cfg: Config, ss: seq<State>, acts: seq<Action>, n: nat)
    requires WorkerRun(cfg, ss, acts) && ss[0].q.pending == map[] && n <= |acts|
    ensures PendingHeld(ss[n])
  {
    if n > 0 {
      WorkersHoldPending(cfg, ss, acts, n - 1);
      EveryInterleavingTerminates(cfg, ss, acts, n - 1);
      WorkersHoldPendingStep(cfg, ss[n - 1], acts[n - 1], ss[n]);
    }
  }

  lemma WorkersHoldPendingStep(cfg: Config, s: State, a: Action, s': State)
    requires QueueInv(s.q) && PendingHeld(s) && Step(cfg, s, a, s') && WorkerStep(a)
    ensures PendingHeld(s')
  {
    EffectSummary(cfg, s, a);
    PendingHeldStep(cfg, s, a, s', EffectOf(cfg, s, a));
  }

  /** After any run that ends with all actors stopped, enough recovery passes with threshold
      0 empty the pending list; every worker-only continuation from there is bounded, and
      one that cannot be continued has drained the stream with every published job finalized. */
  lemma CrashRecoveryIsComplete(cfg: Config, ss: seq<State>, acts: seq<Action>, i: ActorId, times: seq<int>, count: nat,
                                tt: seq<State>, more: seq<Action>)
    returns (passes: seq<Action>)
    requires Run(cfg, ss, acts)
    requires var s := ss[|acts|]; Stopped(s) && i < |s.actors|
    requires var q := ss[|acts|].q; |times| * count >= |q.pending| && forall t :: t in times ==> LeasedBefore(q, t)
    requires QueueInv(ss[|acts|].q) && Steps(cfg, tt, more) && tt[0] == Passes(i, ss[|acts|], times, count)
    requires forall k :: 0 <= k < |more| ==> WorkerStep(more[k])
    ensures Leads(cfg, ss[|acts|], passes, tt[0]) && tt[0].q.pending == map[]
    ensures |more| <= Measure(tt[0])
    ensures (forall a: Action :: WorkerStep(a) ==> !Enabled(cfg, tt[|more|], a)) ==>
              Drained(tt[|more|]) && PublishedJobsFinalized(tt[|more|])
  {
    var s := ss[|acts|];
    passes := PassesClear(cfg, i, s, times, count);
    RunKeepsInv(cfg, ss, acts);
    LeadsKeepInv(cfg, s, passes, tt[0]);
    EveryInterleavingTerminates(cfg, tt, more, |more|);
    StepsKeepInv(cfg, tt, more, |more|);
    WorkersHoldPending(cfg, tt, more, |more|);
    StepsKeepActors(cfg, tt, more, |more|);
    if forall a: Action :: WorkerStep(a) ==> !Enabled(cfg, tt[|more|], a) {
      if Stopped(tt[|more|]) {
        NothingPending(tt[|more|]);
      }
      StuckMeansDone(cfg, tt[|more|]);
    }
  }

  lemma LeadsKeepInv(cfg: Config, s: State, acts: seq<Action>, s': State)
    requires Inv(s) && Leads(cfg, s, acts, s')
    ensures Inv(s')
  {
    var ss :| Steps(cfg, ss, acts) && ss[0] == s && ss[|acts|] == s';
    StepsKeepInv(cfg, ss, acts, |acts|);
  }

  lemma {:induction false} StepsKeepActors(cfg: Config, ss: seq<State>, acts: seq<Action>, n: nat)
    requires Steps(cfg, ss, acts) && n <= |acts|
    ensures |ss[n].actors| == |ss[0].actors|
  {
    if n > 0 {
      StepsKeepActors(cfg, ss, acts, n - 1);
      assert Step(cfg, ss[n - 1], acts[n - 1], ss[n]);
    }
  }

  // ----- the pass as a program -----

  datatype RecoveryAction = AckMissing | AckTerminal | Requeue(m: Message) | SendToDeadLetter

  ghost function Tables(db: Database, queue: RedisStreamsQueue, files: map<Path, Bytes>, actors: seq<Pc>): State
    reads db, queue
  {
    State(db.View(), queue.View(), files, actors)
  }

  ghost function ActionFor(pc: Pc, known: bool): RecoveryAction {
    match pc
    case Publishing(_, m, _) => Requeue(m)
    case DeadLettering(_, _) => SendToDeadLetter
    case _ => if known then AckTerminal else AckMissing
  }

  /** One transaction decides what happens to the lease. */
  method PlanRecoveryAction(db: Database, i: ActorId, e: EntryId, m: Message, ghost s: State)
    returns (action: RecoveryAction)
    requires s.db == db.View() && e < |s.q.entries| && m == s.q.entries[e]
    modifies db
    ensures var eff := PlanEffect(s, i, e, []);
            && Legal(s.db, eff.tx) && db.View() == Apply(s.db, eff.tx)
            && action == ActionFor(eff.pc, m.job in s.db.jobs)
  {
    var job := db.LoadJobForUpdate(m.job);
    if job.None? {
      return AckMissing;
    }
    if job.value.status.Terminal() {
      return AckTerminal;
    }
    if m.attempt <= job.value.maxRetries {
      db.RecordStateEvent(m.job, Queued, StaleRecoveredBody(i, m.attempt, m.attempt + 1, e));
      return Requeue(Message(m.job, m.attempt + 1, FromRecovery(e)));
    }
    var _ := db.FinalizeJob(m.job, Failed, FailedBody(i, m.attempt, true));
    return SendToDeadLetter;
  }

  /** The body of the loop over the stale leases. */
  method RecoverLease(db: Database, queue: RedisStreamsQueue, i: ActorId, e: EntryId, t: Tally,
                      ghost files: map<Path, Bytes>, ghost actors: seq<Pc>) returns (t': Tally)
    requires e < |queue.entries|
    modifies db, queue
    ensures Tables(db, queue, files, actors) == old(HandleLease(i, Tables(db, queue, files, actors), e))
    ensures t'.requeued + t'.dlq + t'.terminal + t'.missing == t.requeued + t.dlq + t.terminal + t.missing + 1
    ensures t'.requeued - t.requeued == |queue.entries| - old(|queue.entries|)
    ensures t'.dlq - t.dlq == |queue.dlq| - old(|queue.dlq|)
    ensures t'.missing - t.missing == if old(queue.entries[e].job !in db.jobs) then 1 else 0
    ensures old(queue.entries) <= queue.entries && db.jobs.Keys == old(db.jobs.Keys)
    ensures t'.requeued >= t.requeued && t'.dlq >= t.dlq && t'.terminal >= t.terminal && t'.missing >= t.missing
  {
    var m := queue.entries[e];
    var action := PlanRecoveryAction(db, i, e, m, Tables(db, queue, files, actors));
    match action {
      case Requeue(next) =>
        var _ := queue.PublishJob(next);
        var _ := queue.Acknowledge(e);
        t' := t.(requeued := t.requeued + 1);
      case SendToDeadLetter =>
        queue.MoveToDeadLetter(e, m, m.attempt);
        t' := t.(dlq := t.dlq + 1);
      case AckTerminal =>
        var _ := queue.Acknowledge(e);
        t' := t.(terminal := t.terminal + 1);
      case AckMissing =>
        var _ := queue.Acknowledge(e);
        t' := t.(missing := t.missing + 1);
    }
  }

  /** recover_stale_leases: the tables and the stream become what Pass says, and the four
      counters account for every detected lease. */
  method RecoverStaleLeases(db: Database, queue: RedisStreamsQueue, i: ActorId, now: int, staleAfter: int, count: nat,
                            ghost files: map<Path, Bytes>, ghost actors: seq<Pc>) returns (detected: nat, t: Tally)
    requires QueueInv(queue.View())
    modifies db, queue
    ensures var s := old(Tables(db, queue, files, actors));
            var stale := StaleFrom(s.q, 0, now, staleAfter, count);
            && Tables(db, queue, files, actors) == Pass(i, s, now, staleAfter, count)
            && detected == |stale|
            && Accounts(s, stale, Tables(db, queue, files, actors), t)
  {
    ghost var s := Tables(db, queue, files, actors);
    var stale := queue.FindStaleLeases(now, staleAfter, count);
    t := Tally(0, 0, 0, 0);
    var k := 0;
    ghost var after := HandleLeases(i, s, stale);
    while k < |stale|
      invariant k <= |stale|
      invariant s.q.entries <= queue.entries && db.jobs.Keys == s.db.jobs.Keys
      invariant HandleLeases(i, Tables(db, queue, files, actors), stale[k..]) == after
      invariant Accounts(s, stale[..k], Tables(db, queue, files, actors), t)
    {
      ghost var mid, before := Tables(db, queue, files, actors), t;
      NextLease(i, mid, stale, k);
      t := RecoverLease(db, queue, i, stale[k], t, files, actors);
      OneMore(s, stale, k, mid, before, Tables(db, queue, files, actors), t);
      k := k + 1;
    }
    assert stale[..k] == stale && stale[k..] == [];
    detected := |stale|;
  }

  lemma NextLease(i: ActorId, s: State, todo: seq<EntryId>, k: nat)
    requires k < |todo| && forall x :: 0 <= x < |todo| ==> todo[x] < |s.q.entries|
    ensures HandleLeases(i, s, todo[k..]) == HandleLeases(i, HandleLease(i, s, todo[k]), todo[k + 1..])
  {
    assert todo[k..][1..] == todo[k + 1..];
  }

  lemma OneMore(s: State, todo: seq<EntryId>, k: nat, mid: State, t: Tally, s': State, t': Tally)
    requires k < |todo| && (forall x :: 0 <= x < |todo| ==> todo[x] < |s.q.entries|) && Accounts(s, todo[..k], mid, t)
    requires s.q.entries <= mid.q.entries && mid.db.jobs.Keys == s.db.jobs.Keys
    requires t'.requeued + t'.dlq + t'.terminal + t'.missing == t.requeued + t.dlq + t.terminal + t.missing + 1
    requires t'.requeued - t.requeued == |s'.q.entries| - |mid.q.entries| && t'.dlq - t.dlq == |s'.q.dlq| - |mid.q.dlq|
    requires t'.missing - t.missing == if mid.q.entries[todo[k]].job !in mid.db.jobs then 1 else 0
    ensures Accounts(s, todo[..k + 1], s', t')
  {
    assert todo[..k + 1][..k] == todo[..k];
    assert mid.q.entries[todo[k]] == s.q.entries[todo[k]];
  }
}
