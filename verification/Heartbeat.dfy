/** Heartbeats in a timed model: the clock advances between protocol steps, never past the
    point where a heartbeat is due. With the right threshold no entry that a worker is
    still processing is ever found stale. */
module Heartbeat {
  import opened Domain
  import opened Store
  import opened Streams
  import opened Protocol
  import opened Safety
  import opened Guard
  import opened SingleFlight

  /** startup: from the lease to the heartbeat's creation, or to the end of a message that
      starts no execution; interval: the sleep between renewals, without any if it is not
      positive; slack: how late a renewal may land after its sleep; staleAfter: the threshold
      of find_stale_leases. */
  datatype Params = Params(startup: nat, interval: int, slack: nat, staleAfter: int)

  datatype Beat =
    | Off
    | Starting(leasedAt: int)  // holds a lease, heartbeat not created yet
    | Beating(last: int)       // heartbeat created, or last renewal made, at this time
    | Silent                   // executing without a heartbeat

  datatype Timed = Timed(s: State, clock: int, beat: seq<Beat>)

  datatype TimedAction =
    | Tick(d: nat)
    | Act(a: Action)
    | Beat(i: ActorId)

  /** The latest time that the clock may reach before the worker acts. */
  ghost predicate InTime(p: Params, b: Beat, clock: int) {
    match b
    case Off => true
    case Starting(t) => clock <= t + p.startup
    case Beating(t) => clock <= t + p.interval + p.slack
    case Silent => true
  }

  /** The entry that a worker is processing: from the lease to the acknowledgement. */
  function Processing(pc: Pc): Option<EntryId> {
    match pc
    case Leased(e) => Some(e)
    case Executing(e, _) => Some(e)
    case Wrote(e, _, _) => Some(e)
    case Publishing(e, _, cont) => if cont.ToIdle? then Some(e) else None
    case DeadLettering(e, cont) => if cont.ToIdle? then Some(e) else None
    case Acking(e, _, cont) => if cont.ToIdle? then Some(e) else None
    case _ => None
  }

  /** Steps that read the clock read this one, and scans use the threshold. */
  predicate OnTheClock(p: Params, a: Action, clock: int) {
    match a
    case Renew(_, _, now) => now == clock
    case LeaseNext(_, now) => now == clock
    case FindStale(_, now, after, _) => now == clock && after == p.staleAfter
    case _ => true
  }

  /** The heartbeat is created after the running commit, if the interval is positive, and
      stopped after the acknowledgement. */
  function NextBeat(p: Params, b: Beat, a: Action, pc': Pc, clock: int): Beat {
    if Processing(pc').None? then Off
    else if a.LeaseNext? then Starting(clock)
    else if a.Start? && pc'.Executing? then if p.interval > 0 then Beating(clock) else Silent
    else b
  }

  ghost predicate TimedStep(p: Params, cfg: Config, t: Timed, a: TimedAction, t': Timed) {
    match a
    case Tick(d) =>
      t' == t.(clock := t.clock + d) && forall i :: 0 <= i < |t.beat| ==> InTime(p, t.beat[i], t.clock + d)
    case Act(x) =>
      && OnTheClock(p, x, t.clock) && Step(cfg, t.s, x, t'.s) && t'.clock == t.clock
      && |t.beat| == |t.s.actors|
      && t'.beat == if External(x) then t.beat
         else t.beat[x.i := NextBeat(p, t.beat[x.i], x, t'.s.actors[x.i], t.clock)]
    case Beat(i) =>
      && i < |t.beat| == |t.s.actors| && t.beat[i].Beating? && t.clock >= t.beat[i].last + p.interval
      && Processing(t.s.actors[i]).Some?
      && Step(cfg, t.s, Renew(i, Processing(t.s.actors[i]).value, t.clock), t'.s)
      && t'.clock == t.clock && t'.beat == t.beat[i := Beating(t.clock)]
  }

  ghost predicate TimedInit(t: Timed) {
    Init(t.s) && |t.beat| == |t.s.actors| && forall i :: 0 <= i < |t.beat| ==> t.beat[i] == Off
  }

  ghost predicate TimedRun(p: Params, cfg: Config, ts: seq<Timed>, acts: seq<TimedAction>) {
    && |ts| == |acts| + 1 && TimedInit(ts[0])
    && forall k :: 0 <= k < |acts| ==> TimedStep(p, cfg, ts[k], acts[k], ts[k + 1])
  }

  // ----- the invariant -----

  /** The lease of an entry under processing is recent, seen from the worker's heartbeat. */
  ghost predicate Recent(p: Params, b: Beat, since: int) {
    match b
    case Off => false
    case Starting(t) => since >= t
    case Beating(t) => since + p.startup >= t
    case Silent => false
  }

  ghost predicate WorkerFresh(p: Params, t: Timed, i: ActorId)
    requires i < |t.beat| == |t.s.actors|
  {
    Processing(t.s.actors[i]).Some? ==>
      var e := Processing(t.s.actors[i]).value;
      && e in t.s.q.pending && Recent(p, t.beat[i], t.s.q.pending[e].since)
      && (t.s.actors[i].Leased? ==> t.beat[i].Starting?)
      && (forall k :: 0 <= k < |t.s.actors| && k != i ==> !Holds(t.s.actors[k], e))
  }

  ghost predicate TimedInv(p: Params, t: Timed) {
    && |t.beat| == |t.s.actors|
    && (forall i :: 0 <= i < |t.beat| ==> InTime(p, t.beat[i], t.clock) && WorkerFresh(p, t, i))
    && (forall e :: e in t.s.q.pending ==> t.s.q.pending[e].since <= t.clock)
  }

  /** An entry under processing was leased or renewed at most startup + interval + slack ago. */
  lemma ProcessingIsRecent(p: Params, t: Timed, i: ActorId)
    requires p.interval > 0 && TimedInv(p, t) && i < |t.s.actors| && Processing(t.s.actors[i]).Some?
    ensures var e := Processing(t.s.actors[i]).value;
            e in t.s.q.pending && t.clock - t.s.q.pending[e].since <= p.startup + p.interval + p.slack
  {
    assert WorkerFresh(p, t, i) && InTime(p, t.beat[i], t.clock);
  }

  lemma ProcessingIsHeld(pc: Pc)
    requires Processing(pc).Some?
    ensures Holds(pc, Processing(pc).value)
  {
  }

  /** There is a heartbeat, and a lease stays younger than the threshold. */
  predicate Bounded(p: Params) {
    p.interval > 0 && p.startup + p.interval + p.slack < p.staleAfter
  }

  /** A pending entry's lease is only ever made younger, except by its acknowledgement. */
  lemma LeaseKept(q: Queue, op: QueueOp, e: EntryId, clock: int)
    requires QueueInv(q) && e in q.pending && op != AckOp(e) && q.pending[e].since <= clock
    requires (op.RenewOp? || op.LeaseOp?) ==> op.now == clock
    ensures e in ApplyQ(q, op).pending && ApplyQ(q, op).pending[e].since >= q.pending[e].since
  {
  }

  /** The clock that a stream command carries. */
  lemma CommandOnTheClock(p: Params, cfg: Config, s: State, a: Action, clock: int)
    requires Ready(s, a) && OnTheClock(p, a, clock)
    ensures var op := EffectOf(cfg, s, a).op; (op.RenewOp? || op.LeaseOp?) ==> op.now == clock
  {
  }

  lemma SinceStays(q: Queue, op: QueueOp, clock: int)
    requires (op.RenewOp? || op.LeaseOp?) ==> op.now == clock
    requires forall e :: e in q.pending ==> q.pending[e].since <= clock
    ensures forall e :: e in ApplyQ(q, op).pending ==> ApplyQ(q, op).pending[e].since <= clock
  {
  }

  /** What a step may newly hold is not under processing by another worker. */
  lemma NotTaken(p: Params, cfg: Config, t: Timed, a: Action, eff: Effect, i: ActorId)
    requires Bounded(p) && TimedInv(p, t) && QueueInv(t.s.q) && i < |t.s.actors| && Processing(t.s.actors[i]).Some?
    requires Ready(t.s, a) && OnTheClock(p, a, t.clock) && !External(a) && a.i != i && eff == EffectOf(cfg, t.s, a)
    ensures !Holds(eff.pc, Processing(t.s.actors[i]).value) && eff.op != AckOp(Processing(t.s.actors[i]).value)
  {
    var e := Processing(t.s.actors[i]).value;
    assert WorkerFresh(p, t, i);
    ProcessingIsRecent(p, t, i);
    HoldSource(cfg, t.s, a, eff);
    assert !Holds(t.s.actors[a.i], e) && e < t.s.q.cursor;
    if a.FindStale? {
      RecentIsNotFound(t.s.q, e, a.now, a.staleAfter, a.count);
    }
  }

  lemma RecentIsNotFound(q: Queue, e: EntryId, now: int, staleAfter: int, count: nat)
    requires e in q.pending && now - q.pending[e].since < staleAfter
    ensures e !in StaleFrom(q, 0, now, staleAfter, count)
  {
  }

  /** A worker that does not act stays fresh. */
  lemma OthersStayFresh(p: Params, cfg: Config, t: Timed, a: Action, t': Timed, i: ActorId)
    requires Bounded(p) && TimedInv(p, t) && QueueInv(t.s.q) && TimedStep(p, cfg, t, Act(a), t')
    requires i < |t.s.actors| && (External(a) || a.i != i)
    ensures |t'.beat| == |t'.s.actors| == |t.s.actors| && WorkerFresh(p, t', i)
  {
    var eff := EffectOf(cfg, t.s, a);
    EffectSummary(cfg, t.s, a);
    assert t'.s.actors == if External(a) then t.s.actors else t.s.actors[a.i := eff.pc];
    if Processing(t.s.actors[i]).Some? {
      var e := Processing(t.s.actors[i]).value;
      assert WorkerFresh(p, t, i);
      CommandOnTheClock(p, cfg, t.s, a, t.clock);
      if External(a) {
        ExternalsNeverAck(cfg, t.s, a);
      } else {
        NotTaken(p, cfg, t, a, eff, i);
      }
      LeaseKept(t.s.q, eff.op, e, t.clock);
    }
  }

  lemma ExternalsNeverAck(cfg: Config, s: State, a: Action)
    requires Ready(s, a) && External(a)
    ensures !EffectOf(cfg, s, a).op.AckOp?
  {
  }

  ghost predicate Shaped(s: State) {
    QueueInv(s.q) && forall k :: 0 <= k < |s.actors| ==> PcShape(s, s.actors[k])
  }

  lemma ShapedHoldsOld(s: State, k: ActorId)
    requires Shaped(s) && k < |s.actors|
    ensures !Holds(s.actors[k], s.q.cursor)
  {
    assert PcShape(s, s.actors[k]);
  }

  /** What the acting worker processes after its step. */
  lemma OwnEntry(cfg: Config, s: State, a: Action, eff: Effect)
    requires Ready(s, a) && !External(a) && eff == EffectOf(cfg, s, a) && Processing(eff.pc).Some?
    ensures var e := Processing(eff.pc).value;
            || (a.LeaseNext? && e == s.q.cursor && s.q.cursor < |s.q.entries| && eff.op == LeaseOp(a.i, a.now))
            || (!a.LeaseNext? && Processing(s.actors[a.i]) == Some(e)
                && (eff.op.NoOp? || eff.op.PublishOp? || eff.op.DeadLetterOp?))
    ensures eff.pc.Leased? ==> a.LeaseNext?
    ensures a.Start? ==> s.actors[a.i].Leased?
  {
  }

  lemma OwnStaysFresh(p: Params, cfg: Config, t: Timed, a: Action, t': Timed)
    requires Bounded(p) && TimedInv(p, t) && Shaped(t.s) && TimedStep(p, cfg, t, Act(a), t') && !External(a)
    ensures |t'.beat| == |t'.s.actors| == |t.s.actors| && a.i < |t'.beat|
    ensures WorkerFresh(p, t', a.i) && InTime(p, t'.beat[a.i], t'.clock)
  {
    var eff := EffectOf(cfg, t.s, a);
    EffectSummary(cfg, t.s, a);
    assert t'.s.actors == t.s.actors[a.i := eff.pc];
    assert WorkerFresh(p, t, a.i) && InTime(p, t.beat[a.i], t.clock);
    if Processing(eff.pc).Some? {
      OwnEntry(cfg, t.s, a, eff);
      var e := Processing(eff.pc).value;
      forall k | 0 <= k < |t'.s.actors| && k != a.i
        ensures !Holds(t'.s.actors[k], e)
      {
        assert t'.s.actors[k] == t.s.actors[k];
        if a.LeaseNext? {
          ShapedHoldsOld(t.s, k);
        }
      }
    }
  }

  lemma ActKeepsInv(p: Params, cfg: Config, t: Timed, a: Action, t': Timed)
    requires Bounded(p) && TimedInv(p, t) && Shaped(t.s) && TimedStep(p, cfg, t, Act(a), t')
    ensures TimedInv(p, t')
  {
    EffectSummary(cfg, t.s, a);
    CommandOnTheClock(p, cfg, t.s, a, t.clock);
    SinceStays(t.s.q, EffectOf(cfg, t.s, a).op, t.clock);
    if !External(a) {
      OwnStaysFresh(p, cfg, t, a, t');
    }
    forall i | 0 <= i < |t'.beat|
      ensures InTime(p, t'.beat[i], t'.clock) && WorkerFresh(p, t', i)
    {
      if External(a) || a.i != i {
        OthersStayFresh(p, cfg, t, a, t', i);
        assert t'.beat[i] == t.beat[i];
      }
    }
  }

  lemma BeatKeepsInv(p: Params, cfg: Config, t: Timed, i: ActorId, t': Timed)
    requires Bounded(p) && TimedInv(p, t) && Shaped(t.s) && TimedStep(p, cfg, t, Beat(i), t')
    ensures TimedInv(p, t')
  {
    var e := Processing(t.s.actors[i]).value;
    EffectSummary(cfg, t.s, Renew(i, e, t.clock));
    assert t'.s.q == ApplyQ(t.s.q, RenewOp(e, i, t.clock)) && t'.s.actors == t.s.actors;
    forall k | 0 <= k < |t'.beat|
      ensures InTime(p, t'.beat[k], t'.clock) && WorkerFresh(p, t', k)
    {
      assert WorkerFresh(p, t, k) && InTime(p, t.beat[k], t.clock);
      ProcessingIsHeld(t.s.actors[i]);
    }
  }

  lemma TickKeepsInv(p: Params, cfg: Config, t: Timed, d: nat, t': Timed)
    requires TimedInv(p, t) && TimedStep(p, cfg, t, Tick(d), t')
    ensures TimedInv(p, t')
  {
    forall k | 0 <= k < |t'.beat|
      ensures WorkerFresh(p, t', k)
    {
      assert WorkerFresh(p, t, k);
    }
  }

  lemma TimedInvStep(p: Params, cfg: Config, t: Timed, a: TimedAction, t': Timed)
    requires Bounded(p) && TimedInv(p, t) && Shaped(t.s) && TimedStep(p, cfg, t, a, t')
    ensures TimedInv(p, t')
  {
    match a {
      case Tick(d) => TickKeepsInv(p, cfg, t, d, t');
      case Act(x) => ActKeepsInv(p, cfg, t, x, t');
      case Beat(i) => BeatKeepsInv(p, cfg, t, i, t');
    }
  }

  lemma TimedStepKeepsInv(p: Params, cfg: Config, t: Timed, a: TimedAction, t': Timed)
    requires Inv(t.s) && TimedStep(p, cfg, t, a, t')
    ensures Inv(t'.s)
  {
    match a {
      case Tick(_) =>
      case Act(x) => InvStep(cfg, t.s, x);
      case Beat(i) => InvStep(cfg, t.s, Renew(i, Processing(t.s.actors[i]).value, t.clock));
    }
  }

  lemma {:induction false} TimedUntil(p: Params, cfg: Config, ts: seq<Timed>, acts: seq<TimedAction>, n: nat)
    requires Bounded(p) && TimedRun(p, cfg, ts, acts) && n <= |acts|
    ensures Inv(ts[n].s) && TimedInv(p, ts[n])
  {
    if n == 0 {
      InitInv(ts[0].s);
    } else {
      TimedUntil(p, cfg, ts, acts, n - 1);
      assert TimedStep(p, cfg, ts[n - 1], acts[n - 1], ts[n]);
      TimedStepKeepsInv(p, cfg, ts[n - 1], acts[n - 1], ts[n]);
      TimedInvStep(p, cfg, ts[n - 1], acts[n - 1], ts[n]);
    }
  }

  // ----- the theorem -----

  /** A scan at this moment finds no entry that a worker is processing. */
  ghost predicate NoFalseStaleness(p: Params, t: Timed) {
    forall i, count: nat :: 0 <= i < |t.s.actors| && Processing(t.s.actors[i]).Some? ==>
      Processing(t.s.actors[i]).value !in StaleFrom(t.s.q, 0, t.clock, p.staleAfter, count)
  }

  ghost predicate NeverFalselyStale(p: Params, cfg: Config) {
    forall ts, acts, n :: TimedRun(p, cfg, ts, acts) && 0 <= n < |ts| ==> NoFalseStaleness(p, ts[n])
  }

  /** Below the threshold, no run ever shows an entry under processing to a scan. */
  lemma HeartbeatIsSafe(p: Params, cfg: Config)
    requires Bounded(p)
    ensures NeverFalselyStale(p, cfg)
  {
    forall ts, acts, n | TimedRun(p, cfg, ts, acts) && 0 <= n < |ts|
      ensures NoFalseStaleness(p, ts[n])
    {
      TimedUntil(p, cfg, ts, acts, n);
      RecentMeansUnfound(p, ts[n]);
    }
  }

  lemma RecentMeansUnfound(p: Params, t: Timed)
    requires Bounded(p) && TimedInv(p, t)
    ensures NoFalseStaleness(p, t)
  {
    forall i, count: nat | 0 <= i < |t.s.actors| && Processing(t.s.actors[i]).Some?
      ensures Processing(t.s.actors[i]).value !in StaleFrom(t.s.q, 0, t.clock, p.staleAfter, count)
    {
      ProcessingIsRecent(p, t, i);
      RecentIsNotFound(t.s.q, Processing(t.s.actors[i]).value, t.clock, p.staleAfter, count);
    }
  }

  lemma ExtendTimed(p: Params, cfg: Config, ts: seq<Timed>, acts: seq<TimedAction>, a: TimedAction, t: Timed)
    returns (ts': seq<Timed>, acts': seq<TimedAction>)
    requires TimedRun(p, cfg, ts, acts) && TimedStep(p, cfg, ts[|acts|], a, t)
    ensures TimedRun(p, cfg, ts', acts') && acts' == acts + [a] && ts' == ts + [t]
  {
    ts', acts' := ts + [t], acts + [a];
    forall k | 0 <= k < |acts'|
      ensures TimedStep(p, cfg, ts'[k], acts'[k], ts'[k + 1])
    {
      assert k < |acts| ==> TimedStep(p, cfg, ts[k], acts[k], ts[k + 1]);
    }
  }

  /** A job that was submitted, published and leased, all at time 0, by the first of the actors. */
  ghost function LeasedAtZero(sub: Submission, others: seq<Pc>): State {
    State(
      Db(map[0 := FreshRecord(sub)], [Event(0, SubmittedBody)], map[], []),
      Queue([Message(0, 1, FromSubmitter)], 1, map[0 := Lease(0, 0)], []),
      map[], [Leased(0)] + others)
  }

  ghost function StartedBeside(sub: Submission, others: seq<Pc>): State {
    Started(sub).(actors := [Executing(0, FreshRecord(sub))] + others)
  }

  ghost predicate AllOff(others: seq<Pc>, beats: seq<Beat>) {
    |beats| == |others| && forall i :: 0 <= i < |others| ==> others[i] == Idle && beats[i] == Off
  }

  lemma LeaseAtZero(p: Params, cfg: Config, sub: Submission, others: seq<Pc>, beats: seq<Beat>)
    returns (ts: seq<Timed>, acts: seq<TimedAction>)
    requires AllOff(others, beats)
    ensures TimedRun(p, cfg, ts, acts)
    ensures acts == [Act(Submit(0, sub)), Act(PublishInitial(0)), Act(LeaseNext(0, 0))]
    ensures ts[|acts|] == Timed(LeasedAtZero(sub, others), 0, [Starting(0)] + beats)
  {
    var idle, off := [Idle] + others, [Off] + beats;
    var s0 := State(EMPTY_DB, EMPTY_QUEUE, map[], idle);
    ts, acts := [Timed(s0, 0, off)], [];
    var s1 := s0.(db := Db(map[0 := FreshRecord(sub)], [Event(0, SubmittedBody)], map[], []));
    assert Step(cfg, s0, Submit(0, sub), s1);
    ts, acts := ExtendTimed(p, cfg, ts, acts, Act(Submit(0, sub)), Timed(s1, 0, off));
    var s2 := s1.(q := Queue([Message(0, 1, FromSubmitter)], 0, map[], []));
    assert Step(cfg, s1, PublishInitial(0), s2);
    ts, acts := ExtendTimed(p, cfg, ts, acts, Act(PublishInitial(0)), Timed(s2, 0, off));
    assert off[0 := Starting(0)] == [Starting(0)] + beats;
    LeaseStep(cfg, sub, others, s2);
    ts, acts := ExtendTimed(p, cfg, ts, acts, Act(LeaseNext(0, 0)),
                            Timed(LeasedAtZero(sub, others), 0, [Starting(0)] + beats));
  }

  lemma LeaseStep(cfg: Config, sub: Submission, others: seq<Pc>, s: State)
    requires s == LeasedAtZero(sub, others).(
      actors := [Idle] + others, q := Queue([Message(0, 1, FromSubmitter)], 0, map[], []))
    ensures Step(cfg, s, LeaseNext(0, 0), LeasedAtZero(sub, others))
  {
    assert s.actors[0 := Leased(0)] == [Leased(0)] + others;
  }

  /** How long the worker may execute until its first renewal must land, or without one until
      its lease is stale. */
  function Pause(p: Params): nat {
    if p.interval > 0 then p.interval + p.slack
    else if p.startup < p.staleAfter then p.staleAfter - p.startup
    else 0
  }

  /** At or above the threshold, or without a heartbeat: the worker starts as late as it may,
      and a scan just before the first renewal finds the entry that is being executed. */
  lemma FalseStalenessHappens(p: Params, cfg: Config, sub: Submission, others: seq<Pc>, beats: seq<Beat>)
    returns (ts: seq<Timed>, acts: seq<TimedAction>)
    requires !Bounded(p) && cfg.policyOf(0).ValidateDispatch(FreshRecord(sub)).None? && AllOff(others, beats)
    ensures TimedRun(p, cfg, ts, acts) && !NoFalseStaleness(p, ts[|acts|])
    ensures acts == [Act(Submit(0, sub)), Act(PublishInitial(0)), Act(LeaseNext(0, 0)), Tick(p.startup),
                     Act(Start(0)), Tick(Pause(p))]
    ensures ts[|acts|].s == StartedBeside(sub, others) && |ts[|acts|].beat| == 1 + |others|
    ensures ts[|acts|].clock == p.startup + Pause(p) >= p.staleAfter
  {
    ts, acts := LeaseAtZero(p, cfg, sub, others, beats);
    ts, acts := StartLate(p, cfg, sub, others, beats, ts, acts);
    var first := if p.interval > 0 then Beating(p.startup) else Silent;
    var t := Timed(StartedBeside(sub, others), p.startup + Pause(p), [first] + beats);
    ts, acts := ExtendTimed(p, cfg, ts, acts, Tick(Pause(p)), t);
    ScanFinds(p, t);
  }

  lemma StartLate(p: Params, cfg: Config, sub: Submission, others: seq<Pc>, beats: seq<Beat>,
                  ts: seq<Timed>, acts: seq<TimedAction>) returns (ts': seq<Timed>, acts': seq<TimedAction>)
    requires cfg.policyOf(0).ValidateDispatch(FreshRecord(sub)).None? && AllOff(others, beats)
    requires TimedRun(p, cfg, ts, acts) && ts[|acts|] == Timed(LeasedAtZero(sub, others), 0, [Starting(0)] + beats)
    ensures TimedRun(p, cfg, ts', acts') && acts' == acts + [Tick(p.startup), Act(Start(0))]
    ensures ts'[|acts'|] == Timed(StartedBeside(sub, others), p.startup,
                                  [if p.interval > 0 then Beating(p.startup) else Silent] + beats)
  {
    var first := if p.interval > 0 then Beating(p.startup) else Silent;
    ts', acts' := ExtendTimed(p, cfg, ts, acts, Tick(p.startup),
                              Timed(LeasedAtZero(sub, others), p.startup, [Starting(0)] + beats));
    StartStep(cfg, sub, others);
    assert ([Starting(0)] + beats)[0 := first] == [first] + beats;
    ts', acts' := ExtendTimed(p, cfg, ts', acts', Act(Start(0)),
                              Timed(StartedBeside(sub, others), p.startup, [first] + beats));
  }

  lemma StartStep(cfg: Config, sub: Submission, others: seq<Pc>)
    requires cfg.policyOf(0).ValidateDispatch(FreshRecord(sub)).None?
    ensures Step(cfg, LeasedAtZero(sub, others), Start(0), StartedBeside(sub, others))
  {
    assert ([Leased(0)] + others)[0 := Executing(0, FreshRecord(sub))] == [Executing(0, FreshRecord(sub))] + others;
  }

  lemma ScanFinds(p: Params, t: Timed)
    requires 0 in t.s.q.pending && t.s.q.cursor == 1 && t.clock - t.s.q.pending[0].since >= p.staleAfter
    requires |t.s.actors| > 0 && t.s.actors[0].Executing? && t.s.actors[0].e == 0
    ensures !NoFalseStaleness(p, t)
  {
    assert Stale(t.s.q, 0, t.clock, p.staleAfter);
    assert StaleFrom(t.s.q, 0, t.clock, p.staleAfter, 1)[0] == 0;
    assert 0 in StaleFrom(t.s.q, 0, t.clock, p.staleAfter, 1);
    assert Processing(t.s.actors[0]) == Some(0);
  }

  /** The threshold is exact. */
  lemma HeartbeatSafeIff(p: Params, cfg: Config, sub: Submission)
    requires cfg.policyOf(0).ValidateDispatch(FreshRecord(sub)).None?
    ensures NeverFalselyStale(p, cfg) <==> p.interval > 0 && p.startup + p.interval + p.slack < p.staleAfter
  {
    if Bounded(p) {
      HeartbeatIsSafe(p, cfg);
    } else {
      var ts, acts := FalseStalenessHappens(p, cfg, sub, [], []);
      assert TimedRun(p, cfg, ts, acts) && !NoFalseStaleness(p, ts[|acts|]);
    }
  }
}
