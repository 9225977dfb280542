/** The operator's question about the stale threshold: with one recovery pass at a time and
    careful submitters, exactly when is the status column trustworthy? */
module StaleThreshold {
  import opened Domain
  import opened Store
  import opened Streams
  import opened Protocol
  import opened Guard
  import opened SingleFlight
  import opened FanOut
  import opened Heartbeat

  // ----- discipline -----

  /** A pass starts while no other is under way, each job is published once, nobody crashes
      between a publish and the acknowledgement after it, and nobody cancels a job that is
      executing. Nothing is said about what a pass finds. */
  ghost predicate Disciplined(s: State, a: Action) {
    if a.FindStale? then forall i :: 0 <= i < |s.actors| ==> !InPass(s.actors[i])
    else SingleFlightStep(s, a)
  }

  ghost predicate DisciplinedRun(p: Params, cfg: Config, ts: seq<Timed>, acts: seq<TimedAction>) {
    TimedRun(p, cfg, ts, acts) && forall k :: 0 <= k < |acts| && acts[k].Act? ==> Disciplined(ts[k].s, acts[k].a)
  }

  /** Outside of a pass an actor holds what it is processing. */
  lemma HeldIsProcessed(pc: Pc, e: EntryId)
    requires Holds(pc, e) && !InPass(pc)
    ensures Processing(pc) == Some(e)
  {
  }

  /** Below the bound a pass finds nothing that somebody still holds. */
  lemma PassFindsAbandoned(p: Params, cfg: Config, t: Timed, a: Action)
    requires Bounded(p) && TimedInv(p, t) && Ready(t.s, a) && OnTheClock(p, a, t.clock) && Disciplined(t.s, a)
    ensures SingleFlightStep(t.s, a)
  {
    if a.FindStale? {
      forall i, e | 0 <= i < |t.s.actors| && e in StaleFrom(t.s.q, 0, a.now, a.staleAfter, a.count)
        ensures !Holds(t.s.actors[i], e)
      {
        if Holds(t.s.actors[i], e) {
          HeldIsProcessed(t.s.actors[i], e);
          ProcessingIsRecent(p, t, i);
          RecentIsNotFound(t.s.q, e, a.now, a.staleAfter, a.count);
        }
      }
    }
  }

  // ----- disciplined timed runs are single-flight runs -----

  /** The protocol step of a timed step, if it has one. */
  ghost function ProtocolStep(t: Timed, a: TimedAction): Option<Action> {
    match a
    case Tick(_) => None
    case Act(x) => Some(x)
    case Beat(i) =>
      if i < |t.s.actors| && Processing(t.s.actors[i]).Some? then
        Some(Renew(i, Processing(t.s.actors[i]).value, t.clock))
      else None
  }

  lemma StepIsSingleFlight(p: Params, cfg: Config, t: Timed, a: TimedAction, t': Timed)
    requires Bounded(p) && TimedInv(p, t) && TimedStep(p, cfg, t, a, t') && (a.Act? ==> Disciplined(t.s, a.a))
    ensures var x := ProtocolStep(t, a);
            if x.Some? then Step(cfg, t.s, x.value, t'.s) && SingleFlightStep(t.s, x.value) else t'.s == t.s
  {
    if a.Act? {
      PassFindsAbandoned(p, cfg, t, a.a);
    }
  }

  /** Without its ticks, a disciplined timed run below the bound is a single-flight run
      through the same states. */
  lemma {:induction false} TimedIsSingleFlight(p: Params, cfg: Config, ts: seq<Timed>, acts: seq<TimedAction>, n: nat)
    returns (ss: seq<State>, steps: seq<Action>)
    requires Bounded(p) && DisciplinedRun(p, cfg, ts, acts) && n <= |acts|
    ensures SingleFlightRun(cfg, ss, steps) && ss[|steps|] == ts[n].s
    ensures forall k :: 0 <= k <= n ==> ts[k].s in ss
    decreases n
  {
    if n == 0 {
      ss, steps := [ts[0].s], [];
    } else {
      ss, steps := TimedIsSingleFlight(p, cfg, ts, acts, n - 1);
      TimedUntil(p, cfg, ts, acts, n - 1);
      assert TimedStep(p, cfg, ts[n - 1], acts[n - 1], ts[n]);
      StepIsSingleFlight(p, cfg, ts[n - 1], acts[n - 1], ts[n]);
      var x := ProtocolStep(ts[n - 1], acts[n - 1]);
      if x.Some? {
        ss, steps := ExtendSingleFlight(cfg, ss, steps, x.value);
      }
    }
  }

  /** The status column agrees with the guard table, and the final event of a job is its last. */
  ghost predicate Trusted(s: State) {
    Agree(s.db) && FinalEventLast(s.db)
  }

  ghost predicate AlwaysTrusted(p: Params, cfg: Config) {
    forall ts: seq<Timed>, acts, n :: DisciplinedRun(p, cfg, ts, acts) && 0 <= n < |ts| ==> Trusted(ts[n].s)
  }

  lemma BelowTheBound(p: Params, cfg: Config, ts: seq<Timed>, acts: seq<TimedAction>, n: nat)
    requires Bounded(p) && DisciplinedRun(p, cfg, ts, acts) && n < |ts|
    ensures Trusted(ts[n].s) && OneLivePerJob(ts[n].s) && OpenJobsAreLive(ts[n].s)
    ensures forall a: Action :: !LateRetry(cfg, ts[n].s, a)
  {
    var ss, steps := TimedIsSingleFlight(p, cfg, ts, acts, n);
    SingleFlightIsSafe(cfg, ss, steps);
    SfUntil(cfg, ss, steps, |steps|);
    forall a: Action
      ensures !LateRetry(cfg, ts[n].s, a)
    {
      if Enabled(cfg, ts[n].s, a) {
        NotLate(cfg, ts[n].s, a);
      }
    }
  }

  // ----- at or above the bound -----

  /** Protocol steps at one moment of the clock. */
  lemma {:induction false} ActAtOnce(p: Params, cfg: Config, ts: seq<Timed>, acts: seq<TimedAction>,
                                     tt: seq<State>, more: seq<Action>, n: nat)
    returns (ts': seq<Timed>, acts': seq<TimedAction>)
    requires DisciplinedRun(p, cfg, ts, acts) && Steps(cfg, tt, more) && n <= |more|
    requires var t := ts[|acts|]; t.s == tt[0] && |t.beat| == |t.s.actors|
    requires forall k :: 0 <= k < |more| ==> OnTheClock(p, more[k], ts[|acts|].clock) && Disciplined(tt[k], more[k])
    ensures DisciplinedRun(p, cfg, ts', acts')
    ensures var t := ts'[|acts'|]; t.s == tt[n] && t.clock == ts[|acts|].clock && |t.beat| == |t.s.actors|
    decreases n
  {
    ts', acts' := ts, acts;
    if n > 0 {
      ts', acts' := ActAtOnce(p, cfg, ts, acts, tt, more, n - 1);
      assert Step(cfg, tt[n - 1], more[n - 1], tt[n]);
      ts', acts' := ActNow(p, cfg, ts', acts', more[n - 1], tt[n]);
    }
  }

  lemma ActNow(p: Params, cfg: Config, ts: seq<Timed>, acts: seq<TimedAction>, a: Action, s': State)
    returns (ts': seq<Timed>, acts': seq<TimedAction>)
    requires DisciplinedRun(p, cfg, ts, acts)
    requires var t := ts[|acts|];
             && |t.beat| == |t.s.actors| && OnTheClock(p, a, t.clock) && Disciplined(t.s, a) && Step(cfg, t.s, a, s')
    ensures DisciplinedRun(p, cfg, ts', acts')
    ensures var t := ts'[|acts'|]; t.s == s' && t.clock == ts[|acts|].clock && |t.beat| == |t.s.actors|
  {
    var t := ts[|acts|];
    var beat := if External(a) then t.beat else t.beat[a.i := NextBeat(p, t.beat[a.i], a, s'.actors[a.i], t.clock)];
    ts', acts' := ExtendTimed(p, cfg, ts, acts, Act(a), Timed(s', t.clock, beat));
    forall k | 0 <= k < |acts'| && acts'[k].Act?
      ensures Disciplined(ts'[k].s, acts'[k].a)
    {
      assert k < |acts| ==> ts'[k] == ts[k] && acts'[k] == acts[k];
    }
  }

  /** The slow worker's run is disciplined: it publishes into an empty stream. */
  lemma SlowRunIsDisciplined(p: Params, cfg: Config, sub: Submission, ts: seq<Timed>, acts: seq<TimedAction>)
    requires TimedRun(p, cfg, ts, acts)
    requires acts == [Act(Submit(0, sub)), Act(PublishInitial(0)), Act(LeaseNext(0, 0)), Tick(p.startup),
                      Act(Start(0)), Tick(Pause(p))]
    ensures DisciplinedRun(p, cfg, ts, acts)
  {
    assert TimedStep(p, cfg, ts[0], acts[0], ts[1]);
    assert ts[1].s.q == EMPTY_QUEUE;
  }

  /** A disciplined run in which a job that failed for good is queued again. */
  lemma AtTheBound(p: Params, cfg: Config, sub: Submission) returns (ts: seq<Timed>, acts: seq<TimedAction>)
    requires !Bounded(p) && sub.maxRetries >= 1 && cfg.policyOf(0).ValidateDispatch(FreshRecord(sub)).None?
    requires cfg.policyOf(1).ValidateDispatch(FreshRecord(sub)).None? && cfg.policyOf(0).RetryAllowed(2)
    ensures DisciplinedRun(p, cfg, ts, acts) && FailedButQueued(ts[|acts|].s.db, 0)
  {
    ts, acts := FalseStalenessHappens(p, cfg, sub, [Idle], [Off]);
    SlowRunIsDisciplined(p, cfg, sub, ts, acts);
    var now := ts[|acts|].clock;
    var tt, more := LateRetryFollows(cfg, sub, now, p.staleAfter);
    assert ts[|acts|].s == Slow(sub);
    forall k | 0 <= k < |more|
      ensures OnTheClock(p, more[k], now) && Disciplined(tt[k], more[k])
    {
    }
    ts, acts := ActAtOnce(p, cfg, ts, acts, tt, more, |more|);
  }

  /** The status column agrees with the guard table in every state of every disciplined run if
      and only if the heartbeat is on and startup + interval + slack is below the threshold. */
  lemma StaleThresholdIsExact(p: Params, cfg: Config, sub: Submission)
    requires sub.maxRetries >= 1 && cfg.policyOf(0).ValidateDispatch(FreshRecord(sub)).None?
    requires cfg.policyOf(1).ValidateDispatch(FreshRecord(sub)).None? && cfg.policyOf(0).RetryAllowed(2)
    ensures AlwaysTrusted(p, cfg) <==> p.interval > 0 && p.startup + p.interval + p.slack < p.staleAfter
  {
    if Bounded(p) {
      forall ts: seq<Timed>, acts, n | DisciplinedRun(p, cfg, ts, acts) && 0 <= n < |ts|
        ensures Trusted(ts[n].s)
      {
        BelowTheBound(p, cfg, ts, acts, n);
      }
    } else {
      var ts, acts := AtTheBound(p, cfg, sub);
      assert DisciplinedRun(p, cfg, ts, acts) && !Agree(ts[|acts|].s.db);
      assert !Trusted(ts[|acts|].s);
    }
  }
}
