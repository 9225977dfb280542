/** The other half of the stale threshold: what a crashed actor leaves behind is found in time,
    and below the bound a large enough scan finds nothing else. */
module Detection {
  import opened Domain
  import opened Streams
  import opened Protocol
  import opened Safety
  import opened SingleFlight
  import opened FanOut
  import opened Heartbeat
  import opened StaleThreshold

  /** Delivered, not acknowledged, and nobody has it in hand any more. */
  ghost predicate Abandoned(s: State, e: EntryId) {
    e in s.q.pending && forall i :: 0 <= i < |s.actors| ==> !Holds(s.actors[i], e)
  }

  /** An operator renews the entry's lease. */
  predicate Refreshes(a: TimedAction, e: EntryId) {
    a.Act? && a.a.Renew? && a.a.entry == e
  }

  /** A pass finds the entry. */
  ghost predicate Finds(t: Timed, a: TimedAction, e: EntryId) {
    a.Act? && a.a.FindStale? && e in StaleFrom(t.s.q, 0, a.a.now, a.a.staleAfter, a.a.count)
  }

  /** The entry is left alone from position m to position n. */
  ghost predicate LeftAlone(ts: seq<Timed>, acts: seq<TimedAction>, m: nat, n: nat, e: EntryId)
    requires m <= n <= |acts| && |ts| == |acts| + 1
  {
    forall k :: m <= k < n ==> !Refreshes(acts[k], e) && !Finds(ts[k], acts[k], e)
  }

  // ----- abandoned entries stay as they are -----

  lemma AbandonedByStep(cfg: Config, s: State, a: Action, s': State, e: EntryId)
    requires QueueInv(s.q) && Abandoned(s, e) && Step(cfg, s, a, s') && !(a.Renew? && a.entry == e)
    requires a.FindStale? ==> e !in StaleFrom(s.q, 0, a.now, a.staleAfter, a.count)
    ensures Abandoned(s', e) && s'.q.pending[e] == s.q.pending[e]
  {
    var eff := EffectOf(cfg, s, a);
    EffectSummary(cfg, s, a);
    if !External(a) {
      HoldSource(cfg, s, a, eff);
      assert !Holds(s.actors[a.i], e) && !Holds(eff.pc, e);
      assert s'.actors == s.actors[a.i := eff.pc];
    }
  }

  lemma AbandonedStep(p: Params, cfg: Config, t: Timed, a: TimedAction, t': Timed, e: EntryId)
    requires QueueInv(t.s.q) && Abandoned(t.s, e) && TimedStep(p, cfg, t, a, t')
    requires !Refreshes(a, e) && !Finds(t, a, e)
    ensures Abandoned(t'.s, e) && t'.s.q.pending[e] == t.s.q.pending[e] && t.clock <= t'.clock
  {
    match a {
      case Tick(_) =>
      case Act(x) => AbandonedByStep(cfg, t.s, x, t'.s, e);
      case Beat(i) =>
        ProcessingIsHeld(t.s.actors[i]);
        AbandonedByStep(cfg, t.s, Renew(i, Processing(t.s.actors[i]).value, t.clock), t'.s, e);
    }
  }

  lemma {:induction false} TimedKeepsInv(p: Params, cfg: Config, ts: seq<Timed>, acts: seq<TimedAction>, n: nat)
    requires TimedRun(p, cfg, ts, acts) && n <= |acts|
    ensures Inv(ts[n].s)
  {
    if n == 0 {
      InitInv(ts[0].s);
    } else {
      TimedKeepsInv(p, cfg, ts, acts, n - 1);
      assert TimedStep(p, cfg, ts[n - 1], acts[n - 1], ts[n]);
      TimedStepKeepsInv(p, cfg, ts[n - 1], acts[n - 1], ts[n]);
    }
  }

  lemma QueueAt(p: Params, cfg: Config, ts: seq<Timed>, acts: seq<TimedAction>, n: nat)
    requires TimedRun(p, cfg, ts, acts) && n <= |acts|
    ensures QueueInv(ts[n].s.q)
  {
    TimedKeepsInv(p, cfg, ts, acts, n);
  }

  /** Still abandoned, with the same lease. */
  ghost predicate Kept(t: Timed, t': Timed, e: EntryId) {
    && e in t.s.q.pending && Abandoned(t'.s, e) && t'.s.q.pending[e] == t.s.q.pending[e]
    && t.clock <= t'.clock
  }

  lemma AbandonedAt(p: Params, cfg: Config, ts: seq<Timed>, acts: seq<TimedAction>, k: nat, e: EntryId)
    requires TimedRun(p, cfg, ts, acts) && k < |acts| && Abandoned(ts[k].s, e)
    requires !Refreshes(acts[k], e) && !Finds(ts[k], acts[k], e)
    ensures Kept(ts[k], ts[k + 1], e)
  {
    QueueAt(p, cfg, ts, acts, k);
    assert TimedStep(p, cfg, ts[k], acts[k], ts[k + 1]);
    AbandonedStep(p, cfg, ts[k], acts[k], ts[k + 1], e);
  }

  lemma {:induction false} AbandonedUntil(p: Params, cfg: Config, ts: seq<Timed>, acts: seq<TimedAction>,
                                          m: nat, n: nat, e: EntryId)
    requires TimedRun(p, cfg, ts, acts) && m <= n <= |acts| && Abandoned(ts[m].s, e) && LeftAlone(ts, acts, m, n, e)
    ensures Kept(ts[m], ts[n], e)
    decreases n
  {
    if m < n {
      AbandonedUntil(p, cfg, ts, acts, m, n - 1, e);
      AbandonedAt(p, cfg, ts, acts, n - 1, e);
    }
  }

  // ----- detection -----

  /** Every scan at this moment whose count has room for the entry returns it. */
  ghost predicate Detected(p: Params, t: Timed, e: EntryId) {
    forall count: nat :: StaleCount(t.s.q, 0, e, t.clock, p.staleAfter) < count ==>
      e in StaleFrom(t.s.q, 0, t.clock, p.staleAfter, count)
  }

  lemma DetectedIff(p: Params, t: Timed, e: EntryId)
    requires QueueInv(t.s.q) && e in t.s.q.pending
    ensures Detected(p, t, e) <==> t.clock - t.s.q.pending[e].since >= p.staleAfter
  {
    var before := StaleCount(t.s.q, 0, e, t.clock, p.staleAfter);
    StaleFromFinds(t.s.q, 0, t.clock, p.staleAfter, before + 1, e);
    forall count: nat | before < count
      ensures e in StaleFrom(t.s.q, 0, t.clock, p.staleAfter, count) <==> Stale(t.s.q, e, t.clock, p.staleAfter)
    {
      StaleFromFinds(t.s.q, 0, t.clock, p.staleAfter, count, e);
    }
  }

  /** In every timed run, whatever the threshold: an abandoned entry that is left alone stays
      abandoned, and from the threshold after its last lease or renewal on, and not before,
      scans return it. */
  lemma AbandonedIsDetected(p: Params, cfg: Config, ts: seq<Timed>, acts: seq<TimedAction>, m: nat, n: nat, e: EntryId)
    requires TimedRun(p, cfg, ts, acts) && m <= n <= |acts| && Abandoned(ts[m].s, e) && LeftAlone(ts, acts, m, n, e)
    ensures Abandoned(ts[n].s, e)
    ensures Detected(p, ts[n], e) <==> ts[n].clock >= ts[m].s.q.pending[e].since + p.staleAfter
  {
    AbandonedUntil(p, cfg, ts, acts, m, n, e);
    QueueAt(p, cfg, ts, acts, n);
    DetectedIff(p, ts[n], e);
  }

  /** An actor that crashes abandons everything that it holds. */
  lemma CrashAbandons(p: Params, cfg: Config, ts: seq<Timed>, acts: seq<TimedAction>, k: nat, i: ActorId, e: EntryId)
    requires Bounded(p) && DisciplinedRun(p, cfg, ts, acts) && k < |acts| && acts[k] == Act(Crash(i))
    requires i < |ts[k].s.actors| && Holds(ts[k].s.actors[i], e)
    ensures Abandoned(ts[k + 1].s, e) && ts[k + 1].s.q.pending[e].since <= ts[k].clock
  {
    TimedUntil(p, cfg, ts, acts, k);
    var ss, steps := TimedIsSingleFlight(p, cfg, ts, acts, k);
    SfUntil(cfg, ss, steps, |steps|);
    assert TimedStep(p, cfg, ts[k], acts[k], ts[k + 1]);
    CrashLetsGo(cfg, ts[k].s, i, ts[k + 1].s, e);
  }

  lemma CrashLetsGo(cfg: Config, s: State, i: ActorId, s': State, e: EntryId)
    requires HoldInv(s) && Step(cfg, s, Crash(i), s') && Holds(s.actors[i], e)
    ensures Abandoned(s', e) && s'.q == s.q
  {
  }

  /** Below the bound: what a crashed actor held is returned by every scan with room that is
      made at least the threshold after the crash, unless a pass has found it before. */
  lemma CrashIsDetected(p: Params, cfg: Config, ts: seq<Timed>, acts: seq<TimedAction>, k: nat, n: nat, i: ActorId,
                        e: EntryId)
    requires Bounded(p) && DisciplinedRun(p, cfg, ts, acts) && k < n <= |acts| && acts[k] == Act(Crash(i))
    requires i < |ts[k].s.actors| && Holds(ts[k].s.actors[i], e) && LeftAlone(ts, acts, k + 1, n, e)
    ensures Abandoned(ts[n].s, e)
    ensures ts[n].clock >= ts[k].clock + p.staleAfter ==> Detected(p, ts[n], e)
  {
    CrashAbandons(p, cfg, ts, acts, k, i, e);
    AbandonedIsDetected(p, cfg, ts, acts, k + 1, n, e);
  }

  // ----- exact scans -----

  /** Below the bound, between passes: a scan whose count covers the pending entries returns
      exactly the abandoned entries whose lease is old enough. */
  lemma ScanIsExact(p: Params, cfg: Config, ts: seq<Timed>, acts: seq<TimedAction>, n: nat, count: nat, e: EntryId)
    requires Bounded(p) && DisciplinedRun(p, cfg, ts, acts) && n <= |acts| && count >= |ts[n].s.q.pending|
    requires forall i :: 0 <= i < |ts[n].s.actors| ==> !InPass(ts[n].s.actors[i])
    ensures e in StaleFrom(ts[n].s.q, 0, ts[n].clock, p.staleAfter, count)
       <==> Abandoned(ts[n].s, e) && ts[n].clock - ts[n].s.q.pending[e].since >= p.staleAfter
  {
    var t := ts[n];
    TimedUntil(p, cfg, ts, acts, n);
    StaleFromFinds(t.s.q, 0, t.clock, p.staleAfter, count, e);
    if e in t.s.q.pending {
      RoomForAll(t.s.q, e, t.clock, p.staleAfter, count);
    }
    forall i | 0 <= i < |t.s.actors| && Holds(t.s.actors[i], e)
      ensures e !in StaleFrom(t.s.q, 0, t.clock, p.staleAfter, count)
    {
      HeldIsProcessed(t.s.actors[i], e);
      ProcessingIsRecent(p, t, i);
      RecentIsNotFound(t.s.q, e, t.clock, p.staleAfter, count);
    }
  }
}
