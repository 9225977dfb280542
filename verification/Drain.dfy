/** Draining the queue: every interleaving of workers terminates, and what is left then. */
module Drain {
  import opened Domain
  import opened Store
  import opened Streams
  import opened Protocol
  import opened Safety

  // ----- sums -----

  ghost function Total(xs: seq<nat>): nat {
    if xs == [] then 0 else Total(xs[..|xs| - 1]) + xs[|xs| - 1]
  }

  lemma {:induction false} TotalUpdate(xs: seq<nat>, i: nat, v: nat)
    requires i < |xs|
    ensures Total(xs[i := v]) + xs[i] == Total(xs) + v
    decreases |xs|
  {
    var n := |xs| - 1;
    if i == n {
      assert xs[i := v][..n] == xs[..n];
    } else {
      TotalUpdate(xs[..n], i, v);
      assert xs[i := v][..n] == xs[..n][i := v];
    }
  }

  lemma TotalAppend(xs: seq<nat>, v: nat)
    ensures Total(xs + [v]) == Total(xs) + v
  {
    assert (xs + [v])[..|xs|] == xs;
  }

  lemma {:induction false} TotalZero(xs: seq<nat>)
    ensures Total(xs) == 0 <==> forall i :: 0 <= i < |xs| ==> xs[i] == 0
  {
    if xs != [] {
      TotalZero(xs[..|xs| - 1]);
      assert forall i :: 0 <= i < |xs| - 1 ==> xs[..|xs| - 1][i] == xs[i];
    }
  }

  // ----- the measure -----

  /** How many more messages an entry can lead to, itself included: maxRetries + 2 - attempt. */
  ghost function Room(db: Db, j: JobId, attempt: nat): nat
    ensures Room(db, j, attempt) >= 1
  {
    if j in db.jobs && attempt <= db.jobs[j].maxRetries + 1 then db.jobs[j].maxRetries + 2 - attempt else 1
  }

  ghost function RoomOf(s: State, e: EntryId): nat
    requires e < |s.q.entries|
  {
    Room(s.db, s.q.entries[e].job, s.q.entries[e].attempt)
  }

  /** The room of the undelivered entries, by id. */
  ghost function Waiting(s: State): seq<nat> {
    seq(|s.q.entries|, e requires 0 <= e < |s.q.entries| => if e < s.q.cursor then 0 else RoomOf(s, e))
  }

  /** The room that an actor still holds: that of its entry until it publishes or concludes. */
  ghost function HeldRoom(s: State, pc: Pc): nat {
    match pc
    case Leased(e) => if e < |s.q.entries| then RoomOf(s, e) else 0
    case Executing(e, _) => if e < |s.q.entries| then RoomOf(s, e) else 0
    case Wrote(e, _, _) => if e < |s.q.entries| then RoomOf(s, e) else 0
    case Publishing(e, _, _) => if e < |s.q.entries| then RoomOf(s, e) else 0
    case _ => 0
  }

  /** Steps that the actor can take before it gives up its entry's room or goes idle. */
  ghost function StepsLeft(pc: Pc): nat {
    match pc
    case Leased(_) => 5
    case Executing(_, _) => 4
    case Wrote(_, _, _) => 3
    case Publishing(_, _, _) => 2
    case Acking(_, _, _) => 1
    case _ => 0
  }

  ghost function Held(s: State): seq<nat> {
    seq(|s.actors|, i requires 0 <= i < |s.actors| => HeldRoom(s, s.actors[i]))
  }

  ghost function Left(s: State): seq<nat> {
    seq(|s.actors|, i requires 0 <= i < |s.actors| => StepsLeft(s.actors[i]))
  }

  /** Messages that can still be processed. */
  ghost function LiveRoom(s: State): nat {
    Total(Waiting(s)) + Total(Held(s))
  }

  ghost function Undelivered(q: Queue): nat {
    if q.cursor <= |q.entries| then |q.entries| - q.cursor else 0
  }

  /** Bounds the worker steps that are still possible. */
  ghost function Measure(s: State): nat {
    7 * LiveRoom(s) + 6 * Undelivered(s.q) + Total(Left(s))
  }

  /** A step of a worker. */
  predicate WorkerStep(a: Action) {
    !External(a) && !a.Crash? && !a.FindStale?
  }

  /** No actor is in the middle of a recovery pass. */
  ghost predicate NoPass(s: State) {
    forall i :: 0 <= i < |s.actors| ==> WorkerPc(s.actors[i])
  }

  predicate WorkerPc(pc: Pc) {
    match pc
    case Recovering(_) => false
    case DeadLettering(_, _) => false
    case Publishing(_, _, cont) => cont.ToIdle?
    case Acking(_, _, cont) => cont.ToIdle?
    case _ => true
  }

  lemma NoPassStep(cfg: Config, s: State, a: Action)
    requires NoPass(s) && Enabled(cfg, s, a) && WorkerStep(a)
    ensures NoPass(Next(cfg, s, a))
  {
  }

  /** Worker steps never change what room a message has. */
  lemma RoomStays(cfg: Config, s: State, a: Action, j: JobId, attempt: nat)
    requires Enabled(cfg, s, a) && WorkerStep(a)
    ensures Room(Next(cfg, s, a).db, j, attempt) == Room(s.db, j, attempt)
  {
    ApplyGrows(s.db, EffectOf(cfg, s, a).tx);
  }

  /** Held room and steps left change only at the acting actor. */
  lemma ActorChange(cfg: Config, s: State, a: Action, s': State)
    requires Enabled(cfg, s, a) && WorkerStep(a) && s' == Next(cfg, s, a) && Extends(s, s')
    requires forall i :: 0 <= i < |s.actors| ==> PcShape(s, s.actors[i])
    ensures Held(s') == Held(s)[a.i := HeldRoom(s', s'.actors[a.i])]
    ensures Left(s') == Left(s)[a.i := StepsLeft(s'.actors[a.i])]
  {
    forall i | 0 <= i < |s.actors| && i != a.i
      ensures HeldRoom(s', s'.actors[i]) == HeldRoom(s, s.actors[i])
    {
      HeldRoomStays(cfg, s, a, s', s.actors[i]);
    }
  }

  lemma HeldRoomStays(cfg: Config, s: State, a: Action, s': State, pc: Pc)
    requires Enabled(cfg, s, a) && WorkerStep(a) && s' == Next(cfg, s, a) && Extends(s, s') && PcShape(s, pc)
    ensures HeldRoom(s', pc) == HeldRoom(s, pc)
  {
    if pc.Leased? || pc.Executing? || pc.Wrote? || pc.Publishing? {
      RoomStays(cfg, s, a, s.q.entries[pc.e].job, s.q.entries[pc.e].attempt);
    }
  }

  ghost predicate QueueMoves(s: State, a: Action, s': State) {
    && s.q.entries <= s'.q.entries
    && (a.LeaseNext? ==> s.q.cursor < |s.q.entries| && s'.q.cursor == s.q.cursor + 1 && s'.q.entries == s.q.entries)
    && (a.Publish? ==> && s'.q.cursor == s.q.cursor && a.i < |s.actors| && s.actors[a.i].Publishing?
                       && s'.q.entries == s.q.entries + [s.actors[a.i].m])
    && (!a.LeaseNext? && !a.Publish? ==> s'.q.cursor == s.q.cursor && s'.q.entries == s.q.entries)
  }

  lemma HowQueueMoves(cfg: Config, s: State, a: Action, s': State)
    requires Enabled(cfg, s, a) && WorkerStep(a) && s' == Next(cfg, s, a)
    ensures QueueMoves(s, a, s') && |s'.actors| == |s.actors| && a.i < |s.actors|
  {
  }

  ghost predicate WaitingMoves(s: State, a: Action, s': State) {
    && (a.LeaseNext? ==> s.q.cursor < |s.q.entries| && Waiting(s') == Waiting(s)[s.q.cursor := 0])
    && (a.Publish? ==> && a.i < |s.actors| && s.actors[a.i].Publishing?
                       && Waiting(s') == Waiting(s) + [Room(s.db, s.actors[a.i].m.job, s.actors[a.i].m.attempt)])
    && (!a.LeaseNext? && !a.Publish? ==> Waiting(s') == Waiting(s))
  }

  lemma WaitingChange(s: State, a: Action, s': State)
    requires QueueInv(s.q) && QueueMoves(s, a, s')
    requires forall j, n :: Room(s'.db, j, n) == Room(s.db, j, n)
    ensures WaitingMoves(s, a, s')
  {
    assert forall e :: 0 <= e < |s.q.entries| ==> RoomOf(s', e) == RoomOf(s, e);
  }

  /** What the acting worker's own room and steps do. */
  ghost predicate OwnMoves(s: State, a: Action, s': State) {
    && WorkerStep(a) && a.i < |s.actors| == |s'.actors|
    && (var h, h' := HeldRoom(s, s.actors[a.i]), HeldRoom(s', s'.actors[a.i]);
        if a.LeaseNext? then s.q.cursor < |s.q.entries| && h == 0 && h' == Waiting(s)[s.q.cursor]
        else if a.Publish? then
          s.actors[a.i].Publishing? && h' == 0 && h == Room(s.db, s.actors[a.i].m.job, s.actors[a.i].m.attempt) + 1
        else if a.Start? || a.Finish? then h >= 1 && (h' == h || h' == 0)
        else h' == h && !s'.actors[a.i].Acking?)
    && (var l, l' := StepsLeft(s.actors[a.i]), StepsLeft(s'.actors[a.i]);
        if a.LeaseNext? then l == 0 && l' == 5 else l' < l)
  }

  lemma OwnStepsDrop(cfg: Config, s: State, a: Action)
    requires Ready(s, a) && WorkerStep(a) && WorkerPc(s.actors[a.i])
    ensures var l, l' := StepsLeft(s.actors[a.i]), StepsLeft(EffectOf(cfg, s, a).pc);
            if a.LeaseNext? then l == 0 && l' == 5 else l' < l
  {
  }

  lemma OwnRoomMoves(cfg: Config, s: State, a: Action, s': State, pc: Pc)
    requires QueueInv(s.q) && Ready(s, a) && WorkerStep(a) && pc == EffectOf(cfg, s, a).pc
    requires PcShape(s, s.actors[a.i]) && WorkerPc(s.actors[a.i])
    requires s.q.entries <= s'.q.entries && forall j, n :: Room(s'.db, j, n) == Room(s.db, j, n)
    ensures var h, h' := HeldRoom(s, s.actors[a.i]), HeldRoom(s', pc);
            if a.LeaseNext? then s.q.cursor < |s.q.entries| && h == 0 && h' == RoomOf(s, s.q.cursor)
            else if a.Publish? then
              s.actors[a.i].Publishing? && h' == 0 && h == Room(s.db, s.actors[a.i].m.job, s.actors[a.i].m.attempt) + 1
            else if a.Start? || a.Finish? then h >= 1 && (h' == h || h' == 0)
            else h' == h && !pc.Acking?
  {
    assert forall e :: 0 <= e < |s.q.entries| ==> RoomOf(s', e) == RoomOf(s, e);
  }

  lemma OwnChange(cfg: Config, s: State, a: Action, s': State)
    requires QueueInv(s.q) && Enabled(cfg, s, a) && WorkerStep(a) && s' == Next(cfg, s, a)
             && s.q.entries <= s'.q.entries
    requires PcShape(s, s.actors[a.i]) && WorkerPc(s.actors[a.i])
    requires forall j, n :: Room(s'.db, j, n) == Room(s.db, j, n)
    ensures OwnMoves(s, a, s')
  {
    OwnStepsDrop(cfg, s, a);
    OwnRoomMoves(cfg, s, a, s', EffectOf(cfg, s, a).pc);
  }

  ghost predicate ActorMoves(s: State, a: Action, s': State) {
    && WorkerStep(a) && a.i < |s.actors| == |s'.actors|
    && Held(s') == Held(s)[a.i := HeldRoom(s', s'.actors[a.i])]
    && Left(s') == Left(s)[a.i := StepsLeft(s'.actors[a.i])]
  }

  ghost predicate Drops(s: State, a: Action, s': State) {
    && Measure(s') < Measure(s) && LiveRoom(s') <= LiveRoom(s)
    && (WorkerStep(a) && a.i < |s'.actors| && s'.actors[a.i].Acking? ==> LiveRoom(s') < LiveRoom(s))
  }

  lemma AllMoves(cfg: Config, s: State, a: Action, s': State)
    requires QueueInv(s.q) && (forall i :: 0 <= i < |s.actors| ==> PcShape(s, s.actors[i])) && NoPass(s)
    requires Enabled(cfg, s, a) && WorkerStep(a) && s' == Next(cfg, s, a)
    ensures QueueMoves(s, a, s') && WaitingMoves(s, a, s') && OwnMoves(s, a, s') && ActorMoves(s, a, s')
  {
    NextExtends(cfg, s, a);
    HowQueueMoves(cfg, s, a, s');
    ActorChange(cfg, s, a, s');
    assert PcShape(s, s.actors[a.i]);
    forall j, n
      ensures Room(s'.db, j, n) == Room(s.db, j, n)
    {
      RoomStays(cfg, s, a, j, n);
    }
    WaitingChange(s, a, s');
    OwnChange(cfg, s, a, s');
  }

  /** Each worker step lowers the measure, and concluding a message lowers the live room. */
  lemma MeasureDrops(cfg: Config, s: State, a: Action, s': State)
    requires QueueInv(s.q) && (forall i :: 0 <= i < |s.actors| ==> PcShape(s, s.actors[i])) && NoPass(s)
    requires Step(cfg, s, a, s') && WorkerStep(a)
    ensures Drops(s, a, s')
  {
    AllMoves(cfg, s, a, s');
    MeasureArithmetic(s, a, s');
  }

  lemma MeasureArithmetic(s: State, a: Action, s': State)
    requires QueueInv(s.q) && QueueMoves(s, a, s') && WaitingMoves(s, a, s') && OwnMoves(s, a, s')
             && ActorMoves(s, a, s')
    ensures Drops(s, a, s')
  {
    OwnScale(s, a, s');
    WaitingScale(s, a, s');
    SharesScale(s, a, s');
    Weigh(a.LeaseNext?, a.Publish?, a.Start? || a.Finish?, s'.actors[a.i].Acking?, TotalsOf(s), TotalsOf(s'),
          HeldRoom(s, s.actors[a.i]), HeldRoom(s', s'.actors[a.i]),
          StepsLeft(s.actors[a.i]), StepsLeft(s'.actors[a.i]));
  }

  datatype Totals = Totals(waiting: nat, held: nat, undelivered: nat, left: nat)

  ghost function TotalsOf(s: State): Totals {
    Totals(Total(Waiting(s)), Total(Held(s)), Undelivered(s.q), Total(Left(s)))
  }

  /** How one step moves the totals, by the kind of the step and the actor's own share
      before and after (h and l to h' and l'). */
  ghost predicate SharesMove(lease: bool, publish: bool, t: Totals, t': Totals, h: nat, h': nat, l: nat, l': nat) {
    && t'.held + h == t.held + h' && t'.left + l == t.left + l'
    && t'.undelivered + (if lease then 1 else 0) == t.undelivered + (if publish then 1 else 0)
  }

  ghost predicate WaitingMovesBy(lease: bool, publish: bool, t: Totals, t': Totals, h: nat, h': nat) {
    && (lease ==> t'.waiting + h' == t.waiting && h == 0)
    && (publish ==> t'.waiting == t.waiting + h - 1 && h >= 1 && h' == 0)
    && (!lease && !publish ==> t'.waiting == t.waiting)
  }

  ghost predicate OwnMovesBy(lease: bool, publish: bool, tx: bool, acking: bool, h: nat, h': nat, l: nat, l': nat) {
    && (if lease then l == 0 && l' == 5 && !publish else l' < l)
    && (!lease && !publish && tx ==> h >= 1 && (h' == h || h' == 0))
    && (!lease && !publish && !tx ==> h' == h && !acking)
    && (acking ==> h' == 0 && !lease)
  }

  lemma OwnScale(s: State, a: Action, s': State)
    requires OwnMoves(s, a, s')
    ensures OwnMovesBy(a.LeaseNext?, a.Publish?, a.Start? || a.Finish?, s'.actors[a.i].Acking?,
                       HeldRoom(s, s.actors[a.i]), HeldRoom(s', s'.actors[a.i]),
                       StepsLeft(s.actors[a.i]), StepsLeft(s'.actors[a.i]))
  {
  }

  lemma WaitingScale(s: State, a: Action, s': State)
    requires WaitingMoves(s, a, s') && OwnMoves(s, a, s')
    ensures WaitingMovesBy(a.LeaseNext?, a.Publish?, TotalsOf(s), TotalsOf(s'),
                           HeldRoom(s, s.actors[a.i]), HeldRoom(s', s'.actors[a.i]))
  {
    WaitingTotals(s, a, s');
  }

  lemma SharesScale(s: State, a: Action, s': State)
    requires QueueInv(s.q) && QueueMoves(s, a, s') && ActorMoves(s, a, s')
    ensures SharesMove(a.LeaseNext?, a.Publish?, TotalsOf(s), TotalsOf(s'),
                       HeldRoom(s, s.actors[a.i]), HeldRoom(s', s'.actors[a.i]),
                       StepsLeft(s.actors[a.i]), StepsLeft(s'.actors[a.i]))
  {
    HeldTotals(s, a, s');
    UndeliveredMoves(s, a, s');
  }

  lemma Weigh(lease: bool, publish: bool, tx: bool, acking: bool, t: Totals, t': Totals, h: nat, h': nat, l: nat,
              l': nat)
    requires SharesMove(lease, publish, t, t', h, h', l, l') && WaitingMovesBy(lease, publish, t, t', h, h')
    requires OwnMovesBy(lease, publish, tx, acking, h, h', l, l')
    ensures 7 * (t'.waiting + t'.held) + 6 * t'.undelivered + t'.left
          < 7 * (t.waiting + t.held) + 6 * t.undelivered + t.left
    ensures t'.waiting + t'.held <= t.waiting + t.held
    ensures acking ==> t'.waiting + t'.held < t.waiting + t.held
  {
  }

  lemma UndeliveredMoves(s: State, a: Action, s': State)
    requires QueueInv(s.q) && QueueMoves(s, a, s') && !(a.LeaseNext? && a.Publish?)
    ensures Undelivered(s'.q) + (if a.LeaseNext? then 1 else 0) == Undelivered(s.q) + (if a.Publish? then 1 else 0)
  {
  }

  lemma HeldTotals(s: State, a: Action, s': State)
    requires ActorMoves(s, a, s')
    ensures Total(Held(s')) + HeldRoom(s, s.actors[a.i]) == Total(Held(s)) + HeldRoom(s', s'.actors[a.i])
    ensures Total(Left(s')) + StepsLeft(s.actors[a.i]) == Total(Left(s)) + StepsLeft(s'.actors[a.i])
  {
    TotalUpdate(Held(s), a.i, HeldRoom(s', s'.actors[a.i]));
    TotalUpdate(Left(s), a.i, StepsLeft(s'.actors[a.i]));
  }

  lemma WaitingTotals(s: State, a: Action, s': State)
    requires WaitingMoves(s, a, s')
    ensures a.LeaseNext? ==>
            s.q.cursor < |s.q.entries| && Total(Waiting(s')) + Waiting(s)[s.q.cursor] == Total(Waiting(s))
    ensures a.Publish? ==> && a.i < |s.actors| && s.actors[a.i].Publishing?
                           && Total(Waiting(s'))
                              == Total(Waiting(s)) + Room(s.db, s.actors[a.i].m.job, s.actors[a.i].m.attempt)
    ensures !a.LeaseNext? && !a.Publish? ==> Total(Waiting(s')) == Total(Waiting(s))
  {
    if a.LeaseNext? {
      TotalUpdate(Waiting(s), s.q.cursor, 0);
    } else if a.Publish? {
      TotalAppend(Waiting(s), Room(s.db, s.actors[a.i].m.job, s.actors[a.i].m.attempt));
    }
  }

  // ----- whole drains -----

  ghost predicate WorkerRun(cfg: Config, ss: seq<State>, acts: seq<Action>) {
    Steps(cfg, ss, acts) && CoreInv(ss[0]) && NoPass(ss[0]) && forall k :: 0 <= k < |acts| ==> WorkerStep(acts[k])
  }

  /** How many of the first n steps concluded a message (all that is left is to acknowledge). */
  ghost function Concluded(ss: seq<State>, acts: seq<Action>, n: nat): nat
    requires n <= |acts| < |ss|
  {
    if n == 0 then 0
    else
      Concluded(ss, acts, n - 1) +
      if WorkerStep(acts[n - 1]) && acts[n - 1].i < |ss[n].actors| && ss[n].actors[acts[n - 1].i].Acking? then 1 else 0
  }

  /** Step k of a worker run. */
  ghost predicate DropsAt(ss: seq<State>, acts: seq<Action>, k: nat) {
    k < |acts| && k + 1 < |ss| && Drops(ss[k], acts[k], ss[k + 1])
  }

  lemma {:induction false} NoPassUntil(cfg: Config, ss: seq<State>, acts: seq<Action>, n: nat)
    requires Steps(cfg, ss, acts) && NoPass(ss[0]) && n <= |acts|
    requires forall k :: 0 <= k < |acts| ==> WorkerStep(acts[k])
    ensures NoPass(ss[n])
  {
    if n > 0 {
      NoPassUntil(cfg, ss, acts, n - 1);
      assert Step(cfg, ss[n - 1], acts[n - 1], ss[n]);
      NoPassStep(cfg, ss[n - 1], acts[n - 1]);
    }
  }

  lemma WorkersUntil(cfg: Config, ss: seq<State>, acts: seq<Action>, n: nat)
    requires WorkerRun(cfg, ss, acts) && n <= |acts|
    ensures CoreInv(ss[n]) && NoPass(ss[n])
    ensures forall k :: 0 <= k < n ==> DropsAt(ss, acts, k)
  {
    StepsKeepCore(cfg, ss, acts, n);
    NoPassUntil(cfg, ss, acts, n);
    forall k | 0 <= k < n
      ensures DropsAt(ss, acts, k)
    {
      StepsKeepCore(cfg, ss, acts, k);
      NoPassUntil(cfg, ss, acts, k);
      assert Step(cfg, ss[k], acts[k], ss[k + 1]);
      MeasureDrops(cfg, ss[k], acts[k], ss[k + 1]);
    }
  }

  lemma {:induction false} DropsAddUp(ss: seq<State>, acts: seq<Action>, n: nat)
    requires n <= |acts| < |ss| && forall k :: 0 <= k < n ==> DropsAt(ss, acts, k)
    ensures n + Measure(ss[n]) <= Measure(ss[0])
  {
    if n > 0 {
      DropsAddUp(ss, acts, n - 1);
      assert DropsAt(ss, acts, n - 1);
    }
  }

  lemma {:induction false} ConclusionsAddUp(ss: seq<State>, acts: seq<Action>, n: nat)
    requires n <= |acts| < |ss| && forall k :: 0 <= k < n ==> DropsAt(ss, acts, k)
    ensures Concluded(ss, acts, n) + LiveRoom(ss[n]) <= LiveRoom(ss[0])
  {
    if n > 0 {
      ConclusionsAddUp(ss, acts, n - 1);
      assert DropsAt(ss, acts, n - 1);
    }
  }

  /** Every interleaving of workers is bounded: a run of n worker steps uses up at least n
      of the measure, and each processed message at least one of the live room. */
  lemma EveryInterleavingTerminates(cfg: Config, ss: seq<State>, acts: seq<Action>, n: nat)
    requires WorkerRun(cfg, ss, acts) && n <= |acts|
    ensures CoreInv(ss[n]) && NoPass(ss[n])
    ensures n + Measure(ss[n]) <= Measure(ss[0])
    ensures Concluded(ss, acts, n) + LiveRoom(ss[n]) <= LiveRoom(ss[0])
  {
    WorkersUntil(cfg, ss, acts, n);
    DropsAddUp(ss, acts, n);
    ConclusionsAddUp(ss, acts, n);
  }

  lemma WorkerStepKeeps(cfg: Config, s: State, a: Action, s': State)
    requires Inv(s) && NoPass(s) && Step(cfg, s, a, s') && WorkerStep(a)
    ensures Inv(s') && NoPass(s') && Drops(s, a, s')
  {
    InvStep(cfg, s, a);
    NoPassStep(cfg, s, a);
    MeasureDrops(cfg, s, a, s');
  }

  /** A worker that is not idle can always take its next step. */
  lemma WorkerCanMove(cfg: Config, s: State, i: ActorId) returns (a: Action)
    requires QueueInv(s.q) && i < |s.actors| && !s.actors[i].Idle? && PcShape(s, s.actors[i]) && WorkerPc(s.actors[i])
    ensures WorkerStep(a) && a.i == i && Enabled(cfg, s, a)
  {
    match s.actors[i] {
      case Leased(_) => a := Start(i);
      case Executing(_, _) => a := Finish(i, PolicyError);
      case Wrote(_, _, _) => a := Finish(i, Success);
      case Publishing(_, _, _) => a := Publish(i);
      case Acking(_, _, _) => a := Ack(i);
    }
  }

  /** Everything delivered, everything acknowledged, everybody idle. */
  ghost predicate Drained(s: State) {
    Stopped(s) && s.q.cursor == |s.q.entries| && s.q.pending == map[]
  }

  ghost predicate PublishedJobsFinalized(s: State) {
    forall e :: 0 <= e < |s.q.entries| && s.q.entries[e].job in s.db.jobs ==> s.q.entries[e].job in s.db.finals
  }

  /** When workers cannot move any more and nothing is pending without a holder, the queue
      is drained. */
  lemma StuckMeansDrained(cfg: Config, s: State)
    requires CoreInv(s) && NoPass(s) && |s.actors| > 0
    requires Stopped(s) ==> s.q.pending == map[]
    requires forall a: Action :: WorkerStep(a) ==> !Enabled(cfg, s, a)
    ensures Drained(s)
  {
    forall i | 0 <= i < |s.actors|
      ensures s.actors[i] == Idle
    {
      if !s.actors[i].Idle? {
        assert PcShape(s, s.actors[i]) && WorkerPc(s.actors[i]);
        var a := WorkerCanMove(cfg, s, i);
      }
    }
    assert !Enabled(cfg, s, LeaseNext(0, 0));
  }

  /** Where the cover holds, every published job is then finalized. */
  lemma StuckMeansDone(cfg: Config, s: State)
    requires Inv(s) && NoPass(s) && |s.actors| > 0
    requires Stopped(s) ==> s.q.pending == map[]
    requires forall a: Action :: WorkerStep(a) ==> !Enabled(cfg, s, a)
    ensures Drained(s) && PublishedJobsFinalized(s)
  {
    StuckMeansDrained(cfg, s);
    DrainedMeansFinalized(s);
  }

  lemma DrainedMeansFinalized(s: State)
    requires Inv(s) && s.q.cursor == |s.q.entries| && s.q.pending == map[]
    ensures PublishedJobsFinalized(s)
  {
    forall e | 0 <= e < |s.q.entries| && s.q.entries[e].job in s.db.jobs
      ensures s.q.entries[e].job in s.db.finals
    {
      LastEntryFinalizes(s, s.q.entries[e].job, e);
    }
  }

  /** Among acknowledged entries the newest one of a job cannot point to a newer one. */
  lemma {:induction false} LastEntryFinalizes(s: State, j: JobId, e: EntryId)
    requires CoverInv(s) && j in s.db.jobs && e < |s.q.entries| && s.q.entries[e].job == j
    requires forall x :: 0 <= x < |s.q.entries| ==> Acked(s.q, x)
    ensures j in s.db.finals
    decreases |s.q.entries| - e
  {
    assert Covered(s, e);
    if j !in s.db.finals {
      var e' :| e < e' < |s.q.entries| && s.q.entries[e'].job == j;
      LastEntryFinalizes(s, j, e');
    }
  }
}
