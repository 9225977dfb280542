/** The deterministic failure plan: a shuffle of the first indexes, a rotation of failure
    modes over the shuffled order, and the plan sorted by index. */
module FailureInjection {
  import opened Domain

  datatype FailureMode = Transient | Permanent | Timeout | Cancellation | DuplicateSubmission
  datatype InjectedFailure = InjectedFailure(index: nat, mode: FailureMode)

  function Modes(includeTimeouts: bool): seq<FailureMode> {
    [Transient, Permanent, DuplicateSubmission] + if includeTimeouts then [Timeout] else []
  }

  /** The payload of a job with the given failure; 1 second is the runner's default duration. */
  function PayloadFor(mode: FailureMode, index: nat): Payload {
    match mode
    case Transient => Payload("transient_error", 1, false, index)
    case Permanent => Payload("permanent_error", 1, false, index)
    case Timeout => Payload("sleep", 2, false, index)
    case Cancellation => Payload("sleep", 5, false, index)
    case DuplicateSubmission => Payload("success", 1, true, index)
  }

  // ----- the plan -----

  /** Every number below |order| once. */
  ghost predicate Permutation(order: seq<nat>) {
    && (forall k :: 0 <= k < |order| ==> order[k] < |order|)
    && (forall k, l :: 0 <= k < l < |order| ==> order[k] != order[l])
  }

  /** random.shuffle: swaps from the end, each with a random earlier position. */
  method Shuffle(indexes: array<nat>, random: nat -> nat)
    requires Permutation(indexes[..])
    modifies indexes
    ensures Permutation(indexes[..])
    ensures multiset(indexes[..]) == multiset(old(indexes[..]))
  {
    var i := indexes.Length;
    while i > 1
      invariant Permutation(indexes[..])
      invariant multiset(indexes[..]) == multiset(old(indexes[..]))
    {
      i := i - 1;
      var j := random(i) % (i + 1);
      indexes[i], indexes[j] := indexes[j], indexes[i];
    }
  }

  /** sorted by index */
  function InsertFailure(plan: seq<InjectedFailure>, f: InjectedFailure): (r: seq<InjectedFailure>)
    ensures |r| == |plan| + 1
  {
    if plan == [] || f.index < plan[0].index then [f] + plan
    else [plan[0]] + InsertFailure(plan[1..], f)
  }

  /** The failure that the rotation gives to position p of the shuffled order. */
  function Rotated(order: seq<nat>, modes: seq<FailureMode>, p: nat): InjectedFailure
    requires p < |order| && modes != []
  {
    InjectedFailure(order[p], modes[p % |modes|])
  }

  function PlanOf(order: seq<nat>, modes: seq<FailureMode>, n: nat): (plan: seq<InjectedFailure>)
    requires n <= |order| && modes != []
    ensures |plan| == n
  {
    if n == 0 then [] else InsertFailure(PlanOf(order, modes, n - 1), Rotated(order, modes, n - 1))
  }

  ghost predicate ByIndex(plan: seq<InjectedFailure>) {
    forall k, l :: 0 <= k < l < |plan| ==> plan[k].index < plan[l].index
  }

  lemma {:induction false} InsertKeepsOrder(plan: seq<InjectedFailure>, f: InjectedFailure)
    requires ByIndex(plan) && forall k :: 0 <= k < |plan| ==> plan[k].index != f.index
    ensures ByIndex(InsertFailure(plan, f))
    ensures forall x :: x in InsertFailure(plan, f) <==> x in plan || x == f
  {
    if plan != [] && f.index >= plan[0].index {
      var rest := InsertFailure(plan[1..], f);
      InsertKeepsOrder(plan[1..], f);
      assert plan == [plan[0]] + plan[1..];
      forall k | 0 <= k < |rest|
        ensures plan[0].index < rest[k].index
      {
        assert rest[k] in rest;
      }
    }
  }

  /** The plan is ascending by index and holds exactly the rotated failures. */
  lemma {:induction false} PlanHolds(order: seq<nat>, modes: seq<FailureMode>, n: nat)
    requires Permutation(order) && n <= |order| && modes != []
    ensures ByIndex(PlanOf(order, modes, n))
    ensures forall x :: x in PlanOf(order, modes, n) <==> exists p :: 0 <= p < n && x == Rotated(order, modes, p)
  {
    if n > 0 {
      PlanHolds(order, modes, n - 1);
      var plan, f := PlanOf(order, modes, n - 1), Rotated(order, modes, n - 1);
      forall k | 0 <= k < |plan|
        ensures plan[k].index != f.index
      {
        assert plan[k] in plan;
      }
      InsertKeepsOrder(plan, f);
    }
  }

  /** An ascending list of n indexes below n has index i at position i. */
  lemma {:induction false} AscendingIsIdentity(plan: seq<InjectedFailure>, i: nat)
    requires ByIndex(plan) && i < |plan| && forall k :: 0 <= k < |plan| ==> plan[k].index < |plan|
    ensures plan[i].index == i
  {
    AtLeastPosition(plan, i);
    AtMostPosition(plan, i);
  }

  lemma {:induction false} AtLeastPosition(plan: seq<InjectedFailure>, i: nat)
    requires ByIndex(plan) && i < |plan|
    ensures plan[i].index >= i
  {
    if i > 0 {
      AtLeastPosition(plan, i - 1);
    }
  }

  lemma {:induction false} AtMostPosition(plan: seq<InjectedFailure>, i: nat)
    requires ByIndex(plan) && i < |plan| && forall k :: 0 <= k < |plan| ==> plan[k].index < |plan|
    ensures plan[i].index <= i
    decreases |plan| - i
  {
    if i < |plan| - 1 {
      AtMostPosition(plan, i + 1);
    }
  }

  /** Whatever the shuffle, the plan names each index below its length once, in order, with
      the mode of the position to which the shuffle moved the index. */
  lemma PlanCoversIndexes(order: seq<nat>, modes: seq<FailureMode>, i: nat) returns (p: nat)
    requires Permutation(order) && modes != [] && i < |order|
    ensures p < |order| && order[p] == i
    ensures PlanOf(order, modes, |order|)[i] == InjectedFailure(i, modes[p % |modes|])
  {
    var plan := PlanOf(order, modes, |order|);
    PlanHolds(order, modes, |order|);
    forall k | 0 <= k < |plan|
      ensures plan[k].index < |plan|
    {
      assert plan[k] in plan;
    }
    AscendingIsIdentity(plan, i);
    assert plan[i] in plan;
    p :| 0 <= p < |order| && plan[i] == Rotated(order, modes, p);
  }

  // ----- counting -----

  ghost function CountMode(plan: seq<InjectedFailure>, mode: FailureMode): nat {
    if plan == [] then 0 else CountMode(plan[1..], mode) + if plan[0].mode == mode then 1 else 0
  }

  lemma {:induction false} InsertCounts(plan: seq<InjectedFailure>, f: InjectedFailure, mode: FailureMode)
    ensures CountMode(InsertFailure(plan, f), mode) == CountMode(plan, mode) + if f.mode == mode then 1 else 0
  {
    if plan == [] || f.index < plan[0].index {
      assert ([f] + plan)[1..] == plan;
    } else {
      InsertCounts(plan[1..], f, mode);
      assert ([plan[0]] + InsertFailure(plan[1..], f))[1..] == InsertFailure(plan[1..], f);
    }
  }

  /** Among the first n positions, (n + m - 1 - r) / m have remainder r modulo m. */
  function Share(n: nat, m: nat, r: nat): nat
    requires r < m
  {
    (n + m - 1 - r) / m
  }

  lemma Thirds(n: nat, r: nat)
    requires r < 3
    ensures (n + 3 - r) / 3 == (n + 2 - r) / 3 + if n % 3 == r then 1 else 0
  {
    if r == 0 {
    } else if r == 1 {
    } else {
    }
  }

  lemma Quarters(n: nat, r: nat)
    requires r < 4
    ensures (n + 4 - r) / 4 == (n + 3 - r) / 4 + if n % 4 == r then 1 else 0
  {
    if r == 0 {
    } else if r == 1 {
    } else if r == 2 {
    } else {
    }
  }

  lemma ShareStep(n: nat, m: nat, r: nat)
    requires r < m && (m == 3 || m == 4)
    ensures Share(n + 1, m, r) == Share(n, m, r) + if n % m == r then 1 else 0
  {
    if m == 3 {
      Thirds(n, r);
    } else {
      Quarters(n, r);
    }
  }

  lemma NoShare(m: nat, r: nat)
    requires r < m && (m == 3 || m == 4)
    ensures Share(0, m, r) == 0
  {
    if m == 3 {
      assert (2 - r) / 3 == 0;
    } else {
      assert (3 - r) / 4 == 0;
    }
  }

  /** The plan has as many failures of a mode as the rotation gives out. */
  lemma {:induction false} PlanCounts(order: seq<nat>, modes: seq<FailureMode>, n: nat, r: nat)
    requires n <= |order| && r < |modes| && (|modes| == 3 || |modes| == 4)
    requires forall k :: 0 <= k < |modes| && k != r ==> modes[k] != modes[r]
    ensures CountMode(PlanOf(order, modes, n), modes[r]) == Share(n, |modes|, r)
  {
    if n == 0 {
      NoShare(|modes|, r);
    } else {
      PlanCounts(order, modes, n - 1, r);
      InsertCounts(PlanOf(order, modes, n - 1), Rotated(order, modes, n - 1), modes[r]);
      ShareStep(n - 1, |modes|, r);
    }
  }

  /** FailurePlan.reliability_proof */
  method ReliabilityProof(random: nat -> nat, count: nat, includeTimeouts: bool)
    returns (failures: seq<InjectedFailure>, ghost order: seq<nat>)
    ensures Permutation(order) && |order| == count && failures == PlanOf(order, Modes(includeTimeouts), count)
    ensures |failures| == count && forall i :: 0 <= i < count ==> failures[i].index == i
    ensures var m := |Modes(includeTimeouts)|;
            forall r :: 0 <= r < m ==> CountMode(failures, Modes(includeTimeouts)[r]) == Share(count, m, r)
  {
    var modes := Modes(includeTimeouts);
    var indexes := new nat[count](i => i);
    Shuffle(indexes, random);
    order := indexes[..];
    failures := [];
    var position := 0;
    while position < count
      invariant position <= count && indexes[..] == order
      invariant failures == PlanOf(order, modes, position)
    {
      failures := InsertFailure(failures, InjectedFailure(indexes[position], modes[position % |modes|]));
      position := position + 1;
    }
    PlanFacts(order, includeTimeouts);
  }

  /** The plan of any shuffle: every index in its place, every mode in its share. */
  lemma PlanFacts(order: seq<nat>, includeTimeouts: bool)
    requires Permutation(order)
    ensures var plan, modes := PlanOf(order, Modes(includeTimeouts), |order|), Modes(includeTimeouts);
            && (forall i :: 0 <= i < |order| ==> plan[i].index == i)
            && (forall r :: 0 <= r < |modes| ==> CountMode(plan, modes[r]) == Share(|order|, |modes|, r))
  {
    var modes := Modes(includeTimeouts);
    forall i | 0 <= i < |order|
      ensures PlanOf(order, modes, |order|)[i].index == i
    {
      var p := PlanCoversIndexes(order, modes, i);
    }
    forall r | 0 <= r < |modes|
      ensures CountMode(PlanOf(order, modes, |order|), modes[r]) == Share(|order|, |modes|, r)
    {
      PlanCounts(order, modes, |order|, r);
    }
  }
}
