/** The cost telemetry ledger and the rollup that checks its records. Costs are exact
    integers in the smallest currency unit. */
module Ledger {
  import opened Domain

  datatype CostRecord = CostRecord(runId: RunId, jobId: JobId, cost: int)
  datatype BlockReason = BudgetOverrun | ModelCallLimit
  datatype Block = Block(runId: RunId, jobId: JobId, reason: BlockReason, attempted: int, limit: int)

  /** What a ledger has accepted and blocked so far. */
  datatype Book = Book(records: seq<CostRecord>, blocks: seq<Block>)
  datatype Limits = Limits(budget: int, maxCalls: int)

  ghost function TotalCost(records: seq<CostRecord>): int {
    if records == [] then 0 else TotalCost(records[..|records| - 1]) + records[|records| - 1].cost
  }

  lemma TotalCostAppend(records: seq<CostRecord>, r: CostRecord)
    ensures TotalCost(records + [r]) == TotalCost(records) + r.cost
  {
    assert (records + [r])[..|records|] == records;
  }

  /** Whether, and why, a call is blocked. */
  ghost function Verdict(l: Limits, records: seq<CostRecord>, r: CostRecord): Option<BlockReason> {
    if TotalCost(records) + r.cost > l.budget then Some(BudgetOverrun)
    else if |records| + 1 > l.maxCalls then Some(ModelCallLimit)
    else None
  }

  ghost function Enter(l: Limits, b: Book, r: CostRecord): Book {
    var v := Verdict(l, b.records, r);
    if v.Some? then
      b.(blocks := b.blocks + [Block(r.runId, r.jobId, v.value, TotalCost(b.records) + r.cost, l.budget)])
    else b.(records := b.records + [r])
  }

  /** What one call does to the books: it becomes a record if it fits, and otherwise a block that
      names the call, the total that it would have led to, the budget and the limit that failed. */
  ghost predicate Answered(l: Limits, before: Book, r: CostRecord, after: Book) {
    var attempted := TotalCost(before.records) + r.cost;
    if attempted <= l.budget && |before.records| < l.maxCalls then
      after.records == before.records + [r] && after.blocks == before.blocks
    else
      && after.records == before.records && |after.blocks| == |before.blocks| + 1 && before.blocks <= after.blocks
      && BlockFor(l, before, r, after.blocks[|before.blocks|])
  }

  ghost predicate BlockFor(l: Limits, before: Book, r: CostRecord, block: Block) {
    var attempted := TotalCost(before.records) + r.cost;
    && block.runId == r.runId && block.jobId == r.jobId && block.attempted == attempted && block.limit == l.budget
    && (block.reason == BudgetOverrun <==> attempted > l.budget)
    && (block.reason == ModelCallLimit <==> attempted <= l.budget && |before.records| >= l.maxCalls)
  }

  method SumCosts(records: seq<CostRecord>) returns (total: int)
    ensures total == TotalCost(records)
  {
    total := 0;
    var k := 0;
    while k < |records|
      invariant k <= |records| && total == TotalCost(records[..k])
    {
      assert records[..k + 1] == records[..k] + [records[k]];
      TotalCostAppend(records[..k], records[k]);
      total := total + records[k].cost;
      k := k + 1;
    }
    assert records[..k] == records;
  }

  class CostTelemetryLedger {
    const limits: Limits
    var records: seq<CostRecord>
    var blocks: seq<Block>

    ghost function View(): Book
      reads this
    {
      Book(records, blocks)
    }

    constructor (limits: Limits)
      ensures this.limits == limits && View() == Book([], [])
    {
      this.limits := limits;
      records, blocks := [], [];
    }

    method TotalCostSoFar() returns (total: int)
      ensures total == TotalCost(records)
    {
      total := SumCosts(records);
    }

    method RecordLiveJob(r: CostRecord) returns (accepted: bool)
      modifies this
      ensures View() == Enter(limits, old(View()), r)
      ensures accepted <==> Verdict(limits, old(records), r).None?
      ensures Answered(limits, old(View()), r, View())
    {
      var total := TotalCostSoFar();
      if total + r.cost > limits.budget {
        RecordBudgetBlock(r, BudgetOverrun, total + r.cost);
        return false;
      }
      if |records| + 1 > limits.maxCalls {
        RecordBudgetBlock(r, ModelCallLimit, total + r.cost);
        return false;
      }
      records := records + [r];
      return true;
    }

    method RecordBudgetBlock(r: CostRecord, reason: BlockReason, attempted: int)
      modifies this
      ensures View()
           == old(View()).(blocks := old(blocks) + [Block(r.runId, r.jobId, reason, attempted, limits.budget)])
    {
      blocks := blocks + [Block(r.runId, r.jobId, reason, attempted, limits.budget)];
    }
  }

  // ----- any sequence of calls -----

  ghost function After(l: Limits, b: Book, calls: seq<CostRecord>): Book
    decreases |calls|
  {
    if calls == [] then b else After(l, Enter(l, b, calls[0]), calls[1..])
  }

  lemma {:induction false} AfterOneMore(l: Limits, b: Book, calls: seq<CostRecord>, r: CostRecord)
    ensures After(l, b, calls + [r]) == Enter(l, After(l, b, calls), r)
    decreases |calls|
  {
    if calls == [] {
      assert ([] + [r])[1..] == [];
    } else {
      AfterOneMore(l, Enter(l, b, calls[0]), calls[1..], r);
      assert (calls + [r])[1..] == calls[1..] + [r];
    }
  }

  /** Every call of every sequence is answered as it should be. */
  lemma EveryCallIsAnswered(l: Limits, calls: seq<CostRecord>, i: nat)
    requires i < |calls|
    ensures Answered(l, After(l, Book([], []), calls[..i]), calls[i], After(l, Book([], []), calls[..i + 1]))
  {
    AfterOneMore(l, Book([], []), calls[..i], calls[i]);
    assert calls[..i + 1] == calls[..i] + [calls[i]];
  }

  /** Every block of a ledger is that of one call, judged by what was accepted before it. */
  lemma {:induction false} BlockOrigin(l: Limits, calls: seq<CostRecord>, k: nat) returns (i: nat)
    requires k < |After(l, Book([], []), calls).blocks|
    ensures i < |calls|
    ensures BlockFor(l, After(l, Book([], []), calls[..i]), calls[i], After(l, Book([], []), calls).blocks[k])
    decreases |calls|
  {
    assert calls != [];
    var n := |calls| - 1;
    EveryCallIsAnswered(l, calls, n);
    assert calls[..n + 1] == calls;
    if k < |After(l, Book([], []), calls[..n]).blocks| {
      i := BlockOrigin(l, calls[..n], k);
      assert calls[..n][..i] == calls[..i];
    } else {
      i := n;
    }
  }

  ghost predicate WithinLimits(l: Limits, b: Book) {
    TotalCost(b.records) <= l.budget && (|b.records| <= l.maxCalls || b.records == [])
  }

  lemma EnterKeepsLimits(l: Limits, b: Book, r: CostRecord)
    requires WithinLimits(l, b)
    ensures WithinLimits(l, Enter(l, b, r))
  {
    TotalCostAppend(b.records, r);
  }

  /** With a non-negative budget, whatever is called: the total stays within the budget, the
      records within the call limit, and every call is either a record or a block. */
  lemma {:induction false} LedgerStaysWithin(l: Limits, b: Book, calls: seq<CostRecord>)
    requires WithinLimits(l, b)
    ensures WithinLimits(l, After(l, b, calls))
    ensures |After(l, b, calls).records| + |After(l, b, calls).blocks| == |b.records| + |b.blocks| + |calls|
    ensures b.records <= After(l, b, calls).records && b.blocks <= After(l, b, calls).blocks
    decreases |calls|
  {
    if calls != [] {
      EnterKeepsLimits(l, b, calls[0]);
      LedgerStaysWithin(l, Enter(l, b, calls[0]), calls[1..]);
    }
  }

  ghost predicate NonNegative(records: seq<CostRecord>) {
    forall k :: 0 <= k < |records| ==> records[k].cost >= 0
  }

  lemma {:induction false} CostsOnlyAdd(l: Limits, b: Book, calls: seq<CostRecord>)
    requires NonNegative(calls)
    ensures TotalCost(After(l, b, calls).records) >= TotalCost(b.records)
    ensures |After(l, b, calls).records| >= |b.records|
    decreases |calls|
  {
    if calls != [] {
      TotalCostAppend(b.records, calls[0]);
      CostsOnlyAdd(l, Enter(l, b, calls[0]), calls[1..]);
    }
  }

  /** With non-negative costs, once a call is blocked every later call that costs at least as
      much is blocked too. */
  lemma BlockedStaysBlocked(l: Limits, b: Book, r: CostRecord, between: seq<CostRecord>, again: CostRecord)
    requires Verdict(l, b.records, r).Some? && NonNegative(between) && again.cost >= r.cost
    ensures Verdict(l, After(l, Enter(l, b, r), between).records, again).Some?
  {
    CostsOnlyAdd(l, Enter(l, b, r), between);
  }

  // ----- the rollup -----

  ghost function GroupTotal(records: seq<CostRecord>, key: CostRecord -> nat, g: nat): int {
    if records == [] then 0
    else
      var last := records[|records| - 1];
      GroupTotal(records[..|records| - 1], key, g) + if key(last) == g then last.cost else 0
  }

  lemma GroupTotalAppend(records: seq<CostRecord>, r: CostRecord, key: CostRecord -> nat, g: nat)
    ensures GroupTotal(records + [r], key, g) == GroupTotal(records, key, g) + if key(r) == g then r.cost else 0
  {
    assert (records + [r])[..|records|] == records;
  }

  ghost function SumOver(records: seq<CostRecord>, key: CostRecord -> nat, groups: seq<nat>): int {
    if groups == [] then 0
    else SumOver(records, key, groups[..|groups| - 1]) + GroupTotal(records, key, groups[|groups| - 1])
  }

  ghost predicate DistinctGroups(groups: seq<nat>) {
    forall k, l :: 0 <= k < l < |groups| ==> groups[k] != groups[l]
  }

  lemma {:induction false} SumOverAppend(records: seq<CostRecord>, r: CostRecord, key: CostRecord -> nat,
                                         groups: seq<nat>)
    requires DistinctGroups(groups)
    ensures SumOver(records + [r], key, groups)
         == SumOver(records, key, groups) + if key(r) in groups then r.cost else 0
  {
    if groups != [] {
      var n := |groups| - 1;
      SumOverAppend(records, r, key, groups[..n]);
      GroupTotalAppend(records, r, key, groups[n]);
      assert groups == groups[..n] + [groups[n]];
      assert groups[n] !in groups[..n];
    }
  }

  /** The group totals, per run or per job, add up to the total. */
  lemma {:induction false} GroupsAddUpToTotal(records: seq<CostRecord>, key: CostRecord -> nat, groups: seq<nat>)
    requires DistinctGroups(groups) && forall k :: 0 <= k < |records| ==> key(records[k]) in groups
    ensures SumOver(records, key, groups) == TotalCost(records)
  {
    if records == [] {
      NothingToSum(key, groups);
    } else {
      var n := |records| - 1;
      GroupsAddUpToTotal(records[..n], key, groups);
      SumOverAppend(records[..n], records[n], key, groups);
      assert records == records[..n] + [records[n]];
    }
  }

  lemma {:induction false} NothingToSum(key: CostRecord -> nat, groups: seq<nat>)
    ensures SumOver([], key, groups) == 0
  {
    if groups != [] {
      NothingToSum(key, groups[..|groups| - 1]);
    }
  }

  ghost predicate Occurs(records: seq<CostRecord>, key: CostRecord -> nat, g: nat) {
    exists k :: 0 <= k < |records| && key(records[k]) == g
  }

  /** A dictionary of totals for the groups that occur. */
  ghost predicate Totalled(records: seq<CostRecord>, key: CostRecord -> nat, totals: map<nat, int>) {
    && (forall k :: 0 <= k < |records| ==> key(records[k]) in totals)
    && (forall g :: g in totals ==> totals[g] == GroupTotal(records, key, g) && Occurs(records, key, g))
    && (forall g: nat :: g !in totals ==> GroupTotal(records, key, g) == 0)
  }

  /** defaultdict(Decimal): add the cost to the group's entry. */
  method AddTo(totals: map<nat, int>, r: CostRecord, key: CostRecord -> nat, ghost before: seq<CostRecord>)
    returns (totals': map<nat, int>)
    requires Totalled(before, key, totals)
    ensures Totalled(before + [r], key, totals')
  {
    totals' := totals[key(r) := (if key(r) in totals then totals[key(r)] else 0) + r.cost];
    forall g: nat
      ensures GroupTotal(before + [r], key, g) == GroupTotal(before, key, g) + if key(r) == g then r.cost else 0
    {
      GroupTotalAppend(before, r, key, g);
    }
    forall g | g in totals'
      ensures Occurs(before + [r], key, g)
    {
      if g == key(r) {
        assert (before + [r])[|before|] == r;
      } else {
        var k :| 0 <= k < |before| && key(before[k]) == g;
        assert (before + [r])[k] == before[k];
      }
    }
  }

  const BY_RUN: CostRecord -> nat := (r: CostRecord) => r.runId
  const BY_JOB: CostRecord -> nat := (r: CostRecord) => r.jobId

  /** The two dictionaries of render_cost_rollup. */
  method RollupTotals(records: seq<CostRecord>) returns (runTotals: map<nat, int>, jobTotals: map<nat, int>)
    ensures Totalled(records, BY_RUN, runTotals) && Totalled(records, BY_JOB, jobTotals)
    ensures forall k :: 0 <= k < |records| ==> records[k].runId in runTotals && records[k].jobId in jobTotals
  {
    runTotals, jobTotals := map[], map[];
    var k := 0;
    while k < |records|
      invariant k <= |records|
      invariant Totalled(records[..k], BY_RUN, runTotals) && Totalled(records[..k], BY_JOB, jobTotals)
    {
      runTotals := AddTo(runTotals, records[k], BY_RUN, records[..k]);
      jobTotals := AddTo(jobTotals, records[k], BY_JOB, records[..k]);
      assert records[..k + 1] == records[..k] + [records[k]];
      k := k + 1;
    }
    assert records[..k] == records;
  }

  /** Every run that occurs costs at most the limit. */
  ghost predicate RunsWithin(records: seq<CostRecord>, limit: int) {
    forall k :: 0 <= k < |records| ==> GroupTotal(records, BY_RUN, records[k].runId) <= limit
  }

  datatype RollupError = TotalOver(total: int) | RunOver(run: nat, total: int)

  lemma LimitsByRecord(records: seq<CostRecord>, totals: map<nat, int>, limit: int)
    requires Totalled(records, BY_RUN, totals)
    ensures (forall g :: g in totals ==> totals[g] <= limit)
       <==> RunsWithin(records, limit)
  {
    if RunsWithin(records, limit) {
      forall g | g in totals
        ensures totals[g] <= limit
      {
        assert Occurs(records, BY_RUN, g);
        var k :| 0 <= k < |records| && BY_RUN(records[k]) == g;
      }
    }
    if forall g :: g in totals ==> totals[g] <= limit {
      forall k | 0 <= k < |records|
        ensures GroupTotal(records, BY_RUN, records[k].runId) <= limit
      {
        assert BY_RUN(records[k]) in totals;
      }
    }
  }

  /** The runs over the limit, in no particular order here. */
  method RunsOver(totals: map<nat, int>, limit: int) returns (errors: seq<RollupError>)
    ensures errors == [] <==> forall g :: g in totals ==> totals[g] <= limit
    ensures forall e :: e in errors <==> e.RunOver? && e.run in totals && e.total == totals[e.run] > limit
  {
    errors := [];
    var todo := totals.Keys;
    while todo != {}
      invariant todo <= totals.Keys
      invariant errors == [] <==> forall g :: g in totals && g !in todo ==> totals[g] <= limit
      invariant forall e :: e in errors <==>
                  e.RunOver? && e.run in totals && e.run !in todo && e.total == totals[e.run] > limit
    {
      var g :| g in todo;
      if totals[g] > limit {
        errors := errors + [RunOver(g, totals[g])];
      }
      todo := todo - {g};
    }
  }

  method RunErrors(records: seq<CostRecord>, limit: int) returns (errors: seq<RollupError>)
    ensures errors == [] <==> RunsWithin(records, limit)
    ensures forall e :: e in errors <==> e.RunOver? && RunIsOver(records, limit, e.run, e.total)
  {
    var runTotals, _ := RollupTotals(records);
    errors := RunsOver(runTotals, limit);
    LimitsByRecord(records, runTotals, limit);
    ErrorsAre(records, runTotals, limit, errors);
  }

  lemma ErrorsAre(records: seq<CostRecord>, totals: map<nat, int>, limit: int, errors: seq<RollupError>)
    requires Totalled(records, BY_RUN, totals)
    requires forall e :: e in errors <==> e.RunOver? && e.run in totals && e.total == totals[e.run] > limit
    ensures forall e :: e in errors <==> e.RunOver? && RunIsOver(records, limit, e.run, e.total)
  {
    forall e: RollupError
      ensures e in errors <==> e.RunOver? && RunIsOver(records, limit, e.run, e.total)
    {
      if e.RunOver? {
        OverInTotals(records, totals, limit, e.run, e.total);
      }
    }
  }

  lemma OverInTotals(records: seq<CostRecord>, totals: map<nat, int>, limit: int, run: nat, total: int)
    requires Totalled(records, BY_RUN, totals)
    ensures RunIsOver(records, limit, run, total) <==> run in totals && total == totals[run] > limit
  {
    if run in totals {
      assert Occurs(records, BY_RUN, run);
      var k :| 0 <= k < |records| && BY_RUN(records[k]) == run;
      assert records[k].runId == run;
    }
    if k :| 0 <= k < |records| && records[k].runId == run {
      assert BY_RUN(records[k]) in totals;
    }
  }

  /** The run occurs, costs the total, and that is over the limit. */
  ghost predicate RunIsOver(records: seq<CostRecord>, limit: int, run: nat, total: int) {
    && (exists k :: 0 <= k < |records| && records[k].runId == run)
    && total == GroupTotal(records, BY_RUN, run) > limit
  }

  /** validate_cost_rollup: no error exactly when the total and every run are within the
      limits that are given. */
  method ValidateCostRollup(records: seq<CostRecord>, maxTotal: Option<int>, maxRun: Option<int>)
    returns (errors: seq<RollupError>)
    ensures errors == [] <==>
      && (maxTotal.Some? ==> TotalCost(records) <= maxTotal.value)
      && (maxRun.Some? ==> RunsWithin(records, maxRun.value))
    ensures forall e :: e in errors <==>
              if e.RunOver? then maxRun.Some? && RunIsOver(records, maxRun.value, e.run, e.total)
              else maxTotal.Some? && e.total == TotalCost(records) > maxTotal.value
  {
    errors := [];
    var total := SumCosts(records);
    if maxTotal.Some? && total > maxTotal.value {
      errors := [TotalOver(total)];
    }
    if maxRun.Some? {
      var over := RunErrors(records, maxRun.value);
      errors := errors + over;
    }
  }

  lemma {:induction false} GroupWithinTotal(records: seq<CostRecord>, key: CostRecord -> nat, g: nat)
    requires NonNegative(records)
    ensures 0 <= GroupTotal(records, key, g) <= TotalCost(records)
  {
    if records != [] {
      GroupWithinTotal(records[..|records| - 1], key, g);
    }
  }

  lemma {:induction false} AcceptedAreNonNegative(l: Limits, b: Book, calls: seq<CostRecord>)
    requires NonNegative(b.records) && NonNegative(calls)
    ensures NonNegative(After(l, b, calls).records)
    decreases |calls|
  {
    if calls != [] {
      AcceptedAreNonNegative(l, Enter(l, b, calls[0]), calls[1..]);
    }
  }

  // ----- which costs keep the per-run limit -----

  ghost predicate AtLeast(calls: seq<CostRecord>, c: int) {
    forall k :: 0 <= k < |calls| ==> calls[k].cost >= c
  }

  /** Whatever a ledger accepts from such calls passes the per-run limit at its budget. */
  ghost predicate AlwaysWithin(l: Limits, c: int) {
    forall calls :: AtLeast(calls, c) ==> RunsWithin(After(l, Book([], []), calls).records, l.budget)
  }

  /** A credit in one run lets another run overspend: after a call of negative cost c, one of
      cost budget - c in another run is accepted, and that run is over the budget. */
  lemma CreditsBreakRunLimit(l: Limits, a: CostRecord, b: CostRecord)
    requires l.maxCalls >= 2 && a.cost < 0 && a.cost <= l.budget && b.cost == l.budget - a.cost && a.runId != b.runId
    ensures After(l, Book([], []), [a, b]) == Book([a, b], [])
    ensures TotalCost([a, b]) == l.budget && GroupTotal([a, b], BY_RUN, b.runId) > l.budget
    ensures !RunsWithin([a, b], l.budget)
  {
    assert TotalCost([]) == 0;
    TotalCostAppend([], a);
    TotalCostAppend([a], b);
    assert [] + [a] == [a] && [a] + [b] == [a, b] && [a, b][1..] == [b] && [b][1..] == [];
    assert Enter(l, Book([], []), a) == Book([a], []);
    assert Enter(l, Book([a], []), b) == Book([a, b], []);
    assert After(l, Book([a], []), [b]) == Book([a, b], []);
    GroupTotalAppend([], a, BY_RUN, b.runId);
    GroupTotalAppend([a], b, BY_RUN, b.runId);
    assert GroupTotal([a, b], BY_RUN, [a, b][1].runId) > l.budget;
  }

  /** What is accepted is within both limits, whatever the sign of the budget. */
  lemma {:induction false} AcceptedWithin(l: Limits, b: Book, calls: seq<CostRecord>)
    requires b.records == [] || (TotalCost(b.records) <= l.budget && |b.records| <= l.maxCalls)
    ensures var records := After(l, b, calls).records;
            records == [] || (TotalCost(records) <= l.budget && |records| <= l.maxCalls)
    decreases |calls|
  {
    if calls != [] {
      TotalCostAppend(b.records, calls[0]);
      AcceptedWithin(l, Enter(l, b, calls[0]), calls[1..]);
    }
  }

  lemma {:induction false} AllTooDear(l: Limits, b: Book, calls: seq<CostRecord>, c: int)
    requires b.records == [] && AtLeast(calls, c) && c > l.budget
    ensures After(l, b, calls).records == []
    decreases |calls|
  {
    if calls != [] {
      AllTooDear(l, Enter(l, b, calls[0]), calls[1..], c);
    }
  }

  lemma NeverOver(l: Limits, c: int, calls: seq<CostRecord>)
    requires (c >= 0 || c > l.budget || l.maxCalls < 2) && AtLeast(calls, c)
    ensures RunsWithin(After(l, Book([], []), calls).records, l.budget)
  {
    var records := After(l, Book([], []), calls).records;
    AcceptedWithin(l, Book([], []), calls);
    if c >= 0 {
      AcceptedAreNonNegative(l, Book([], []), calls);
      forall k | 0 <= k < |records|
        ensures GroupTotal(records, BY_RUN, records[k].runId) <= l.budget
      {
        GroupWithinTotal(records, BY_RUN, records[k].runId);
      }
    } else if c > l.budget {
      AllTooDear(l, Book([], []), calls, c);
    } else if records != [] {
      OneRecordWithin(records[0], l.budget);
      assert records == [records[0]];
    }
  }

  lemma OneRecordWithin(r: CostRecord, budget: int)
    requires TotalCost([r]) <= budget
    ensures RunsWithin([r], budget)
  {
    assert [r][1..] == [];
  }

  /** What a ledger accepts always passes the rollup at its own budget, in total (unless the
      budget is negative and nothing was accepted) and, if costs are not negative, in every run. */
  lemma LedgerPassesRollup(l: Limits, calls: seq<CostRecord>)
    ensures var records := After(l, Book([], []), calls).records;
            && (TotalCost(records) <= l.budget || (records == [] && l.budget < 0))
            && (NonNegative(calls) ==> RunsWithin(records, l.budget))
  {
    AcceptedWithin(l, Book([], []), calls);
    if NonNegative(calls) {
      NeverOver(l, 0, calls);
    }
  }

  /** For every lower bound c on the costs, accepted records always pass the per-run limit if
      and only if costs cannot be negative, or even the cheapest call is over the budget, or
      there is no second call. */
  lemma RunLimitHoldsIff(l: Limits, c: int)
    ensures AlwaysWithin(l, c) <==> c >= 0 || c > l.budget || l.maxCalls < 2
  {
    if c >= 0 || c > l.budget || l.maxCalls < 2 {
      forall calls | AtLeast(calls, c)
        ensures RunsWithin(After(l, Book([], []), calls).records, l.budget)
      {
        NeverOver(l, c, calls);
      }
    } else {
      var a, b := CostRecord(0, 0, c), CostRecord(1, 1, l.budget - c);
      CreditsBreakRunLimit(l, a, b);
      assert AtLeast([a, b], c);
    }
  }
}
