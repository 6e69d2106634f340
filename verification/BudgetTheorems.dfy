/** Budget safety over every run of reservations and settlements. */
module BudgetTheorems {
  import opened Common
  import opened Rounding
  import opened Budget

  // ----- Estimates -----

  /** More tokens never cost less, and nothing costs less than zero. */
  ghost predicate Fair(cost: Cost) {
    && (forall i: nat, o: nat :: cost(i, o) >= 0.0)
    && (forall i: nat, o: nat, i': nat, o': nat :: i <= i' && o <= o' ==> cost(i, o) <= cost(i', o'))
  }

  lemma ExactMonotone(rates: Rates, i: nat, o: nat, i': nat, o': nat)
    requires i <= i' && o <= o'
    ensures 0.0 <= ExactCost(rates, i, o) <= ExactCost(rates, i', o')
  {
    NonNegativeProduct(i as real, rates.inputPerMillion);
    NonNegativeProduct(o as real, rates.outputPerMillion);
    ScaleInequality(rates.inputPerMillion, i as real, i' as real);
    ScaleInequality(rates.outputPerMillion, o as real, o' as real);
  }

  /** An estimate is never below the exact cost, less than a quantum above it, and grows with usage. */
  lemma EstimateRoundsUp(rates: Rates, i: nat, o: nat, i': nat, o': nat)
    ensures ExactCost(rates, i, o) <= Estimate(rates, i, o) < ExactCost(rates, i, o) + QUANTUM
    ensures i <= i' && o <= o' ==> Estimate(rates, i, o) <= Estimate(rates, i', o')
  {
    CeilToBounds(ExactCost(rates, i, o), QUANTUM);
    if i <= i' && o <= o' {
      ExactMonotone(rates, i, o, i', o');
      CeilToMonotone(ExactCost(rates, i, o), ExactCost(rates, i', o'), QUANTUM);
    }
  }

  lemma RatesAreFair(rates: Rates)
    ensures Fair(CostOf(rates))
  {
    var cost := CostOf(rates);
    forall i: nat, o: nat ensures cost(i, o) >= 0.0 {
      ExactMonotone(rates, i, o, i, o);
      EstimateRoundsUp(rates, i, o, i, o);
    }
    forall i: nat, o: nat, i': nat, o': nat | i <= i' && o <= o' ensures cost(i, o) <= cost(i', o') {
      EstimateRoundsUp(rates, i, o, i', o');
    }
  }

  // ----- What the books say -----

  /** The cost of every settlement whose usage is known. */
  function Settled(cost: Cost, entries: seq<Entry>): real {
    if entries == [] then 0.0
    else
      var e := entries[|entries| - 1];
      Settled(cost, entries[..|entries| - 1])
      + if e.settled.Some? && e.settled.value.known then cost(e.settled.value.input, e.settled.value.output) else 0.0
  }

  /** How far a settlement went beyond its reservation. */
  function Overrun(cost: Cost, e: Entry): real {
    if e.settled.None? then 0.0
    else Larger(0.0, cost(e.settled.value.input, e.settled.value.output) - cost(e.maximum.input, e.maximum.output))
  }

  function Overruns(cost: Cost, entries: seq<Entry>): real {
    if entries == [] then 0.0 else Overruns(cost, entries[..|entries| - 1]) + Overrun(cost, entries[|entries| - 1])
  }

  predicate EntryOk(cost: Cost, e: Entry) {
    && (Holds(e) ==> e.amount == cost(e.maximum.input, e.maximum.output) + Overrun(cost, e))
  }

  lemma OneChanged(cost: Cost, entries: seq<Entry>, i: nat, e: Entry)
    requires i < |entries|
    ensures var next := entries[i := e];
      && Held(next) == Held(entries) - Held([entries[i]]) + Held([e])
      && Overruns(cost, next) == Overruns(cost, entries) - Overrun(cost, entries[i]) + Overrun(cost, e)
      && Settled(cost, next) == Settled(cost, entries) - Settled(cost, [entries[i]]) + Settled(cost, [e])
    decreases |entries|
  {
    var next, n := entries[i := e], |entries| - 1;
    if i == n {
      assert next[..n] == entries[..n];
      assert [e][..0] == [] && [entries[i]][..0] == [];
    } else {
      OneChanged(cost, entries[..n], i, e);
      assert next[..n] == entries[..n][i := e];
    }
  }

  lemma OneAdded(cost: Cost, entries: seq<Entry>, e: Entry)
    ensures var next := entries + [e];
      && Held(next) == Held(entries) + (if Holds(e) then e.amount else 0.0)
      && Overruns(cost, next) == Overruns(cost, entries) + Overrun(cost, e)
      && Settled(cost, next) == Settled(cost, entries) + Settled(cost, [e])
  {
    var next := entries + [e];
    assert next[..|entries|] == entries;
    assert [e][..0] == [];
  }

  // ----- The invariant -----

  predicate EntriesOk(cost: Cost, entries: seq<Entry>) {
    && (forall i, j :: 0 <= i < j < |entries| ==> entries[i].run != entries[j].run)
    && (forall i :: 0 <= i < |entries| ==> EntryOk(cost, entries[i]))
  }

  lemma EntriesExtend(cost: Cost, entries: seq<Entry>, e: Entry)
    requires EntriesOk(cost, entries) && EntryOk(cost, e) && forall i :: 0 <= i < |entries| ==> entries[i].run != e.run
    ensures EntriesOk(cost, entries + [e])
  {
  }

  ghost predicate Balanced(limit: Limit, entries: seq<Entry>, spent: real) {
    && EntriesOk(limit.cost, entries) && |entries| <= limit.maxRuns
    && spent == Settled(limit.cost, entries)
    && spent + Held(entries) <= limit.ceiling + Overruns(limit.cost, entries)
  }

  ghost predicate Inv(limit: Limit, b: Books) {
    && Balanced(limit, b.entries, b.spent)
    && (!b.paused ==> Overruns(limit.cost, b.entries) == 0.0)
    && |b.alerts| == if b.paused then 1 else 0
  }

  lemma AdmittedStaysBalanced(limit: Limit, entries: seq<Entry>, spent: real, e: Entry)
    requires Fair(limit.cost) && Balanced(limit, entries, spent) && |entries| < limit.maxRuns
    requires forall i :: 0 <= i < |entries| ==> entries[i].run != e.run
    requires e.settled.None? && e.amount == limit.cost(e.maximum.input, e.maximum.output)
    requires Overruns(limit.cost, entries) == 0.0 && spent + Held(entries) + e.amount <= limit.ceiling
    ensures Balanced(limit, entries + [e], spent) && Overruns(limit.cost, entries + [e]) == 0.0
  {
    EntriesExtend(limit.cost, entries, e);
    OneAdded(limit.cost, entries, e);
    assert Settled(limit.cost, [e]) == 0.0 by { assert [e][..0] == []; }
  }

  lemma ReserveKeeps(limit: Limit, b: Books, run: int, input: int, output: int)
    requires Fair(limit.cost) && Inv(limit, b)
    ensures Inv(limit, Reserve(limit, b, run, input, output).0)
  {
    var next := Reserve(limit, b, run, input, output).0;
    if next.entries != b.entries {
      var e := Entry(run, Usage(input, output, true), limit.cost(input, output), None);
      AdmittedStaysBalanced(limit, b.entries, b.spent, e);
    }
  }

  /** What booking one settlement does to the sums. */
  lemma SettledSums(limit: Limit, entries: seq<Entry>, i: nat, usage: Usage)
    requires Fair(limit.cost) && i < |entries| && entries[i].settled.None? && EntryOk(limit.cost, entries[i])
    ensures var cost := limit.cost(usage.input, usage.output);
      var e := SettledEntry(limit, entries[i], usage);
      var next := entries[i := e];
      && EntryOk(limit.cost, e)
      && Settled(limit.cost, next) == Settled(limit.cost, entries) + (if usage.known then cost else 0.0)
      && Overruns(limit.cost, next) == Overruns(limit.cost, entries) + Overrun(limit.cost, e)
      && Held(next) + (if usage.known then cost else 0.0) <= Held(entries) + Overrun(limit.cost, e)
      && (!Exceeds(usage, entries[i].maximum) ==> Overrun(limit.cost, e) == 0.0)
  {
    var e := SettledEntry(limit, entries[i], usage);
    OneChanged(limit.cost, entries, i, e);
    assert [e][..0] == [] && [entries[i]][..0] == [];
  }

  lemma SettledStaysBalanced(limit: Limit, entries: seq<Entry>, spent: real, i: nat, usage: Usage)
    requires Fair(limit.cost) && Balanced(limit, entries, spent) && i < |entries| && entries[i].settled.None?
    ensures var cost := limit.cost(usage.input, usage.output);
      var next := entries[i := SettledEntry(limit, entries[i], usage)];
      && Balanced(limit, next, if usage.known then spent + cost else spent)
      && (!Exceeds(usage, entries[i].maximum) ==> Overruns(limit.cost, next) == Overruns(limit.cost, entries))
  {
    assert EntryOk(limit.cost, entries[i]);
    SettledSums(limit, entries, i, usage);
  }

  lemma SettleKeeps(limit: Limit, b: Books, run: int, input: int, output: int, known: bool)
    requires Fair(limit.cost) && Inv(limit, b)
    ensures Inv(limit, Settle(limit, b, run, input, output, known).0)
  {
    var i := Find(b.entries, run);
    if TokensOk(input, output) && i < |b.entries| && b.entries[i].settled.None? {
      SettledStaysBalanced(limit, b.entries, b.spent, i, Usage(input, output, known));
    }
  }

  /** Every run keeps the books in order. */
  lemma {:induction false} RunKeeps(limit: Limit, steps: seq<Step>)
    requires Fair(limit.cost)
    ensures Inv(limit, Run(limit, steps))
  {
    if steps != [] {
      var before, step := steps[..|steps| - 1], steps[|steps| - 1];
      RunKeeps(limit, before);
      match step {
        case ReserveStep(run, input, output) => ReserveKeeps(limit, Run(limit, before), run, input, output);
        case SettleStep(run, input, output, known) => SettleKeeps(limit, Run(limit, before), run, input, output, known);
      }
    }
  }

  // ----- Theorems -----

  function LimitOf(ceiling: Positive, rates: Rates, maxRuns: nat): Limit {
    Limit(ceiling, CostOf(rates), maxRuns)
  }

  /** In every run: a guard that is not paused has spent and held no more than its ceiling; spending is the
    * rounded-up cost of the known settlements; and a paused guard is over its ceiling by no more than its
    * settlements went over their reservations. */
  lemma BudgetIsSafe(ceiling: Positive, rates: Rates, maxRuns: nat, steps: seq<Step>)
    ensures var limit := LimitOf(ceiling, rates, maxRuns);
      var b := Run(limit, steps);
      && (!b.paused ==> b.spent + Held(b.entries) <= ceiling)
      && b.spent == Settled(limit.cost, b.entries)
      && b.spent + Held(b.entries) <= ceiling + Overruns(limit.cost, b.entries)
      && |b.entries| <= maxRuns
      && |b.alerts| == if b.paused then 1 else 0
  {
    RatesAreFair(rates);
    RunKeeps(LimitOf(ceiling, rates, maxRuns), steps);
  }

  predicate Honest(e: Entry) { e.settled.Some? ==> !Exceeds(e.settled.value, e.maximum) }

  lemma {:induction false} HonestHasNoOverrun(cost: Cost, entries: seq<Entry>)
    requires Fair(cost) && forall i :: 0 <= i < |entries| ==> Honest(entries[i])
    ensures Overruns(cost, entries) == 0.0
  {
    if entries != [] {
      HonestHasNoOverrun(cost, entries[..|entries| - 1]);
      assert Honest(entries[|entries| - 1]);
    }
  }

  /** While no settlement exceeds its reservation the ceiling holds, paused or not. */
  lemma HonestRunsStayWithinCeiling(ceiling: Positive, rates: Rates, maxRuns: nat, steps: seq<Step>)
    requires forall e :: e in Run(LimitOf(ceiling, rates, maxRuns), steps).entries ==> Honest(e)
    ensures var b := Run(LimitOf(ceiling, rates, maxRuns), steps);
      b.spent + Held(b.entries) <= ceiling
  {
    RatesAreFair(rates);
    BudgetIsSafe(ceiling, rates, maxRuns, steps);
    HonestHasNoOverrun(CostOf(rates), Run(LimitOf(ceiling, rates, maxRuns), steps).entries);
  }

  /** The same runs are booked, under the same reservations. */
  predicate SameRuns(before: Books, after: Books) {
    && |after.entries| == |before.entries|
    && forall i :: 0 <= i < |before.entries| ==>
         after.entries[i].run == before.entries[i].run && after.entries[i].maximum == before.entries[i].maximum
  }

  lemma PausedStep(limit: Limit, b: Books, step: Step)
    requires b.paused
    ensures var after := Apply(limit, b, step);
      after.paused && after.alerts == b.alerts && SameRuns(b, after)
  {
  }

  /** A pause is for good: no later run of steps lifts it, adds an alert or admits a reservation. */
  lemma {:induction false} PauseIsPermanent(limit: Limit, steps: seq<Step>, more: seq<Step>)
    requires Run(limit, steps).paused
    ensures var before, after := Run(limit, steps), Run(limit, steps + more);
      after.paused && after.alerts == before.alerts && SameRuns(before, after)
    decreases |more|
  {
    if more == [] {
      assert steps + more == steps;
    } else {
      var n := |more| - 1;
      PauseIsPermanent(limit, steps, more[..n]);
      assert (steps + more)[..|steps + more| - 1] == steps + more[..n];
      PausedStep(limit, Run(limit, steps + more[..n]), more[n]);
    }
  }

  lemma FindIsFirst(entries: seq<Entry>, run: int, i: nat)
    requires i < |entries| && entries[i].run == run && forall j :: 0 <= j < i ==> entries[j].run != run
    ensures Find(entries, run) == i
  {
  }

  /** The run is booked and settled with this usage. */
  predicate IsSettled(b: Books, run: int, usage: Usage) {
    var i := Find(b.entries, run);
    i < |b.entries| && b.entries[i].settled == Some(usage)
  }

  /** A step leaves settled entries where and as they are. */
  predicate KeepsSettled(before: seq<Entry>, after: seq<Entry>) {
    && |before| <= |after|
    && forall i :: 0 <= i < |before| ==>
         after[i].run == before[i].run && (before[i].settled.Some? ==> after[i] == before[i])
  }

  lemma StepKeepsSettled(limit: Limit, b: Books, step: Step)
    ensures KeepsSettled(b.entries, Apply(limit, b, step).entries)
  {
  }

  lemma SettledStays(limit: Limit, b: Books, step: Step, run: int, usage: Usage)
    requires IsSettled(b, run, usage)
    ensures IsSettled(Apply(limit, b, step), run, usage)
  {
    StepKeepsSettled(limit, b, step);
    FindIsFirst(Apply(limit, b, step).entries, run, Find(b.entries, run));
  }

  lemma {:induction false} SettledForGood(limit: Limit, steps: seq<Step>, more: seq<Step>, run: int, usage: Usage)
    requires IsSettled(Run(limit, steps), run, usage)
    ensures IsSettled(Run(limit, steps + more), run, usage)
    decreases |more|
  {
    if more == [] {
      assert steps + more == steps;
    } else {
      var n := |more| - 1;
      SettledForGood(limit, steps, more[..n], run, usage);
      assert (steps + more)[..|steps + more| - 1] == steps + more[..n];
      SettledStays(limit, Run(limit, steps + more[..n]), more[n], run, usage);
    }
  }

  lemma SettleSettles(limit: Limit, b: Books, run: int, input: int, output: int, known: bool)
    requires Settle(limit, b, run, input, output, known).1.Ok?
    ensures TokensOk(input, output)
    ensures IsSettled(Settle(limit, b, run, input, output, known).0, run, Usage(input, output, known))
  {
    FindIsFirst(Settle(limit, b, run, input, output, known).0.entries, run, Find(b.entries, run));
  }

  /** A settlement is made once: after any further reservations and settlements of any runs, settling the
    * run again changes nothing, and is accepted if and only if it reports the usage first settled. */
  lemma SettlementReplays(
    limit: Limit, steps: seq<Step>, run: int, input: int, output: int, known: bool, more: seq<Step>,
    input': int, output': int, known': bool)
    requires Settle(limit, Run(limit, steps), run, input, output, known).1.Ok?
    ensures var later := Run(limit, steps + [SettleStep(run, input, output, known)] + more);
      var (after, replay) := Settle(limit, later, run, input', output', known');
      && after == later
      && (replay.Ok? <==> input' == input && output' == output && known' == known)
      && (replay.Ok? ==> replay.value == Snap(limit, later))
      && (replay.Err? ==> replay.error == if TokensOk(input', output') then SettlementConflict else UsageInvalid)
  {
    var settled := steps + [SettleStep(run, input, output, known)];
    assert settled[..|settled| - 1] == steps;
    SettleSettles(limit, Run(limit, steps), run, input, output, known);
    SettledForGood(limit, settled, more, run, Usage(input, output, known));
  }
}
