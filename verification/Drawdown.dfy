/** Return and drawdown of a net-asset-value series with external flows at the end of each period, in exact
  * arithmetic. */
module Drawdown {
  import opened Common
  import opened Rounding

  const METRIC_BOUND: real := 1000000000000000000000000.0

  datatype ReportError = ZeroBase | CashFlowInvalid | MetricLimit

  datatype Metrics = Metrics(totalReturn: real, maximumDrawdown: real, periodReturns: seq<real>)

  /** How many periods the three zipped sequences give. */
  function Periods(values: seq<real>, flows: seq<real>): nat {
    var n := if |values| < |flows| then |values| else |flows|;
    if n == 0 then 0 else n - 1
  }

  function Growth(values: seq<real>, flows: seq<real>, k: nat): real
    requires 1 <= k <= Periods(values, flows)
  {
    if values[k - 1] > 0.0 then (values[k] - flows[k]) / values[k - 1] else 0.0
  }

  /** The value index: 1 at the start, multiplied by each period's growth. */
  function Index(values: seq<real>, flows: seq<real>, k: nat): real
    requires k <= Periods(values, flows)
  {
    if k == 0 then 1.0 else Index(values, flows, k - 1) * Growth(values, flows, k)
  }

  function IndexCurve(values: seq<real>, flows: seq<real>, k: nat): seq<real>
    requires k <= Periods(values, flows)
  {
    seq(k + 1, i requires 0 <= i <= k => Index(values, flows, i))
  }

  function Abs(x: real): real { if x < 0.0 then -x else x }

  /** The error that stops the walk in period `k`, if any. */
  function PeriodError(values: seq<real>, flows: seq<real>, k: nat): Option<ReportError>
    requires 1 <= k <= Periods(values, flows)
  {
    if values[k - 1] <= 0.0 then Some(ZeroBase)
    else if values[k] - flows[k] < 0.0 then Some(CashFlowInvalid)
    else if Index(values, flows, k) > METRIC_BOUND || Abs(Growth(values, flows, k) - 1.0) > METRIC_BOUND then
      Some(MetricLimit)
    else None
  }

  /** Why a period stops the walk, in the order of the checks: it starts from nothing, its flow exceeds its value, or
    * the index or its return is out of bounds on either side. */
  function PeriodChecks(values: seq<real>, flows: seq<real>, k: nat): seq<Check<ReportError>>
    requires 1 <= k <= Periods(values, flows)
  {
    var growth := if values[k - 1] > 0.0 then (values[k] - flows[k]) / values[k - 1] else 0.0;
    [ Check(values[k - 1] <= 0.0, ZeroBase),
      Check(values[k] < flows[k], CashFlowInvalid),
      Check(|| Index(values, flows, k) > METRIC_BOUND
            || growth > 1.0 + METRIC_BOUND || growth < 1.0 - METRIC_BOUND, MetricLimit)]
  }

  lemma PeriodAnswers(values: seq<real>, flows: seq<real>, k: nat)
    requires 1 <= k <= Periods(values, flows)
    ensures AnswersFirst(PeriodChecks(values, flows, k), PeriodError(values, flows, k))
  {
    var checks := PeriodChecks(values, flows, k);
    assert FirstFailure(checks, 0) <==> checks[0].fails;
    assert FirstFailure(checks, 1) <==> !checks[0].fails && checks[1].fails;
    assert FirstFailure(checks, 2) <==> !checks[0].fails && !checks[1].fails && checks[2].fails;
  }

  predicate CleanThrough(values: seq<real>, flows: seq<real>, n: nat)
    requires n <= Periods(values, flows)
  {
    forall k: nat :: 1 <= k <= n ==> PeriodError(values, flows, k).None?
  }

  /** The walk stops in period `k`, the first that fails. */
  predicate StopsAt(values: seq<real>, flows: seq<real>, k: nat, error: ReportError) {
    && 1 <= k <= Periods(values, flows)
    && CleanThrough(values, flows, k - 1) && PeriodError(values, flows, k) == Some(error)
  }

  // ----- Drawdown by definition -----

  ghost predicate IsPeak(index: seq<real>, peak: real) {
    && (exists i :: 0 <= i < |index| && index[i] == peak)
    && (forall i :: 0 <= i < |index| ==> index[i] <= peak)
  }

  /** The loss from `i` to `j`. */
  predicate LossIs(index: seq<real>, i: int, j: int, loss: real) {
    0 <= i <= j < |index| && index[i] > 0.0 && loss == 1.0 - index[j] / index[i]
  }

  /** `d` is the largest loss from any positive index to any later one. */
  ghost predicate IsMaximumDrawdown(index: seq<real>, d: real) {
    && (exists i, j :: LossIs(index, i, j, d))
    && (forall i, j, loss :: LossIs(index, i, j, loss) ==> loss <= d)
  }

  lemma SmallerDivisor(x: real, a: real, b: real)
    requires 0.0 <= x && 0.0 < a <= b
    ensures x / b <= x / a && 0.0 <= x / b
  {
    var p, q := x / a, x / b;
    assert a * p == x && b * q == x;
    if q < 0.0 {
      StrictScale(b, q, 0.0);
      assert false;
    }
    if p < q {
      StrictScale(a, p, q);
      ScaleInequality(q, a, b);
      assert false;
    }
  }

  lemma PeakExtends(index: seq<real>, peak: real, x: real)
    requires IsPeak(index, peak)
    ensures IsPeak(index + [x], if x > peak then x else peak)
  {
    var longer := index + [x];
    var i :| 0 <= i < |index| && index[i] == peak;
    assert longer[i] == peak && longer[|index|] == x;
  }

  /** Comparing the new index with the running peak is enough: every other starting point loses less. */
  lemma DrawdownExtends(index: seq<real>, peak: real, d: real, x: real)
    requires IsPeak(index, peak) && 0.0 < peak && 0.0 <= x && IsMaximumDrawdown(index, d)
    ensures var top := if x > peak then x else peak;
      IsMaximumDrawdown(index + [x], if 1.0 - x / top > d then 1.0 - x / top else d)
  {
    var longer, top := index + [x], if x > peak then x else peak;
    var loss := 1.0 - x / top;
    PeakExtends(index, peak, x);
    var p :| 0 <= p < |longer| && longer[p] == top;
    var i, j :| LossIs(index, i, j, d);
    assert LossIs(longer, i, j, d) && LossIs(longer, p, |index|, loss);
    forall a, b, l | LossIs(longer, a, b, l) ensures l <= loss || l <= d {
      if b < |index| {
        assert LossIs(index, a, b, l);
      } else {
        SmallerDivisor(x, longer[a], top);
      }
    }
  }

  lemma DrawdownStarts()
    ensures IsMaximumDrawdown([1.0], 0.0) && IsPeak([1.0], 1.0)
  {
    assert LossIs([1.0], 0, 0, 0.0);
    assert [1.0][0] == 1.0;
  }

  /** A loss is between nothing and everything. */
  lemma DrawdownIsARatio(index: seq<real>, d: real)
    requires IsMaximumDrawdown(index, d) && index != [] && index[0] > 0.0
    requires forall i :: 0 <= i < |index| ==> index[i] >= 0.0
    ensures 0.0 <= d <= 1.0
  {
    assert LossIs(index, 0, 0, 0.0) by { assert index[0] / index[0] == 1.0; }
    var i, j :| LossIs(index, i, j, d);
    SmallerDivisor(index[j], index[i], index[i]);
  }

  lemma CurveGrows(values: seq<real>, flows: seq<real>, k: nat)
    requires 1 <= k <= Periods(values, flows)
    ensures IndexCurve(values, flows, k) == IndexCurve(values, flows, k - 1) + [Index(values, flows, k)]
  {
  }

  lemma {:induction false} IndexIsNonNegative(values: seq<real>, flows: seq<real>, k: nat)
    requires k <= Periods(values, flows) && CleanThrough(values, flows, k)
    ensures Index(values, flows, k) >= 0.0
  {
    if k > 0 {
      IndexIsNonNegative(values, flows, k - 1);
      assert PeriodError(values, flows, k).None?;
      SmallerDivisor(values[k] - flows[k], values[k - 1], values[k - 1]);
      NonNegativeProduct(Index(values, flows, k - 1), Growth(values, flows, k));
    }
  }

  /** With no flows the index telescopes: it is the value over the first value. */
  lemma {:induction false} IndexTelescopes(values: seq<real>, flows: seq<real>, k: nat)
    requires k <= Periods(values, flows) && |values| > 0 && values[0] > 0.0 && CleanThrough(values, flows, k)
    requires forall i :: 1 <= i <= k ==> flows[i] == 0.0
    ensures Index(values, flows, k) == values[k] / values[0]
  {
    if k == 0 {
      assert values[0] / values[0] == 1.0;
    } else {
      IndexTelescopes(values, flows, k - 1);
      assert PeriodError(values, flows, k).None?;
      Chain(values[0], values[k - 1], values[k]);
    }
  }

  lemma Chain(a: real, b: real, c: real)
    requires a > 0.0 && b > 0.0
    ensures (b / a) * (c / b) == c / a
  {
    var p, q := b / a, c / b;
    assert p * a == b && q * b == c;
    assert (p * q) * a == c;
  }

  /** The running values after `k` periods. */
  ghost predicate Walked(values: seq<real>, flows: seq<real>, k: nat, index: real, peak: real, drawdown: real)
    requires k <= Periods(values, flows)
  {
    && index == Index(values, flows, k) && peak >= 1.0
    && IsPeak(IndexCurve(values, flows, k), peak)
    && IsMaximumDrawdown(IndexCurve(values, flows, k), drawdown)
  }

  lemma WalkStarts(values: seq<real>, flows: seq<real>)
    ensures Walked(values, flows, 0, 1.0, 1.0, 0.0)
  {
    DrawdownStarts();
    assert IndexCurve(values, flows, 0) == [1.0];
  }

  lemma WalkContinues(values: seq<real>, flows: seq<real>, k: nat, index: real, peak: real, drawdown: real)
    requires 1 <= k <= Periods(values, flows) && CleanThrough(values, flows, k)
    requires Walked(values, flows, k - 1, index, peak, drawdown)
    ensures var x := Index(values, flows, k);
      var top := if x > peak then x else peak;
      Walked(values, flows, k, x, top, if 1.0 - x / top > drawdown then 1.0 - x / top else drawdown)
  {
    var before, x := IndexCurve(values, flows, k - 1), Index(values, flows, k);
    CurveGrows(values, flows, k);
    IndexIsNonNegative(values, flows, k);
    PeakExtends(before, peak, x);
    DrawdownExtends(before, peak, drawdown, x);
  }

  lemma WalkEnds(values: seq<real>, flows: seq<real>, index: real, peak: real, drawdown: real)
    requires CleanThrough(values, flows, Periods(values, flows))
    requires Walked(values, flows, Periods(values, flows), index, peak, drawdown)
    ensures 0.0 <= drawdown <= 1.0
  {
    var n := Periods(values, flows);
    forall i | 0 <= i <= n ensures IndexCurve(values, flows, n)[i] >= 0.0 {
      assert CleanThrough(values, flows, i);
      IndexIsNonNegative(values, flows, i);
    }
    DrawdownIsARatio(IndexCurve(values, flows, n), drawdown);
  }

  lemma IndexStep(values: seq<real>, flows: seq<real>, k: nat, index: real, periodReturn: real)
    requires 1 <= k <= Periods(values, flows) && values[k - 1] > 0.0
    requires index == Index(values, flows, k - 1) && periodReturn == (values[k] - flows[k]) / values[k - 1] - 1.0
    ensures index * (1.0 + periodReturn) == Index(values, flows, k) && periodReturn == Growth(values, flows, k) - 1.0
  {
    assert 1.0 + periodReturn == Growth(values, flows, k);
  }

  /** One pass over the periods, keeping the running index, peak and drawdown. */
  method Curve(values: seq<real>, flows: seq<real>) returns (r: Result<Metrics, ReportError>)
    ensures r.Ok? <==> CleanThrough(values, flows, Periods(values, flows))
    ensures r.Err? ==> exists k: nat :: StopsAt(values, flows, k, r.error)
    ensures r.Ok? ==>
      var n := Periods(values, flows);
      && IsMaximumDrawdown(IndexCurve(values, flows, n), r.value.maximumDrawdown)
      && 0.0 <= r.value.maximumDrawdown <= 1.0
      && r.value.totalReturn == Index(values, flows, n) - 1.0
      && |r.value.periodReturns| == n
      && forall k: nat :: 1 <= k <= n ==> r.value.periodReturns[k - 1] == Growth(values, flows, k) - 1.0
  {
    var collected: seq<real> := [];
    var index, peak, drawdown := 1.0, 1.0, 0.0;
    WalkStarts(values, flows);
    for k := 1 to Periods(values, flows) + 1
      invariant CleanThrough(values, flows, k - 1)
      invariant Walked(values, flows, k - 1, index, peak, drawdown)
      invariant |collected| == k - 1
      invariant forall i: nat :: 1 <= i < k ==> collected[i - 1] == Growth(values, flows, i) - 1.0
    {
      if values[k - 1] <= 0.0 {
        assert StopsAt(values, flows, k, ZeroBase);
        return Err(ZeroBase);
      }
      var adjusted := values[k] - flows[k];
      if adjusted < 0.0 {
        assert StopsAt(values, flows, k, CashFlowInvalid);
        return Err(CashFlowInvalid);
      }
      var periodReturn := adjusted / values[k - 1] - 1.0;
      collected := collected + [periodReturn];
      ghost var before := index;
      IndexStep(values, flows, k, index, periodReturn);
      index := index * (1.0 + periodReturn);
      if index > METRIC_BOUND || Abs(periodReturn) > METRIC_BOUND {
        assert StopsAt(values, flows, k, MetricLimit);
        return Err(MetricLimit);
      }
      WalkContinues(values, flows, k, before, peak, drawdown);
      peak := if index > peak then index else peak;
      var loss := 1.0 - index / peak;
      drawdown := if loss > drawdown then loss else drawdown;
    }
    WalkEnds(values, flows, index, peak, drawdown);
    return Ok(Metrics(index - 1.0, drawdown, collected));
  }

  /** With no flows the reported return is last over first, minus one. */
  lemma FlowlessReturnTelescopes(values: seq<real>, flows: seq<real>)
    requires |values| >= 2 && |flows| == |values| && forall i :: 1 <= i < |flows| ==> flows[i] == 0.0
    requires CleanThrough(values, flows, Periods(values, flows))
    ensures values[0] > 0.0
    ensures Index(values, flows, Periods(values, flows)) - 1.0 == values[|values| - 1] / values[0] - 1.0
  {
    assert PeriodError(values, flows, 1).None?;
    IndexTelescopes(values, flows, Periods(values, flows));
  }
}
