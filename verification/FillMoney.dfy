/** Multiples of a unit, and the exact amounts that a tariff charges. */
module FillMoney {
  import opened Common
  import opened Rounding
  import opened FillCosts
  import opened FillCostTheorems

  ghost predicate Whole(x: real, unit: Positive) {
    exists n :: WholeIncrements(x, unit, n)
  }

  /** Two multiples of a unit that are less than one unit apart are the same. */
  lemma SameWhole(x: real, y: real, unit: Positive)
    requires Whole(x, unit) && Whole(y, unit) && y <= x < y + unit
    ensures x == y
  {
    var n :| WholeIncrements(x, unit, n);
    var m :| WholeIncrements(y, unit, m);
    if n < m { Below(x, y, unit, n as real, m as real); }
    if n > m { Above(x, y, unit, n as real, m as real); }
  }

  lemma Below(x: real, y: real, unit: Positive, n: real, m: real)
    requires x == n * unit && y == m * unit && n < m
    ensures x < y
  {
    StrictScale(unit, n, m);
  }

  lemma Above(x: real, y: real, unit: Positive, n: real, m: real)
    requires x == n * unit && y == m * unit && n >= m + 1.0
    ensures x >= y + unit
  {
    ScaleInequality(unit, m + 1.0, n);
    assert unit * (m + 1.0) == m * unit + unit;
  }

  lemma WholeIsMultiple(x: real, unit: Positive)
    ensures MultipleOf(x, unit) <==> Whole(x, unit)
  {
    RoundedIsWhole(x, unit);
    FloorToBounds(x, unit);
    if Whole(x, unit) { SameWhole(x, FloorTo(x, unit), unit); }
  }

  // ----- The money of every fill -----

  /** The largest, or smallest, multiple of the quantum on that side of the exact amount. */
  ghost predicate IsFloor(y: real, x: real) {
    Whole(y, QUANTUM) && y <= x < y + QUANTUM
  }

  ghost predicate IsCeiling(y: real, x: real) {
    Whole(y, QUANTUM) && y - QUANTUM < x <= y
  }

  lemma FloorIs(y: real, x: real)
    requires y == FloorTo(x, QUANTUM)
    ensures IsFloor(y, x)
  {
    RoundedIsWhole(x, QUANTUM);
    FloorToBounds(x, QUANTUM);
  }

  lemma CeilingIs(y: real, x: real)
    requires y == CeilTo(x, QUANTUM)
    ensures IsCeiling(y, x)
  {
    RoundedIsWhole(x, QUANTUM);
    CeilToBounds(x, QUANTUM);
  }

  /** Charges and cash of one fill: the spread rounded down, the rest of the impact rounded up, the commission
    * rounded up, and the cash rounded down. */
  ghost predicate ExactAmounts(
    c: CostConfig, side: Side, first: bool, quantity: real, price: real, open: real,
    commission: real, spread: real, slippage: real, cash: real)
  {
    var traded, flat := quantity * price, if first then c.commissionFlat else 0.0;
    && IsFloor(spread, quantity * open * c.halfSpreadBps / 10000.0)
    && IsCeiling(slippage, quantity * Abs(price - open) - spread)
    && IsCeiling(commission, traded * c.commissionBps / 10000.0 + flat)
    && IsFloor(cash, (if side.Buy? then -traded else traded) - commission)
  }

  ghost predicate ExactMoney(c: CostConfig, side: Side, first: bool, f: Fill) {
    ExactAmounts(c, side, first, f.quantity, f.price, f.referencePrice, f.commission, f.spread, f.slippage, f.cashDelta)
  }

  lemma CashIs(side: Side, quantity: real, price: real, commission: real)
    ensures IsFloor(CashDelta(side, quantity, price, commission),
                    (if side.Buy? then -(quantity * price) else quantity * price) - commission)
  {
    Signed(side, quantity, price, commission);
    FloorIs(CashDelta(side, quantity, price, commission), CashBefore(side, quantity, price, commission));
  }

  lemma Signed(side: Side, quantity: real, price: real, commission: real)
    ensures CashBefore(side, quantity, price, commission)
         == (if side.Buy? then -(quantity * price) else quantity * price) - commission
  {
    Negated(quantity, price);
  }

  lemma Negated(x: real, y: real)
    ensures -1.0 * x * y == -(x * y) && 1.0 * x * y == x * y
  {
  }

  lemma SpreadIs(c: CostConfig, quantity: real, open: real)
    ensures IsFloor(SpreadCost(c, quantity, open), quantity * open * c.halfSpreadBps / 10000.0)
  {
    FloorIs(SpreadCost(c, quantity, open), SpreadBefore(c, quantity, open));
  }

  lemma SlippageIs(c: CostConfig, quantity: real, price: real, open: real)
    ensures IsCeiling(SlippageCost(c, quantity, price, open),
                      quantity * Abs(price - open) - SpreadCost(c, quantity, open))
  {
    CeilingIs(SlippageCost(c, quantity, price, open), quantity * Abs(price - open) - SpreadCost(c, quantity, open));
  }

  lemma CommissionIs(c: CostConfig, quantity: real, price: real, first: bool)
    ensures var flat := if first then c.commissionFlat else 0.0;
      IsCeiling(Commission(c, quantity, price, first), quantity * price * c.commissionBps / 10000.0 + flat)
  {
    CeilingIs(Commission(c, quantity, price, first), CommissionBefore(c, quantity, price, first));
  }

  /** What a tariff charges is exact. */
  ghost predicate TariffExact(t: Tariff, c: CostConfig) {
    forall side: Side, first: bool, quantity: real, price: real, open: real ::
      ChargedExactly(t, c, side, first, quantity, price, open)
  }

  ghost predicate ChargedExactly(
    t: Tariff, c: CostConfig, side: Side, first: bool, quantity: real, price: real, open: real)
  {
    var commission := t.commission(quantity, price, first);
    ExactAmounts(c, side, first, quantity, price, open, commission, t.spread(quantity, open),
                 t.slippage(quantity, price, open), t.cash(side, quantity, price, commission))
  }

  lemma TariffIsExact(c: CostConfig)
    ensures TariffExact(TariffOf(c), c)
  {
    forall side: Side, first: bool, quantity: real, price: real, open: real
      ensures ChargedExactly(TariffOf(c), c, side, first, quantity, price, open) {
      AmountsAre(c, side, first, quantity, price, open);
    }
  }

  lemma AmountsAre(c: CostConfig, side: Side, first: bool, quantity: real, price: real, open: real)
    ensures var commission := Commission(c, quantity, price, first);
      ExactAmounts(c, side, first, quantity, price, open, commission, SpreadCost(c, quantity, open),
                   SlippageCost(c, quantity, price, open), CashDelta(side, quantity, price, commission))
  {
    SpreadIs(c, quantity, open);
    SlippageIs(c, quantity, price, open);
    CommissionIs(c, quantity, price, first);
    CashIs(side, quantity, price, Commission(c, quantity, price, first));
  }

  lemma DueIsExact(t: Tariff, c: CostConfig, o: Order, b: Bar, wanted: real, left: real, first: bool, f: Fill)
    requires TariffExact(t, c) && Due(t, o, b, wanted, left, first) == Some(f)
    ensures ExactMoney(c, o.side, first, f)
  {
    assert ChargedExactly(t, c, o.side, first, f.quantity, t.price(o, b), b.open);
  }
}
