/** What every simulation guarantees: conservation of quantity and liquidity, the cash identity within
  * one quantum per fill, costs that are never negative, and independence of the input order. */
module FillCostTheorems {
  import opened Common
  import opened Rounding
  import opened FillCosts

  // ----- The money of one fill -----

  /** The price is worse than the open by at least the quoted half-spread and slippage. */
  predicate Adverse(c: CostConfig, side: Side, price: real, open: real) {
    && Direction(side) * (price - open) == Abs(price - open)
    && open * (c.halfSpreadBps + c.slippageBps) / 10000.0 <= Abs(price - open)
  }

  lemma PriceIsAdverse(c: CostConfig, o: Order, b: Bar)
    requires ConfigOk(c)
    ensures Adverse(c, o.side, ExecutionPrice(c, o, b), b.open)
  {
    var impact := b.open * (c.halfSpreadBps + c.slippageBps) / 10000.0;
    assert impact >= 0.0 by { NonNegativeProduct(b.open, c.halfSpreadBps + c.slippageBps); }
    FloorToBounds(Unrounded(c, o.side, b.open), o.priceIncrement);
    CeilToBounds(Unrounded(c, o.side, b.open), o.priceIncrement);
    assert Unrounded(c, o.side, b.open) == b.open + Direction(o.side) * impact;
  }

  /** The price is a whole number of ticks, and less than one tick beyond the quoted half-spread and slippage. */
  ghost predicate Ticked(c: CostConfig, o: Order, price: real, open: real) {
    && (exists n :: WholeIncrements(price, o.priceIncrement, n))
    && Abs(price - open) < open * (c.halfSpreadBps + c.slippageBps) / 10000.0 + o.priceIncrement
  }

  lemma RoundedIsWhole(x: real, unit: Positive)
    ensures (exists n :: WholeIncrements(FloorTo(x, unit), unit, n))
    ensures (exists n :: WholeIncrements(CeilTo(x, unit), unit, n))
  {
    var down, up := (x / unit).Floor, (-x / unit).Floor;
    assert WholeIncrements(FloorTo(x, unit), unit, down);
    assert -(up as real * unit) == (-up) as real * unit;
    assert WholeIncrements(CeilTo(x, unit), unit, -up);
  }

  lemma PriceIsClose(c: CostConfig, o: Order, b: Bar)
    requires ConfigOk(c)
    ensures Abs(ExecutionPrice(c, o, b) - b.open)
          < b.open * (c.halfSpreadBps + c.slippageBps) / 10000.0 + o.priceIncrement
  {
    var impact := b.open * (c.halfSpreadBps + c.slippageBps) / 10000.0;
    assert impact >= 0.0 by { NonNegativeProduct(b.open, c.halfSpreadBps + c.slippageBps); }
    FloorToBounds(Unrounded(c, o.side, b.open), o.priceIncrement);
    CeilToBounds(Unrounded(c, o.side, b.open), o.priceIncrement);
    assert Unrounded(c, o.side, b.open) == b.open + Direction(o.side) * impact;
  }

  lemma PriceIsTicked(c: CostConfig, o: Order, b: Bar)
    requires ConfigOk(c)
    ensures Ticked(c, o, ExecutionPrice(c, o, b), b.open)
  {
    RoundedIsWhole(Unrounded(c, o.side, b.open), o.priceIncrement);
    PriceIsClose(c, o, b);
  }

  function Frictionless(side: Side, f: Fill): real {
    -Direction(side) * f.quantity * f.referencePrice
  }

  /** The cash is the frictionless cash minus the costs, to within one quantum, and no cost is negative. */
  predicate AddsUp(frictionless: real, cash: real, commission: real, spread: real, slippage: real) {
    && -QUANTUM < cash - (frictionless - (commission + spread + slippage)) < QUANTUM
    && 0.0 <= commission && 0.0 <= spread && 0.0 <= slippage
  }

  predicate FillAddsUp(side: Side, f: Fill) {
    AddsUp(Frictionless(side, f), f.cashDelta, f.commission, f.spread, f.slippage)
  }

  lemma MoneySplit(c: CostConfig, side: Side, quantity: real, price: real, open: real, first: bool)
    requires ConfigOk(c) && open > 0.0 && quantity > 0.0 && price > 0.0
    requires Adverse(c, side, price, open)
    ensures var commission := Commission(c, quantity, price, first);
      AddsUp(-Direction(side) * quantity * open, CashDelta(side, quantity, price, commission), commission,
             SpreadCost(c, quantity, open), SlippageCost(c, quantity, price, open))
  {
    var commission := Commission(c, quantity, price, first);
    CommissionIsNonNegative(c, quantity, price, first);
    ImpactSplit(c, quantity, price, open);
    CashSplit(side, quantity, price, open, commission);
    Combine(-Direction(side) * quantity * open, quantity * Abs(price - open),
            CashDelta(side, quantity, price, commission), commission, SpreadCost(c, quantity, open),
            SlippageCost(c, quantity, price, open));
  }

  lemma Combine(frictionless: real, impact: real, cash: real, commission: real, spread: real, slippage: real)
    requires 0.0 <= commission && 0.0 <= spread && 0.0 <= slippage
    requires impact <= spread + slippage < impact + QUANTUM
    requires frictionless - impact - commission - QUANTUM < cash <= frictionless - impact - commission
    ensures AddsUp(frictionless, cash, commission, spread, slippage)
  {
  }

  lemma CashSplit(side: Side, quantity: real, price: real, open: real, commission: real)
    requires Direction(side) * (price - open) == Abs(price - open)
    ensures var cash := CashDelta(side, quantity, price, commission);
      var exact := -Direction(side) * quantity * open - quantity * Abs(price - open) - commission;
      exact - QUANTUM < cash <= exact
  {
    AdversePrice(Direction(side), quantity, price, open, Abs(price - open));
    assert CashBefore(side, quantity, price, commission) == -Direction(side) * quantity * price - commission;
    FloorToBounds(CashBefore(side, quantity, price, commission), QUANTUM);
  }

  lemma AdversePrice(d: real, quantity: real, price: real, open: real, distance: real)
    requires d * (price - open) == distance
    ensures -d * quantity * price == -d * quantity * open - quantity * distance
  {
    SplitPrice(d, quantity, price, open);
    assert -d * quantity * price == -(d * quantity * price);
    assert -d * quantity * open == -(d * quantity * open);
  }

  lemma ImpactSplit(c: CostConfig, quantity: real, price: real, open: real)
    requires ConfigOk(c) && open > 0.0 && quantity > 0.0
    requires open * (c.halfSpreadBps + c.slippageBps) / 10000.0 <= Abs(price - open)
    ensures var impact := quantity * Abs(price - open);
      var charged := SpreadCost(c, quantity, open) + SlippageCost(c, quantity, price, open);
      impact <= charged < impact + QUANTUM
    ensures SpreadCost(c, quantity, open) >= 0.0 && SlippageCost(c, quantity, price, open) >= 0.0
  {
    var distance := Abs(price - open);
    QuotedWithinImpact(c, open, quantity, distance);
    FloorToBounds(SpreadBefore(c, quantity, open), QUANTUM);
    CeilToBounds(quantity * distance - SpreadCost(c, quantity, open), QUANTUM);
  }

  lemma CommissionIsNonNegative(c: CostConfig, quantity: real, price: real, first: bool)
    requires ConfigOk(c) && quantity > 0.0 && price > 0.0
    ensures Commission(c, quantity, price, first) >= 0.0
  {
    NonNegativeProduct(quantity, price);
    NonNegativeProduct(quantity * price, c.commissionBps);
    assert CommissionBefore(c, quantity, price, first) >= 0.0;
    CeilToBounds(CommissionBefore(c, quantity, price, first), QUANTUM);
  }

  lemma SplitPrice(d: real, q: real, price: real, open: real)
    ensures d * q * price == d * q * open + q * (d * (price - open))
  {
  }

  lemma QuotedWithinImpact(c: CostConfig, open: real, quantity: real, distance: real)
    requires ConfigOk(c) && open > 0.0 && quantity > 0.0
    requires open * (c.halfSpreadBps + c.slippageBps) / 10000.0 <= distance
    ensures 0.0 <= SpreadBefore(c, quantity, open) <= quantity * distance
  {
    NonNegativeProduct(open, c.slippageBps);
    NonNegativeProduct(open, c.halfSpreadBps);
    var half := open * c.halfSpreadBps / 10000.0;
    assert open * (c.halfSpreadBps + c.slippageBps) == open * c.halfSpreadBps + open * c.slippageBps;
    assert 0.0 <= half <= distance;
    ScaleInequality(quantity, half, distance);
    NonNegativeProduct(quantity, half);
    assert quantity * half == quantity * open * c.halfSpreadBps / 10000.0;
  }

  // ----- What an order is due -----

  /** The share given is within what is wanted and what is left, and takes all but a fraction of an
    * increment of one of them. */
  predicate Fair(o: Order, b: Bar, wanted: real, left: real, tradable: bool, due: Option<Fill>) {
    match due
    case None => !tradable || wanted < o.quantityIncrement || left < o.quantityIncrement
    case Some(f) =>
      && f.id == o.id && f.barStart == b.start
      && 0.0 < f.quantity <= wanted && f.quantity <= left
      && (wanted - f.quantity < o.quantityIncrement || left - f.quantity < o.quantityIncrement)
  }

  predicate WholeIncrements(quantity: real, unit: Positive, n: int) {
    quantity == n as real * unit
  }

  // ----- What a tariff promises -----

  /** Every price is adverse and ticked, and every charge at an adverse price adds up. */
  ghost predicate Sincere(t: Tariff, c: CostConfig) {
    && (forall o: Order, b: Bar :: Adverse(c, o.side, t.price(o, b), b.open) && Ticked(c, o, t.price(o, b), b.open))
    && (forall side: Side, quantity: real, price: real, open: real, first: bool ::
          TariffAddsUp(t, c, side, quantity, price, open, first))
  }

  predicate TariffAddsUp(t: Tariff, c: CostConfig, side: Side, quantity: real, price: real, open: real, first: bool) {
    (open > 0.0 && quantity > 0.0 && price > 0.0 && Adverse(c, side, price, open)) ==>
      var commission := t.commission(quantity, price, first);
      AddsUp(-Direction(side) * quantity * open, t.cash(side, quantity, price, commission), commission,
             t.spread(quantity, open), t.slippage(quantity, price, open))
  }

  lemma TariffIsSincere(c: CostConfig)
    requires ConfigOk(c)
    ensures Sincere(TariffOf(c), c)
  {
    var t := TariffOf(c);
    forall o: Order, b: Bar ensures Adverse(c, o.side, t.price(o, b), b.open) && Ticked(c, o, t.price(o, b), b.open) {
      PriceIsAdverse(c, o, b);
      PriceIsTicked(c, o, b);
    }
    forall side: Side, quantity: real, price: real, open: real, first: bool
      ensures TariffAddsUp(t, c, side, quantity, price, open, first) {
      ChargesAddUp(c, side, quantity, price, open, first);
    }
  }

  lemma ChargesAddUp(c: CostConfig, side: Side, quantity: real, price: real, open: real, first: bool)
    requires ConfigOk(c)
    ensures TariffAddsUp(TariffOf(c), c, side, quantity, price, open, first)
  {
    if open > 0.0 && quantity > 0.0 && price > 0.0 && Adverse(c, side, price, open) {
      MoneySplit(c, side, quantity, price, open, first);
    }
  }

  /** The fill lies inside the order's window and limit, is a whole number of increments, and is priced
    * against the order on the first tick that covers the quoted costs. */
  ghost predicate Admissible(c: CostConfig, o: Order, b: Bar, f: Fill) {
    && f.id == o.id && f.barStart == b.start && f.windowEnd == b.closedAt && f.referencePrice == b.open
    && o.createdAt + c.minimumDelay <= b.start && b.closedAt <= o.expiresAt
    && 0.0 < f.quantity && (exists n :: WholeIncrements(f.quantity, o.quantityIncrement, n))
    && 0.0 < f.price && (if o.side.Buy? then f.price <= o.limitPrice else f.price >= o.limitPrice)
    && Adverse(c, o.side, f.price, b.open) && Ticked(c, o, f.price, b.open)
  }

  lemma DueIsFair(t: Tariff, o: Order, b: Bar, wanted: real, left: real, first: bool)
    ensures Fair(o, b, wanted, left, Tradable(t, o, b), Due(t, o, b, wanted, left, first))
  {
    FloorToBounds(Min(wanted, left), o.quantityIncrement);
  }

  lemma DueAddsUp(t: Tariff, c: CostConfig, o: Order, b: Bar, wanted: real, left: real, first: bool)
    requires Sincere(t, c)
    ensures var due := Due(t, o, b, wanted, left, first); due.Some? ==> FillAddsUp(o.side, due.value)
  {
    var due := Due(t, o, b, wanted, left, first);
    if due.Some? {
      assert TariffAddsUp(t, c, o.side, due.value.quantity, t.price(o, b), b.open, first);
    }
  }

  lemma DueIsAdmissible(t: Tariff, c: CostConfig, o: Order, b: Bar, wanted: real, left: real, first: bool, f: Fill)
    requires Sincere(t, c) && t.delay == c.minimumDelay && Due(t, o, b, wanted, left, first) == Some(f)
    ensures Admissible(c, o, b, f)
  {
    var n := (Min(wanted, left) / o.quantityIncrement).Floor;
    assert WholeIncrements(f.quantity, o.quantityIncrement, n);
    assert Adverse(c, o.side, t.price(o, b), b.open) && Ticked(c, o, t.price(o, b), b.open);
  }
}
