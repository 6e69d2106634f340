/** The simulator's promises about a finished run, each read off its fill log. */
module FillConservation {
  import opened Common
  import opened Rounding
  import opened FillCosts
  import opened FillCostTheorems
  import opened FillLedger

  // ----- Reading a log backwards -----

  ghost predicate Log(m: Market, orders: seq<Order>, bars: seq<Bar>, fills: seq<Fill>) {
    Sound(m) && DistinctIds(orders) && BarsOrdered(bars) && LogJustified(m, orders, bars, fills)
  }

  /** The order and the bar behind the last fill of a log. */
  lemma LastFill(m: Market, orders: seq<Order>, bars: seq<Bar>, fills: seq<Fill>) returns (i: nat, j: nat)
    requires Log(m, orders, bars, fills) && fills != []
    ensures Log(m, orders, bars, fills[..|fills| - 1])
    ensures i < |orders| && j < |bars|
    ensures Explains(m, orders[i], bars[j], fills[..|fills| - 1], fills[|fills| - 1])
  {
    var n := |fills| - 1;
    var prior, f := fills[..n], fills[n];
    forall k | 0 <= k < n ensures Justified(m, orders, bars, prior[..k], prior[k]) {
      assert prior[..k] == fills[..k] && prior[k] == fills[k];
    }
    assert Justified(m, orders, bars, prior, f);
    i, j :| 0 <= i < |orders| && 0 <= j < |bars| && Explains(m, orders[i], bars[j], prior, f);
  }

  /** The explained fill is fair to what its order still wants and its bar still has. */
  lemma ExplainedIsFair(m: Market, o: Order, b: Bar, prior: seq<Fill>, f: Fill)
    requires Sound(m) && Explains(m, o, b, prior, f)
    ensures var wanted, left := o.quantity - FilledBy(prior, o.id), m.capacity(b) - FilledIn(prior, b.start);
      Fair(o, b, wanted, left, m.tradable(o, b), Some(f))
  {
  }

  lemma {:induction false} FilledWithinQuantity(m: Market, orders: seq<Order>, bars: seq<Bar>, fills: seq<Fill>, i: nat)
    requires Log(m, orders, bars, fills) && i < |orders| && 0.0 <= orders[i].quantity
    ensures 0.0 <= FilledBy(fills, orders[i].id) <= orders[i].quantity
    decreases |fills|
  {
    if fills != [] {
      var prior, f := fills[..|fills| - 1], fills[|fills| - 1];
      var o, b := LastFill(m, orders, bars, fills);
      FilledWithinQuantity(m, orders, bars, prior, i);
      ExplainedIsFair(m, orders[o], bars[b], prior, f);
    }
  }

  lemma {:induction false} FilledWithinCapacity(m: Market, orders: seq<Order>, bars: seq<Bar>, fills: seq<Fill>, j: nat)
    requires Log(m, orders, bars, fills) && j < |bars| && 0.0 <= m.capacity(bars[j])
    ensures 0.0 <= FilledIn(fills, bars[j].start) <= m.capacity(bars[j])
    decreases |fills|
  {
    if fills != [] {
      var prior, f := fills[..|fills| - 1], fills[|fills| - 1];
      var o, b := LastFill(m, orders, bars, fills);
      FilledWithinCapacity(m, orders, bars, prior, j);
      ExplainedIsFair(m, orders[o], bars[b], prior, f);
      assert f.barStart == bars[b].start;
      if b != j { StartsDiffer(bars, b, j); }
    }
  }

  lemma StartsDiffer(bars: seq<Bar>, i: nat, j: nat)
    requires BarsOrdered(bars) && i < |bars| && j < |bars| && i != j
    ensures bars[i].start != bars[j].start
  {
    if i < j { StartsIncrease(bars, i, j); } else { StartsIncrease(bars, j, i); }
  }

  // ----- Cash -----

  function Sides(orders: seq<Order>): map<int, Side>
    requires DistinctIds(orders)
  {
    map i | 0 <= i < |orders| :: orders[i].id := orders[i].side
  }

  /** Cash had every fill traded free of charge, as `free` prices it. */
  function FreeCash(fills: seq<Fill>, sides: map<int, Side>, free: (Side, Fill) -> real): real {
    if fills == [] then 0.0
    else
      var f := fills[|fills| - 1];
      FreeCash(fills[..|fills| - 1], sides, free) + if f.id in sides then free(sides[f.id], f) else 0.0
  }

  /** Cash at each bar's open. */
  function FrictionlessCash(fills: seq<Fill>, sides: map<int, Side>): real {
    FreeCash(fills, sides, (side: Side, f: Fill) => Frictionless(side, f))
  }

  /** The money of every fill adds up. */
  ghost predicate Balances(m: Market, free: (Side, Fill) -> real) {
    forall o: Order, b, wanted, left, first :: Balanced(o.side, m.due(o, b, wanted, left, first), free)
  }

  predicate Balanced(side: Side, due: Option<Fill>, free: (Side, Fill) -> real) {
    due.Some? ==>
      var f := due.value;
      AddsUp(free(side, f), f.cashDelta, f.commission, f.spread, f.slippage)
  }

  lemma ExplainedBalances(m: Market, o: Order, b: Bar, prior: seq<Fill>, f: Fill, free: (Side, Fill) -> real)
    requires Balances(m, free) && Explains(m, o, b, prior, f)
    ensures AddsUp(free(o.side, f), f.cashDelta, f.commission, f.spread, f.slippage)
  {
    var wanted, left := o.quantity - FilledBy(prior, o.id), m.capacity(b) - FilledIn(prior, b.start);
    var first := !Traded(prior, o.id);
    assert Balanced(o.side, m.due(o, b, wanted, left, first), free);
  }

  lemma MarketBalances(c: CostConfig)
    requires ConfigOk(c)
    ensures Balances(MarketOf(c), (side: Side, f: Fill) => Frictionless(side, f))
  {
    var m, free := MarketOf(c), (side: Side, f: Fill) => Frictionless(side, f);
    TariffIsSincere(c);
    forall o: Order, b, wanted, left, first ensures Balanced(o.side, m.due(o, b, wanted, left, first), free) {
      DueAddsUp(TariffOf(c), c, o, b, wanted, left, first);
    }
  }

  /** That many quanta. */
  function Quanta(n: nat): real {
    if n == 0 then 0.0 else Quanta(n - 1) + QUANTUM
  }

  lemma {:induction false} QuantaAre(n: nat)
    ensures Quanta(n) == n as real * QUANTUM
  {
    if n > 0 {
      QuantaAre(n - 1);
      assert n as real * QUANTUM == (n - 1) as real * QUANTUM + QUANTUM;
    }
  }

  lemma {:induction false} CashWithinQuanta(
    m: Market, orders: seq<Order>, bars: seq<Bar>, fills: seq<Fill>, free: (Side, Fill) -> real)
    requires Log(m, orders, bars, fills) && Balances(m, free)
    ensures var error := Cash(fills) - (FreeCash(fills, Sides(orders), free) - Costs(fills));
      if fills == [] then error == 0.0 else -Quanta(|fills|) < error < Quanta(|fills|)
    decreases |fills|
  {
    if fills != [] {
      var prior, f := fills[..|fills| - 1], fills[|fills| - 1];
      var o, b := LastFill(m, orders, bars, fills);
      CashWithinQuanta(m, orders, bars, prior, free);
      ExplainedIsFair(m, orders[o], bars[b], prior, f);
      ExplainedBalances(m, orders[o], bars[b], prior, f, free);
      assert Sides(orders)[f.id] == orders[o].side;
    }
  }

  // ----- Commission -----

  /** The commission is the proportional part, plus the flat part on an order's first fill, rounded up. */
  ghost predicate Charges(m: Market, proportional: Fill -> real, flat: real) {
    forall o, b, wanted, left, first ::
      Charged(m.due(o, b, wanted, left, first), proportional, if first then flat else 0.0)
  }

  predicate Charged(due: Option<Fill>, proportional: Fill -> real, flat: real) {
    due.Some? ==> proportional(due.value) + flat <= due.value.commission < proportional(due.value) + flat + QUANTUM
  }

  function CommissionOf(fills: seq<Fill>, id: int): real {
    if fills == [] then 0.0
    else
      var f := fills[|fills| - 1];
      CommissionOf(fills[..|fills| - 1], id) + if f.id == id then f.commission else 0.0
  }

  function ProportionalOf(fills: seq<Fill>, id: int, proportional: Fill -> real): real {
    if fills == [] then 0.0
    else
      var f := fills[|fills| - 1];
      ProportionalOf(fills[..|fills| - 1], id, proportional) + if f.id == id then proportional(f) else 0.0
  }

  /** How many fills the order has. */
  function FillCount(fills: seq<Fill>, id: int): nat {
    if fills == [] then 0
    else FillCount(fills[..|fills| - 1], id) + if fills[|fills| - 1].id == id then 1 else 0
  }

  lemma TradedLast(fills: seq<Fill>, id: int)
    requires fills != []
    ensures Traded(fills, id) <==> Traded(fills[..|fills| - 1], id) || fills[|fills| - 1].id == id
  {
    var prior := fills[..|fills| - 1];
    assert fills == prior + [fills[|fills| - 1]];
    if Traded(prior, id) {
      var k :| 0 <= k < |prior| && prior[k].id == id;
      assert fills[k].id == id;
    }
  }

  /** The commissions are the proportional parts and one flat part, rounded up by less than a quantum for
    * each of the order's own fills; an order without fills has none of them. */
  predicate PaysFlatOnce(fills: seq<Fill>, id: int, proportional: Fill -> real, flat: real) {
    var paid, rated := CommissionOf(fills, id), ProportionalOf(fills, id, proportional);
    if Traded(fills, id) then rated + flat <= paid < rated + flat + Quanta(FillCount(fills, id))
    else paid == 0.0 && rated == 0.0 && FillCount(fills, id) == 0
  }

  lemma {:induction false} FlatOnce(
    m: Market, orders: seq<Order>, bars: seq<Bar>, fills: seq<Fill>, id: int, proportional: Fill -> real, flat: real)
    requires Log(m, orders, bars, fills) && Charges(m, proportional, flat)
    ensures PaysFlatOnce(fills, id, proportional, flat)
    decreases |fills|
  {
    if fills != [] {
      var prior, f := fills[..|fills| - 1], fills[|fills| - 1];
      var o, b := LastFill(m, orders, bars, fills);
      FlatOnce(m, orders, bars, prior, id, proportional, flat);
      ExplainedIsCharged(m, orders[o], bars[b], prior, f, proportional, flat);
      FlatStep(fills, id, proportional, flat);
    }
  }

  lemma FlatStep(fills: seq<Fill>, id: int, proportional: Fill -> real, flat: real)
    requires fills != [] && PaysFlatOnce(fills[..|fills| - 1], id, proportional, flat)
    requires var prior, f := fills[..|fills| - 1], fills[|fills| - 1];
      Charged(Some(f), proportional, if Traded(prior, f.id) then 0.0 else flat)
    ensures PaysFlatOnce(fills, id, proportional, flat)
  {
    TradedLast(fills, id);
  }

  lemma ExplainedIsCharged(
    m: Market, o: Order, b: Bar, prior: seq<Fill>, f: Fill, proportional: Fill -> real, flat: real)
    requires Sound(m) && Charges(m, proportional, flat) && Explains(m, o, b, prior, f)
    ensures f.id == o.id && Charged(Some(f), proportional, if Traded(prior, f.id) then 0.0 else flat)
  {
    var wanted, left := o.quantity - FilledBy(prior, o.id), m.capacity(b) - FilledIn(prior, b.start);
    var first := !Traded(prior, o.id);
    assert Charged(m.due(o, b, wanted, left, first), proportional, if first then flat else 0.0);
    ExplainedIsFair(m, o, b, prior, f);
  }

  /** The commission before the flat part and before rounding. */
  function Rate(c: CostConfig): (real, real) -> real {
    (quantity: real, price: real) => quantity * price * c.commissionBps / 10000.0
  }

  function Proportional(rate: (real, real) -> real): Fill -> real {
    (f: Fill) => rate(f.quantity, f.price)
  }

  ghost predicate TariffCharges(t: Tariff, rate: (real, real) -> real, flat: real) {
    forall quantity: real, price: real, first: bool ::
      RoundedUp(t.commission(quantity, price, first), rate(quantity, price), if first then flat else 0.0)
  }

  predicate RoundedUp(commission: real, proportional: real, flat: real) {
    proportional + flat <= commission < proportional + flat + QUANTUM
  }

  lemma TariffChargesRate(c: CostConfig)
    ensures TariffCharges(TariffOf(c), Rate(c), c.commissionFlat)
  {
    forall quantity: real, price: real, first: bool
      ensures var flat := if first then c.commissionFlat else 0.0;
        RoundedUp(TariffOf(c).commission(quantity, price, first), Rate(c)(quantity, price), flat) {
      CeilToBounds(CommissionBefore(c, quantity, price, first), QUANTUM);
    }
  }

  lemma DueIsCharged(
    t: Tariff, rate: (real, real) -> real, flat: real, o: Order, b: Bar, wanted: real, left: real, first: bool)
    requires TariffCharges(t, rate, flat)
    ensures Charged(Due(t, o, b, wanted, left, first), Proportional(rate), if first then flat else 0.0)
  {
    var due := Due(t, o, b, wanted, left, first);
    if due.Some? {
      var quantity, price := due.value.quantity, t.price(o, b);
      assert RoundedUp(t.commission(quantity, price, first), rate(quantity, price), if first then flat else 0.0);
    }
  }

  lemma MarketCharges(c: CostConfig)
    ensures Charges(MarketOf(c), Proportional(Rate(c)), c.commissionFlat)
  {
    var m := MarketOf(c);
    TariffChargesRate(c);
    forall o, b, wanted, left, first
      ensures var flat := if first then c.commissionFlat else 0.0;
        Charged(m.due(o, b, wanted, left, first), Proportional(Rate(c)), flat) {
      DueIsCharged(TariffOf(c), Rate(c), c.commissionFlat, o, b, wanted, left, first);
    }
  }

  // ----- Every simulation -----

  /** The run behind a result: priority order, the market, and the counters at the end. */
  lemma Unfold(r: Request, result: CostResult) returns (m: Market, orders: seq<Order>, last: Progress)
    requires Simulate(r) == Ok(result)
    ensures m == MarketOf(r.config) && Sound(m) && orders == ByPriority(r.orders) && ConfigOk(r.config)
    ensures |orders| == |r.orders| && forall o :: o in orders <==> o in r.orders
    ensures DistinctIds(orders) && BarsOrdered(r.bars)
    ensures forall i :: 0 <= i < |orders| ==> 0.0 <= orders[i].quantity
    ensures forall j :: 0 <= j < |r.bars| ==> 0.0 <= r.bars[j].volume
    ensures Knows(orders, last) && Knows(orders, Start(orders))
    ensures FoldBars(m, r.bars, 0, orders, Start(orders)) == Ok(last)
    ensures result == CostResult(last.fills, Unfilled(orders, last.remaining), last.total)
  {
    m, orders := MarketOf(r.config), ByPriority(r.orders);
    MarketIsSound(r.config);
    ByPriorityKeeps(r.orders);
    StartKnows(r.orders);
    last := FoldBars(m, r.bars, 0, orders, Start(orders)).value;
  }

  lemma StartIsBalanced(m: Market, orders: seq<Order>, bars: seq<Bar>)
    requires DistinctIds(orders) && Knows(orders, Start(orders))
    ensures Between(m, orders, bars, 0, Start(orders))
  {
  }

  lemma FoldIsLogged(m: Market, orders: seq<Order>, bars: seq<Bar>, last: Progress)
    requires Sound(m) && DistinctIds(orders) && BarsOrdered(bars) && Knows(orders, Start(orders))
    requires FoldBars(m, bars, 0, orders, Start(orders)) == Ok(last)
    ensures Between(m, orders, bars, |bars|, last)
  {
    StartIsBalanced(m, orders, bars);
    BarsKeep(m, orders, bars, 0, Start(orders), last);
  }

  ghost predicate Reports(m: Market, orders: seq<Order>, bars: seq<Bar>, result: CostResult) {
    && Log(m, orders, bars, result.fills) && AllExhausted(m, orders, bars, result.fills)
    && result.totalCost == Costs(result.fills) && |result.unfilled| == |orders|
    && forall i :: 0 <= i < |orders| ==>
         result.unfilled[i] == (orders[i].id, orders[i].quantity - FilledBy(result.fills, orders[i].id))
  }

  lemma EndReports(m: Market, orders: seq<Order>, bars: seq<Bar>, last: Progress)
    requires Sound(m) && DistinctIds(orders) && BarsOrdered(bars) && Between(m, orders, bars, |bars|, last)
    ensures Knows(orders, last)
    ensures Reports(m, orders, bars, CostResult(last.fills, Unfilled(orders, last.remaining), last.total))
  {
    assert bars[..|bars|] == bars;
  }

  /** A finished simulation's log is explained fill by fill, and its counters agree with it. */
  lemma FinishedReports(m: Market, orders: seq<Order>, bars: seq<Bar>, last: Progress)
    requires Sound(m) && DistinctIds(orders) && BarsOrdered(bars) && Knows(orders, Start(orders)) && Knows(orders, last)
    requires FoldBars(m, bars, 0, orders, Start(orders)) == Ok(last)
    ensures Reports(m, orders, bars, CostResult(last.fills, Unfilled(orders, last.remaining), last.total))
  {
    FoldIsLogged(m, orders, bars, last);
    EndReports(m, orders, bars, last);
  }

  /** Filled plus unfilled is each order's quantity, and neither is negative. */
  lemma QuantityIsConserved(r: Request, result: CostResult, i: nat)
    requires Simulate(r) == Ok(result) && i < |r.orders|
    ensures |result.unfilled| == |r.orders| && |ByPriority(r.orders)| == |r.orders|
    ensures var o := ByPriority(r.orders)[i];
      && result.unfilled[i].0 == o.id
      && FilledBy(result.fills, o.id) + result.unfilled[i].1 == o.quantity
      && 0.0 <= FilledBy(result.fills, o.id) && 0.0 <= result.unfilled[i].1
  {
    var m, orders, last := Unfold(r, result);
    FinishedReports(m, orders, r.bars, last);
    FilledWithinQuantity(m, orders, r.bars, result.fills, i);
  }

  lemma MarketCapacity(c: CostConfig, b: Bar)
    requires ConfigOk(c) && 0.0 <= b.volume
    ensures MarketOf(c).capacity(b) == b.volume * c.participation && 0.0 <= b.volume * c.participation
  {
    NonNegativeProduct(b.volume, c.participation);
  }

  /** All orders together take at most the participation share of a bar's volume. */
  lemma BarSharesItsVolume(r: Request, result: CostResult, j: nat)
    requires Simulate(r) == Ok(result) && j < |r.bars|
    ensures 0.0 <= FilledIn(result.fills, r.bars[j].start) <= r.bars[j].volume * r.config.participation
  {
    var m, orders, last := Unfold(r, result);
    FinishedReports(m, orders, r.bars, last);
    MarketCapacity(r.config, r.bars[j]);
    FilledWithinCapacity(m, orders, r.bars, result.fills, j);
  }

  /** The order has less than one increment left to fill by the end of the bar, or the bar has less than one
    * increment left to give. */
  predicate NoIncrementLeft(c: CostConfig, o: Order, b: Bar, fills: seq<Fill>) {
    || o.quantity - FilledByThrough(fills, o.id, b.start) < o.quantityIncrement
    || b.volume * c.participation - FilledIn(fills, b.start) < o.quantityIncrement
  }

  lemma ExhaustedMember(m: Market, orders: seq<Order>, bars: seq<Bar>, fills: seq<Fill>, o: Order, j: nat)
    requires AllExhausted(m, orders, bars, fills) && o in orders && j < |bars|
    ensures Exhausted(m, o, bars[j], fills)
  {
    var i :| 0 <= i < |orders| && orders[i] == o;
    assert Exhausted(m, orders[i], bars[j], fills);
  }

  lemma ExhaustedLeavesNothing(c: CostConfig, o: Order, b: Bar, fills: seq<Fill>)
    requires Exhausted(MarketOf(c), o, b, fills) && Tradable(TariffOf(c), o, b)
    ensures NoIncrementLeft(c, o, b, fills)
  {
    assert MarketOf(c).tradable(o, b) == Tradable(TariffOf(c), o, b);
    assert MarketOf(c).capacity(b) == b.volume * c.participation;
  }

  /** At the end of every bar, an order that could trade in it has less than one increment left to fill,
    * or the bar has less than one increment left to give. */
  lemma TradableIsExhausted(r: Request, result: CostResult, o: Order, j: nat)
    requires Simulate(r) == Ok(result) && o in r.orders && j < |r.bars| && Tradable(TariffOf(r.config), o, r.bars[j])
    ensures NoIncrementLeft(r.config, o, r.bars[j], result.fills)
  {
    var m, orders, last := Unfold(r, result);
    FinishedReports(m, orders, r.bars, last);
    ExhaustedMember(m, orders, r.bars, result.fills, o, j);
    ExhaustedLeavesNothing(r.config, o, r.bars[j], result.fills);
  }

  lemma ExplainedIsAdmissible(c: CostConfig, o: Order, b: Bar, prior: seq<Fill>, f: Fill)
    requires ConfigOk(c) && Explains(MarketOf(c), o, b, prior, f)
    ensures Admissible(c, o, b, f)
  {
    TariffIsSincere(c);
    var wanted, left := o.quantity - FilledBy(prior, o.id), MarketOf(c).capacity(b) - FilledIn(prior, b.start);
    DueIsAdmissible(TariffOf(c), c, o, b, wanted, left, !Traded(prior, o.id), f);
  }

  /** Every fill is admissible for one of the orders in one of the bars. */
  lemma FillIsAdmissible(r: Request, result: CostResult, k: nat) returns (i: nat, j: nat)
    requires Simulate(r) == Ok(result) && k < |result.fills|
    ensures |ByPriority(r.orders)| == |r.orders| && i < |r.orders| && j < |r.bars|
    ensures Admissible(r.config, ByPriority(r.orders)[i], r.bars[j], result.fills[k])
  {
    var m, orders, last := Unfold(r, result);
    FinishedReports(m, orders, r.bars, last);
    var prior, f := result.fills[..k], result.fills[k];
    assert Justified(m, orders, r.bars, prior, f);
    i, j :| 0 <= i < |orders| && 0 <= j < |r.bars| && Explains(m, orders[i], r.bars[j], prior, f);
    ExplainedIsAdmissible(r.config, orders[i], r.bars[j], prior, f);
  }

  /** Over a run of n fills, the cash deltas differ from frictionless cash minus the reported cost by less
    * than n quanta. */
  lemma CashIdentity(r: Request, result: CostResult)
    requires Simulate(r) == Ok(result)
    ensures DistinctIds(ByPriority(r.orders))
    ensures var ideal := FrictionlessCash(result.fills, Sides(ByPriority(r.orders)));
      var error := Cash(result.fills) - (ideal - result.totalCost);
      if result.fills == [] then error == 0.0 else -Quanta(|result.fills|) < error < Quanta(|result.fills|)
  {
    var m, orders, last := Unfold(r, result);
    FinishedReports(m, orders, r.bars, last);
    MarketBalances(r.config);
    CashWithinQuanta(m, orders, r.bars, result.fills, (side: Side, f: Fill) => Frictionless(side, f));
  }

  /** No fill reports a negative commission, spread or slippage. */
  lemma CostsAreNonNegative(r: Request, result: CostResult, k: nat)
    requires Simulate(r) == Ok(result) && k < |result.fills|
    ensures 0.0 <= result.fills[k].commission && 0.0 <= result.fills[k].spread && 0.0 <= result.fills[k].slippage
  {
    var m, orders, last := Unfold(r, result);
    FinishedReports(m, orders, r.bars, last);
    var prior, f := result.fills[..k], result.fills[k];
    assert Justified(m, orders, r.bars, prior, f);
    var i, j :| 0 <= i < |orders| && 0 <= j < |r.bars| && Explains(m, orders[i], r.bars[j], prior, f);
    MarketBalances(r.config);
    ExplainedBalances(m, orders[i], r.bars[j], prior, f, (side: Side, f: Fill) => Frictionless(side, f));
  }

  lemma ExplainedCommission(c: CostConfig, o: Order, b: Bar, prior: seq<Fill>, f: Fill)
    requires Explains(MarketOf(c), o, b, prior, f)
    ensures f.commission == Commission(c, f.quantity, f.price, !Traded(prior, f.id))
  {
  }

  /** Each fill's commission, to the last digit: the flat part is in it exactly when the order has no
    * earlier fill. */
  lemma CommissionIsExact(r: Request, result: CostResult, k: nat)
    requires Simulate(r) == Ok(result) && k < |result.fills|
    ensures var f := result.fills[k];
      f.commission == Commission(r.config, f.quantity, f.price, !Traded(result.fills[..k], f.id))
  {
    var m, orders, last := Unfold(r, result);
    FinishedReports(m, orders, r.bars, last);
    var prior, f := result.fills[..k], result.fills[k];
    assert Justified(m, orders, r.bars, prior, f);
    var i, j :| 0 <= i < |orders| && 0 <= j < |r.bars| && Explains(m, orders[i], r.bars[j], prior, f);
    ExplainedCommission(r.config, orders[i], r.bars[j], prior, f);
  }

  /** An order that trades pays the flat commission exactly once on top of its proportional commissions,
    * rounded up by less than one quantum for each of its own fills; one that does not trade pays nothing. */
  lemma FlatCommissionOnce(r: Request, result: CostResult, id: int)
    requires Simulate(r) == Ok(result)
    ensures PaysFlatOnce(result.fills, id, Proportional(Rate(r.config)), r.config.commissionFlat)
  {
    var m, orders, last := Unfold(r, result);
    FinishedReports(m, orders, r.bars, last);
    MarketCharges(r.config);
    FlatOnce(m, orders, r.bars, result.fills, id, Proportional(Rate(r.config)), r.config.commissionFlat);
  }

  // ----- Independence of the input order -----

  lemma {:induction false} PrioritisedIsUnique(a: seq<Order>, b: seq<Order>)
    requires Prioritised(a) && Prioritised(b) && multiset(a) == multiset(b)
    ensures a == b
  {
    if a == [] {
      assert |multiset(b)| == 0;
    } else {
      assert a[0] in multiset(b) && |multiset(a)| == |multiset(b)|;
      assert b[0] in multiset(a);
      assert a[0] == b[0];
      assert a == [a[0]] + a[1..] && b == [b[0]] + b[1..];
      assert multiset(a[1..]) == multiset(a) - multiset{a[0]};
      assert multiset(b[1..]) == multiset(b) - multiset{b[0]};
      PrioritisedIsUnique(a[1..], b[1..]);
    }
  }

  lemma AcceptsPermuted(r: Request, s: Request)
    requires r.config == s.config && r.bars == s.bars && multiset(r.orders) == multiset(s.orders) && Accepts(r)
    ensures Accepts(s)
  {
    assert |multiset(r.orders)| == |multiset(s.orders)|;
    forall i | 0 <= i < |s.orders| ensures OrderOk(s.orders[i]) {
      assert s.orders[i] in multiset(r.orders);
    }
    DistinctPermuted(r.orders, s.orders);
  }

  lemma DistinctPermuted(a: seq<Order>, b: seq<Order>)
    requires multiset(a) == multiset(b) && DistinctIds(a)
    ensures DistinctIds(b)
  {
    forall i, j | 0 <= i < j < |b| ensures b[i].id != b[j].id {
      if b[i].id == b[j].id {
        assert b[i] in multiset(a) && b[j] in multiset(a);
        var k :| 0 <= k < |a| && a[k] == b[i];
        var l :| 0 <= l < |a| && a[l] == b[j];
        TwiceMeansTwo(b, i, j);
        OnceMeansOne(a, k);
        assert false;
      }
    }
  }

  lemma TwiceMeansTwo(s: seq<Order>, i: nat, j: nat)
    requires i < j < |s| && s[i] == s[j]
    ensures multiset(s)[s[i]] >= 2
  {
    assert s == s[..j] + s[j..];
    assert s[..j][i] == s[i] && s[j..][0] == s[i];
    assert s[i] in multiset(s[..j]) && s[i] in multiset(s[j..]);
  }

  lemma OnceMeansOne(s: seq<Order>, k: nat)
    requires DistinctIds(s) && k < |s|
    ensures multiset(s)[s[k]] == 1
  {
    var head, tail := s[..k], s[k + 1..];
    assert s == head + [s[k]] + tail;
    assert s[k] !in head && s[k] !in tail;
    assert multiset(head)[s[k]] == 0 && multiset(tail)[s[k]] == 0;
  }

  /** The result does not depend on the order in which the candidates are listed. */
  lemma InputOrderIrrelevant(r: Request, s: Request)
    requires r.config == s.config && r.bars == s.bars && multiset(r.orders) == multiset(s.orders)
    ensures Simulate(r) == Simulate(s)
  {
    if Accepts(r) {
      AcceptsPermuted(r, s);
      ByPriorityKeeps(r.orders);
      ByPriorityKeeps(s.orders);
      PrioritisedIsUnique(ByPriority(r.orders), ByPriority(s.orders));
    } else if Accepts(s) {
      AcceptsPermuted(s, r);
    }
  }
}
