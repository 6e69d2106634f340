/** When the simulator refuses, which orders it must fill, and what each fill's money is to the last digit, said
  * over prices, windows and amounts. */
module FillLaws {
  import opened Common
  import opened Rounding
  import opened FillCosts
  import opened FillCostTheorems
  import opened FillMoney
  import opened FillLedger
  import opened FillConservation

  // ----- Accepted input -----

  /** Rates and participation within their ranges, and some cost unless zero cost is asked for. */
  predicate RatesInRange(c: CostConfig) {
    && 0.0 <= c.commissionFlat <= 1000000.0
    && 0.0 <= c.commissionBps <= 1000.0 && 0.0 <= c.halfSpreadBps <= 1000.0 && 0.0 <= c.slippageBps <= 1000.0
    && 0.0 < c.participation <= 1.0 && 1 <= c.minimumDelay <= 86400
    && !(!c.unitTestZeroCost && c.commissionFlat == 0.0 && c.commissionBps == 0.0 && c.halfSpreadBps == 0.0
         && c.slippageBps == 0.0)
  }

  /** A limit order with whole increments, a later expiry, and amounts within a trillion. */
  ghost predicate OrderInRange(o: Order) {
    && o.expiresAt > o.createdAt
    && 0.0 < o.quantity <= 1000000000000.0 && 0.0 < o.limitPrice <= 1000000000000.0
    && o.maximumNotional <= 1000000000000.0 && o.maximumNotional >= o.quantity * o.limitPrice
    && o.quantityIncrement >= 0.00000001 && o.priceIncrement >= 0.00000001
    && Whole(o.quantity, o.quantityIncrement) && Whole(o.limitPrice, o.priceIncrement)
  }

  predicate BarInRange(b: Bar) {
    b.closedAt > b.start && b.open <= b.high && b.high <= 1000000000000.0 && 0.0 <= b.volume <= 1000000000000.0
  }

  /** What a caller must supply. */
  ghost predicate InputOk(r: Request) {
    && RatesInRange(r.config)
    && 1 <= |r.orders| <= 128 && 1 <= |r.bars| <= 500
    && (forall o | o in r.orders :: OrderInRange(o))
    && (forall b | b in r.bars :: BarInRange(b))
    && (forall i, j | 0 <= i < |r.orders| && 0 <= j < |r.orders| && i != j :: r.orders[i].id != r.orders[j].id)
    && (forall i | 0 <= i < |r.bars| - 1 ::
          r.bars[i + 1].start > r.bars[i].start && r.bars[i + 1].start >= r.bars[i].closedAt)
  }

  lemma OrderOkIff(o: Order)
    ensures OrderOk(o) <==> OrderInRange(o)
  {
    WholeIsMultiple(o.quantity, o.quantityIncrement);
    WholeIsMultiple(o.limitPrice, o.priceIncrement);
  }

  lemma BarsOrderedIff(bars: seq<Bar>)
    ensures BarsOrdered(bars) <==>
      forall i | 0 <= i < |bars| - 1 :: bars[i + 1].start > bars[i].start && bars[i + 1].start >= bars[i].closedAt
  {
    if BarsOrdered(bars) {
      forall i | 0 <= i < |bars| - 1
        ensures bars[i + 1].start > bars[i].start && bars[i + 1].start >= bars[i].closedAt {
        assert bars[i + 1 - 1] == bars[i];
      }
    }
    if forall i | 0 <= i < |bars| - 1 :: bars[i + 1].start > bars[i].start && bars[i + 1].start >= bars[i].closedAt {
      forall i | 0 < i < |bars| ensures bars[i - 1].start < bars[i].start && bars[i - 1].closedAt <= bars[i].start {
        assert bars[i - 1 + 1] == bars[i];
      }
    }
  }

  /** The request is refused as invalid if and only if it is not what a caller must supply. */
  lemma InvalidIff(r: Request)
    ensures Simulate(r) == Err(InputInvalid) <==> !InputOk(r)
  {
    AcceptsIff(r);
    if Accepts(r) {
      StartKnows(r.orders);
      NeverInvalid(MarketOf(r.config), r.bars, 0, ByPriority(r.orders), Start(ByPriority(r.orders)));
    }
  }

  lemma AcceptsIff(r: Request)
    ensures Accepts(r) <==> InputOk(r)
  {
    forall i | 0 <= i < |r.orders| ensures OrderOk(r.orders[i]) <==> OrderInRange(r.orders[i]) {
      OrderOkIff(r.orders[i]);
    }
    BarsOrderedIff(r.bars);
    if Accepts(r) {
      forall o | o in r.orders ensures OrderInRange(o) {
        var i :| 0 <= i < |r.orders| && r.orders[i] == o;
      }
      forall b | b in r.bars ensures BarInRange(b) {
        var i :| 0 <= i < |r.bars| && r.bars[i] == b;
      }
    }
    if InputOk(r) {
      forall i | 0 <= i < |r.bars| ensures BarOk(r.bars[i]) {
        assert BarInRange(r.bars[i]);
      }
    }
  }

  lemma {:induction false} OrdersNeverInvalid(m: Market, b: Bar, orders: seq<Order>, i: nat, p: Progress)
    requires i <= |orders| && Knows(orders, p)
    ensures FoldOrders(m, b, orders, i, p) != Err(InputInvalid)
    decreases |orders| - i
  {
    if i < |orders| {
      var step := StepOrder(m, orders[i], b, p);
      if step.Ok? { OrdersNeverInvalid(m, b, orders, i + 1, step.value); }
    }
  }

  lemma {:induction false} NeverInvalid(m: Market, bars: seq<Bar>, j: nat, orders: seq<Order>, p: Progress)
    requires j <= |bars| && Knows(orders, p)
    ensures FoldBars(m, bars, j, orders, p) != Err(InputInvalid)
    decreases |bars| - j
  {
    if j < |bars| {
      OrdersNeverInvalid(m, bars[j], orders, 0, OpenBar(m, bars[j], p));
      var next := FoldOrders(m, bars[j], orders, 0, OpenBar(m, bars[j], p));
      if next.Ok? { NeverInvalid(m, bars, j + 1, orders, next.value); }
    }
  }

  // ----- The one price -----

  /** The tick on the order's bad side of the open, moved by half-spread and slippage, and nearest to it. */
  ghost predicate WorstTick(c: CostConfig, o: Order, open: real, price: real) {
    var moved := open * (c.halfSpreadBps + c.slippageBps) / 10000.0;
    && Whole(price, o.priceIncrement)
    && (o.side.Buy? ==> open + moved <= price < open + moved + o.priceIncrement)
    && (o.side.Sell? ==> open - moved - o.priceIncrement < price <= open - moved)
  }

  lemma PriceIsWorstTick(c: CostConfig, o: Order, b: Bar)
    ensures WorstTick(c, o, b.open, ExecutionPrice(c, o, b))
  {
    var moved := b.open * (c.halfSpreadBps + c.slippageBps) / 10000.0;
    assert Unrounded(c, o.side, b.open) == if o.side.Buy? then b.open + moved else b.open - moved;
    RoundedIsWhole(Unrounded(c, o.side, b.open), o.priceIncrement);
    FloorToBounds(Unrounded(c, o.side, b.open), o.priceIncrement);
    CeilToBounds(Unrounded(c, o.side, b.open), o.priceIncrement);
  }

  lemma OneWorstTick(c: CostConfig, o: Order, open: real, p: real, q: real)
    requires WorstTick(c, o, open, p) && WorstTick(c, o, open, q)
    ensures p == q
  {
    if p <= q { SameWhole(q, p, o.priceIncrement); } else { SameWhole(p, q, o.priceIncrement); }
  }

  /** The order may trade in the bar: the bar starts once the delay has passed and closes by the expiry, and the
    * price is positive and at or inside the limit. */
  predicate Eligible(c: CostConfig, o: Order, b: Bar, price: real) {
    && o.createdAt + c.minimumDelay <= b.start && b.closedAt <= o.expiresAt
    && 0.0 < price
    && (o.side.Buy? ==> price <= o.limitPrice)
    && (o.side.Sell? ==> price >= o.limitPrice)
  }

  lemma TradableIff(c: CostConfig, o: Order, b: Bar, price: real)
    requires WorstTick(c, o, b.open, price)
    ensures Tradable(TariffOf(c), o, b) <==> Eligible(c, o, b, price)
  {
    PriceIsWorstTick(c, o, b);
    OneWorstTick(c, o, b.open, price, ExecutionPrice(c, o, b));
    assert TariffOf(c).price(o, b) == ExecutionPrice(c, o, b);
  }

  /** After every bar, an order that was eligible in it has less than one increment left to fill, or the bar has
    * less than one increment left to give. */
  lemma NothingFillableIsLeft(r: Request, result: CostResult, o: Order, j: nat, price: real)
    requires Simulate(r) == Ok(result) && o in r.orders && j < |r.bars|
    requires WorstTick(r.config, o, r.bars[j].open, price) && Eligible(r.config, o, r.bars[j], price)
    ensures NoIncrementLeft(r.config, o, r.bars[j], result.fills)
  {
    TradableIff(r.config, o, r.bars[j], price);
    TradableIsExhausted(r, result, o, j);
  }

  // ----- Every fill -----

  lemma ExplainedIsExact(c: CostConfig, o: Order, b: Bar, prior: seq<Fill>, f: Fill)
    requires Explains(MarketOf(c), o, b, prior, f)
    ensures ExactMoney(c, o.side, !Traded(prior, o.id), f) && WorstTick(c, o, b.open, f.price)
    ensures f.id == o.id && f.barStart == b.start && f.referencePrice == b.open && Eligible(c, o, b, f.price)
  {
    var wanted, left := o.quantity - FilledBy(prior, o.id), MarketOf(c).capacity(b) - FilledIn(prior, b.start);
    TariffIsExact(c);
    DueIsExact(TariffOf(c), c, o, b, wanted, left, !Traded(prior, o.id), f);
    PriceIsWorstTick(c, o, b);
    TradableIff(c, o, b, f.price);
  }

  /** Every fill trades an eligible order at its one price, and its money is exact to the last digit. */
  lemma FillIsExact(r: Request, result: CostResult, k: nat) returns (o: Order, b: Bar)
    requires Simulate(r) == Ok(result) && k < |result.fills|
    ensures var f := result.fills[k];
      && o in r.orders && b in r.bars
      && f.id == o.id && f.barStart == b.start && f.referencePrice == b.open
      && WorstTick(r.config, o, b.open, f.price) && Eligible(r.config, o, b, f.price)
      && ExactMoney(r.config, o.side, !Traded(result.fills[..k], o.id), f)
  {
    var m, orders, last := Unfold(r, result);
    FinishedReports(m, orders, r.bars, last);
    var prior, f := result.fills[..k], result.fills[k];
    assert Justified(m, orders, r.bars, prior, f);
    var i, j :| 0 <= i < |orders| && 0 <= j < |r.bars| && Explains(m, orders[i], r.bars[j], prior, f);
    o, b := orders[i], r.bars[j];
    assert o in orders;
    ExplainedIsExact(r.config, o, b, prior, f);
  }

  // ----- The fill limit -----

  /** A log of 4096 explained fills and one more that is due. */
  ghost predicate OneTooMany(m: Market, orders: seq<Order>, bars: seq<Bar>, fills: seq<Fill>) {
    |fills| == 4097 && LogJustified(m, orders, bars, fills)
  }

  ghost predicate Overflows(m: Market, orders: seq<Order>, bars: seq<Bar>) {
    exists fills :: OneTooMany(m, orders, bars, fills)
  }

  lemma {:induction false} OrdersOverflow(
    m: Market, orders: seq<Order>, bars: seq<Bar>, j: nat, i: nat, p: Progress)
    requires Sound(m) && DistinctIds(orders) && j < |bars| && i <= |orders|
    requires Ledger(m, orders, bars, j, i, p) && |p.fills| <= 4096
    ensures var r := FoldOrders(m, bars[j], orders, i, p);
      if r.Ok? then |r.value.fills| <= 4096 else Overflows(m, orders, bars)
    decreases |orders| - i
  {
    if i < |orders| {
      var o := orders[i];
      var due := m.due(o, bars[j], p.remaining[o.id], p.liquidity, o.id !in p.charged);
      var step := StepOrder(m, o, bars[j], p);
      if step.Ok? {
        StepKeeps(m, orders, bars, j, i, p, step.value);
        OrdersOverflow(m, orders, bars, j, i + 1, step.value);
      } else {
        DueIsJustified(m, orders, bars, j, i, p);
        JustifiedExtends(m, orders, bars, p.fills, due.value);
        assert OneTooMany(m, orders, bars, p.fills + [due.value]);
      }
    }
  }

  lemma {:induction false} BarsOverflow(m: Market, orders: seq<Order>, bars: seq<Bar>, j: nat, p: Progress)
    requires Sound(m) && DistinctIds(orders) && BarsOrdered(bars) && j <= |bars|
    requires Between(m, orders, bars, j, p) && |p.fills| <= 4096
    ensures var r := FoldBars(m, bars, j, orders, p);
      if r.Ok? then |r.value.fills| <= 4096 else Overflows(m, orders, bars)
    decreases |bars| - j
  {
    if j < |bars| {
      var begun := OpenBar(m, bars[j], p);
      BarOpens(m, orders, bars, j, p);
      OrdersOverflow(m, orders, bars, j, 0, begun);
      var next := FoldOrders(m, bars[j], orders, 0, begun);
      if next.Ok? {
        OrdersKeep(m, orders, bars, j, 0, begun, next.value);
        BarCloses(m, orders, bars, j, next.value);
        BarsOverflow(m, orders, bars, j + 1, next.value);
      }
    }
  }

  /** A simulation of accepted input ends with at most 4096 fills, or else 4096 fills and a 4097th are all due. */
  lemma LimitMeansOneTooMany(r: Request)
    requires InputOk(r)
    ensures Simulate(r).Ok? ==> |Simulate(r).value.fills| <= 4096
    ensures Simulate(r).Err? ==>
      Simulate(r).error == ResultLimit && Overflows(MarketOf(r.config), ByPriority(r.orders), r.bars)
  {
    AcceptsIff(r);
    StartKnows(r.orders);
    var m, orders := MarketOf(r.config), ByPriority(r.orders);
    MarketIsSound(r.config);
    StartIsBalanced(m, orders, r.bars);
    BarsOverflow(m, orders, r.bars, 0, Start(orders));
    InvalidIff(r);
  }
}
