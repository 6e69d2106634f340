/** The hypothetical fill simulator: next-open fills with adverse rounding, shared bar liquidity and
  * money costs. Decimals are exact reals, instants are integers (seconds), and candidate ids are
  * integers ranked as their strings are. */
module FillCosts {
  import opened Common
  import opened Rounding

  const ECONOMIC_BOUND: real := 1000000000000.0
  const MAXIMUM_FILLS: nat := 4096

  datatype Side = Buy | Sell

  datatype CostConfig = CostConfig(
    commissionFlat: real, commissionBps: real, halfSpreadBps: real, slippageBps: real,
    participation: real, minimumDelay: int, unitTestZeroCost: bool)

  datatype Order = Order(
    id: int, createdAt: int, expiresAt: int, side: Side, quantity: real, quantityIncrement: Positive,
    limitPrice: real, priceIncrement: Positive, maximumNotional: real)

  datatype Bar = Bar(start: int, closedAt: int, open: Positive, high: real, volume: real)

  datatype Request = Request(config: CostConfig, orders: seq<Order>, bars: seq<Bar>)

  datatype Fill = Fill(
    id: int, barStart: int, windowEnd: int, quantity: real, referencePrice: real, price: real,
    commission: real, spread: real, slippage: real, cashDelta: real)

  datatype CostError = InputInvalid | ResultLimit

  datatype CostResult = CostResult(fills: seq<Fill>, unfilled: seq<(int, real)>, totalCost: real)

  // ----- Accepted requests -----

  predicate BpsOk(x: real) { 0.0 <= x <= 1000.0 }

  predicate ConfigOk(c: CostConfig) {
    && 0.0 <= c.commissionFlat <= 1000000.0
    && BpsOk(c.commissionBps) && BpsOk(c.halfSpreadBps) && BpsOk(c.slippageBps)
    && 0.0 < c.participation <= 1.0
    && 1 <= c.minimumDelay <= 86400
    && (c.unitTestZeroCost || c.commissionFlat != 0.0 || c.commissionBps != 0.0
        || c.halfSpreadBps != 0.0 || c.slippageBps != 0.0)
  }

  predicate OrderOk(o: Order) {
    && o.createdAt < o.expiresAt
    && 0.0 < o.quantity <= ECONOMIC_BOUND && QUANTUM <= o.quantityIncrement
    && 0.0 < o.limitPrice <= ECONOMIC_BOUND && QUANTUM <= o.priceIncrement
    && MultipleOf(o.quantity, o.quantityIncrement) && MultipleOf(o.limitPrice, o.priceIncrement)
    && o.quantity * o.limitPrice <= o.maximumNotional <= ECONOMIC_BOUND
  }

  predicate BarOk(b: Bar) {
    b.start < b.closedAt && b.open <= b.high <= ECONOMIC_BOUND && 0.0 <= b.volume <= ECONOMIC_BOUND
  }

  predicate DistinctIds(orders: seq<Order>) {
    forall i, j :: 0 <= i < j < |orders| ==> orders[i].id != orders[j].id
  }

  predicate BarsOrdered(bars: seq<Bar>) {
    forall i :: 0 < i < |bars| ==> bars[i - 1].start < bars[i].start && bars[i - 1].closedAt <= bars[i].start
  }

  predicate Accepts(r: Request) {
    && ConfigOk(r.config)
    && 1 <= |r.orders| <= 128 && 1 <= |r.bars| <= 500
    && (forall i :: 0 <= i < |r.orders| ==> OrderOk(r.orders[i]))
    && (forall i :: 0 <= i < |r.bars| ==> BarOk(r.bars[i]))
    && DistinctIds(r.orders) && BarsOrdered(r.bars)
  }

  // ----- Arithmetic -----

  function Min(x: real, y: real): real { if x <= y then x else y }

  function Abs(x: real): real { if x < 0.0 then -x else x }

  // ----- Prices and charges -----

  function Direction(side: Side): real { if side.Buy? then 1.0 else -1.0 }

  function Unrounded(c: CostConfig, side: Side, open: real): real {
    open + Direction(side) * (open * (c.halfSpreadBps + c.slippageBps) / 10000.0)
  }

  function ExecutionPrice(c: CostConfig, o: Order, b: Bar): real {
    if o.side.Buy?
    then CeilTo(Unrounded(c, o.side, b.open), o.priceIncrement)
    else FloorTo(Unrounded(c, o.side, b.open), o.priceIncrement)
  }

  /** The commission before it is rounded. */
  function CommissionBefore(c: CostConfig, quantity: real, price: real, first: bool): real {
    quantity * price * c.commissionBps / 10000.0 + if first then c.commissionFlat else 0.0
  }

  function Commission(c: CostConfig, quantity: real, price: real, first: bool): real {
    CeilTo(CommissionBefore(c, quantity, price, first), QUANTUM)
  }

  /** The spread before it is rounded. */
  function SpreadBefore(c: CostConfig, quantity: real, open: real): real {
    quantity * open * c.halfSpreadBps / 10000.0
  }

  function SpreadCost(c: CostConfig, quantity: real, open: real): real {
    FloorTo(SpreadBefore(c, quantity, open), QUANTUM)
  }

  function SlippageCost(c: CostConfig, quantity: real, price: real, open: real): real {
    CeilTo(quantity * Abs(price - open) - SpreadCost(c, quantity, open), QUANTUM)
  }

  /** The cash before it is rounded. */
  function CashBefore(side: Side, quantity: real, price: real, commission: real): real {
    -Direction(side) * quantity * price - commission
  }

  function CashDelta(side: Side, quantity: real, price: real, commission: real): real {
    FloorTo(CashBefore(side, quantity, price, commission), QUANTUM)
  }

  /** A configuration as its price and its charges. */
  datatype Tariff = Tariff(
    delay: int,
    price: (Order, Bar) -> real,
    commission: (real, real, bool) -> real,
    spread: (real, real) -> real,
    slippage: (real, real, real) -> real,
    cash: (Side, real, real, real) -> real)

  function TariffOf(c: CostConfig): Tariff {
    Tariff(c.minimumDelay,
           (o: Order, b: Bar) => ExecutionPrice(c, o, b),
           (quantity: real, price: real, first: bool) => Commission(c, quantity, price, first),
           (quantity: real, open: real) => SpreadCost(c, quantity, open),
           (quantity: real, price: real, open: real) => SlippageCost(c, quantity, price, open),
           (side: Side, quantity: real, price: real, commission: real) => CashDelta(side, quantity, price, commission))
  }

  // ----- One order against one bar -----

  predicate InWindow(delay: int, o: Order, b: Bar) {
    o.createdAt + delay <= b.start && b.closedAt <= o.expiresAt
  }

  predicate WithinLimit(o: Order, price: real) {
    0.0 < price && if o.side.Buy? then price <= o.limitPrice else price >= o.limitPrice
  }

  /** The order may trade in this bar at all, liquidity and remaining quantity aside. */
  predicate Tradable(t: Tariff, o: Order, b: Bar) {
    InWindow(t.delay, o, b) && WithinLimit(o, t.price(o, b))
  }

  function MakeFill(t: Tariff, o: Order, b: Bar, quantity: real, first: bool): Fill {
    var price := t.price(o, b);
    var commission := t.commission(quantity, price, first);
    Fill(o.id, b.start, b.closedAt, quantity, b.open, price, commission, t.spread(quantity, b.open),
         t.slippage(quantity, price, b.open), t.cash(o.side, quantity, price, commission))
  }

  function CostOf(f: Fill): real { f.commission + f.spread + f.slippage }

  // ----- The simulation as a function -----

  datatype Progress = Progress(
    remaining: map<int, real>, charged: set<int>, fills: seq<Fill>, total: real, liquidity: real)

  predicate Knows(orders: seq<Order>, p: Progress) {
    forall i :: 0 <= i < |orders| ==> orders[i].id in p.remaining
  }

  /** The fill an order is due in a bar, given what it still wants, what liquidity is left, and whether
    * it has yet to pay its flat commission. */
  function Due(t: Tariff, o: Order, b: Bar, wanted: real, left: real, first: bool): Option<Fill> {
    var quantity := FloorTo(Min(wanted, left), o.quantityIncrement);
    if wanted == 0.0 || !Tradable(t, o, b) || quantity <= 0.0 then None
    else Some(MakeFill(t, o, b, quantity, first))
  }

  /** What a configuration decides, seen by the loops over bars and orders: how much a bar can give,
    * which orders may trade in it, and the fill an order is due. */
  datatype Market = Market(
    capacity: Bar -> real, tradable: (Order, Bar) -> bool, due: (Order, Bar, real, real, bool) -> Option<Fill>)

  function MarketOf(c: CostConfig): Market {
    var t := TariffOf(c);
    Market((b: Bar) => b.volume * c.participation,
           (o: Order, b: Bar) => Tradable(t, o, b),
           (o: Order, b: Bar, wanted: real, left: real, first: bool) => Due(t, o, b, wanted, left, first))
  }

  function Filled(o: Order, f: Fill, p: Progress): Progress
    requires o.id in p.remaining
  {
    Progress(p.remaining[o.id := p.remaining[o.id] - f.quantity], p.charged + {o.id}, p.fills + [f],
             p.total + CostOf(f), p.liquidity - f.quantity)
  }

  function StepOrder(m: Market, o: Order, b: Bar, p: Progress): (r: Result<Progress, CostError>)
    requires o.id in p.remaining
    ensures r.Ok? ==> r.value.remaining.Keys == p.remaining.Keys
  {
    match m.due(o, b, p.remaining[o.id], p.liquidity, o.id !in p.charged)
    case None => Ok(p)
    case Some(f) => if |p.fills| >= MAXIMUM_FILLS then Err(ResultLimit) else Ok(Filled(o, f, p))
  }

  function FoldOrders(m: Market, b: Bar, orders: seq<Order>, i: nat, p: Progress): (r: Result<Progress, CostError>)
    requires i <= |orders| && Knows(orders, p)
    ensures r.Ok? ==> r.value.remaining.Keys == p.remaining.Keys
    decreases |orders| - i
  {
    if i == |orders| then Ok(p)
    else
      match StepOrder(m, orders[i], b, p)
      case Err(e) => Err(e)
      case Ok(next) => FoldOrders(m, b, orders, i + 1, next)
  }

  function OpenBar(m: Market, b: Bar, p: Progress): Progress {
    p.(liquidity := m.capacity(b))
  }

  function FoldBars(
    m: Market, bars: seq<Bar>, j: nat, orders: seq<Order>, p: Progress): (r: Result<Progress, CostError>)
    requires j <= |bars| && Knows(orders, p)
    ensures r.Ok? ==> r.value.remaining.Keys == p.remaining.Keys
    decreases |bars| - j
  {
    if j == |bars| then Ok(p)
    else
      match FoldOrders(m, bars[j], orders, 0, OpenBar(m, bars[j], p))
      case Err(e) => Err(e)
      case Ok(next) => FoldBars(m, bars, j + 1, orders, next)
  }

  // ----- Priority order -----

  predicate Before(a: Order, b: Order) {
    a.createdAt < b.createdAt || (a.createdAt == b.createdAt && a.id < b.id)
  }

  predicate Prioritised(orders: seq<Order>) {
    forall i, j :: 0 <= i < j < |orders| ==> Before(orders[i], orders[j])
  }

  function Insert(o: Order, orders: seq<Order>): (r: seq<Order>)
    ensures multiset(r) == multiset(orders) + multiset{o}
  {
    if orders == [] then [o]
    else if Before(o, orders[0]) then assert [o] + orders == [o] + orders; [o] + orders
    else
      var rest := Insert(o, orders[1..]);
      assert orders == [orders[0]] + orders[1..];
      [orders[0]] + rest
  }

  function ByPriority(orders: seq<Order>): (r: seq<Order>)
    ensures multiset(r) == multiset(orders)
  {
    if orders == [] then []
    else
      assert orders == [orders[0]] + orders[1..];
      Insert(orders[0], ByPriority(orders[1..]))
  }

  function Quantities(orders: seq<Order>): map<int, real>
    requires DistinctIds(orders)
  {
    map i | 0 <= i < |orders| :: orders[i].id := orders[i].quantity
  }

  function Start(orders: seq<Order>): Progress
    requires DistinctIds(orders)
  {
    Progress(Quantities(orders), {}, [], 0.0, 0.0)
  }

  function Unfilled(orders: seq<Order>, remaining: map<int, real>): (r: seq<(int, real)>)
    requires forall i :: 0 <= i < |orders| ==> orders[i].id in remaining
  {
    seq(|orders|, i requires 0 <= i < |orders| => (orders[i].id, remaining[orders[i].id]))
  }

  lemma PrependKeeps(head: Order, rest: seq<Order>)
    requires Prioritised(rest) && DistinctIds(rest)
    requires forall i :: 0 <= i < |rest| ==> Before(head, rest[i]) && rest[i].id != head.id
    ensures Prioritised([head] + rest) && DistinctIds([head] + rest)
  {
  }

  lemma {:induction false} InsertKeeps(o: Order, orders: seq<Order>)
    requires Prioritised(orders) && DistinctIds(orders)
    requires forall i :: 0 <= i < |orders| ==> orders[i].id != o.id
    ensures Prioritised(Insert(o, orders)) && DistinctIds(Insert(o, orders))
  {
    if orders == [] {
    } else if Before(o, orders[0]) {
      PrependKeeps(o, orders);
    } else {
      var tail := orders[1..];
      InsertKeeps(o, tail);
      var rest := Insert(o, tail);
      forall i | 0 <= i < |rest| ensures Before(orders[0], rest[i]) && rest[i].id != orders[0].id {
        assert rest[i] in multiset(rest);
        assert rest[i] == o || rest[i] in tail;
      }
      PrependKeeps(orders[0], rest);
    }
  }

  lemma {:induction false} ByPriorityKeeps(orders: seq<Order>)
    requires DistinctIds(orders)
    ensures Prioritised(ByPriority(orders)) && DistinctIds(ByPriority(orders))
    ensures forall o :: o in ByPriority(orders) <==> o in orders
    ensures |ByPriority(orders)| == |orders|
  {
    if orders != [] {
      var rest := ByPriority(orders[1..]);
      ByPriorityKeeps(orders[1..]);
      forall i | 0 <= i < |rest| ensures rest[i].id != orders[0].id {
        assert rest[i] in orders[1..];
      }
      InsertKeeps(orders[0], rest);
    }
    forall o ensures o in ByPriority(orders) <==> o in orders {
      assert o in multiset(ByPriority(orders)) <==> o in multiset(orders);
    }
    assert |multiset(ByPriority(orders))| == |multiset(orders)|;
  }

  lemma StartKnows(orders: seq<Order>)
    requires DistinctIds(orders) && forall i :: 0 <= i < |orders| ==> OrderOk(orders[i])
    ensures DistinctIds(ByPriority(orders)) && Knows(ByPriority(orders), Start(ByPriority(orders)))
    ensures forall i :: 0 <= i < |ByPriority(orders)| ==> OrderOk(ByPriority(orders)[i])
  {
    ByPriorityKeeps(orders);
    var sorted := ByPriority(orders);
    forall i | 0 <= i < |sorted| ensures OrderOk(sorted[i]) {
      assert sorted[i] in orders;
    }
  }

  /** What the simulator reports for a request. */
  function Simulate(r: Request): Result<CostResult, CostError> {
    if !Accepts(r) then Err(InputInvalid)
    else
      StartKnows(r.orders);
      var orders := ByPriority(r.orders);
      match FoldBars(MarketOf(r.config), r.bars, 0, orders, Start(orders))
      case Err(e) => Err(e)
      case Ok(p) => Ok(CostResult(p.fills, Unfilled(orders, p.remaining), p.total))
  }

  /** The inner loop: every prioritised order meets one bar. */
  method FillBar(m: Market, b: Bar, orders: seq<Order>, p: Progress) returns (result: Result<Progress, CostError>)
    requires Knows(orders, p)
    ensures result == FoldOrders(m, b, orders, 0, p)
  {
    var remaining, charged, fills, total, liquidity := p.remaining, p.charged, p.fills, p.total, p.liquidity;
    for i := 0 to |orders|
      invariant remaining.Keys == p.remaining.Keys
      invariant FoldOrders(m, b, orders, 0, p)
             == FoldOrders(m, b, orders, i, Progress(remaining, charged, fills, total, liquidity))
    {
      var o := orders[i];
      var due := m.due(o, b, remaining[o.id], liquidity, o.id !in charged);
      if due.None? { continue; }
      if |fills| >= MAXIMUM_FILLS { return Err(ResultLimit); }
      var fill := due.value;
      fills := fills + [fill];
      remaining := remaining[o.id := remaining[o.id] - fill.quantity];
      liquidity := liquidity - fill.quantity;
      charged := charged + {o.id};
      total := total + CostOf(fill);
    }
    return Ok(Progress(remaining, charged, fills, total, liquidity));
  }

  /** The outer loop over bars. */
  method SimulateCosts(r: Request) returns (result: Result<CostResult, CostError>)
    ensures result == Simulate(r)
  {
    if !Accepts(r) { return Err(InputInvalid); }
    StartKnows(r.orders);
    var c, orders := r.config, ByPriority(r.orders);
    var p := Start(orders);
    for j := 0 to |r.bars|
      invariant Knows(orders, p)
      invariant FoldBars(MarketOf(c), r.bars, 0, orders, Start(orders)) == FoldBars(MarketOf(c), r.bars, j, orders, p)
    {
      var outcome := FillBar(MarketOf(c), r.bars[j], orders, OpenBar(MarketOf(c), r.bars[j], p));
      if outcome.Err? { return Err(outcome.error); }
      p := outcome.value;
    }
    return Ok(CostResult(p.fills, Unfilled(orders, p.remaining), p.total));
  }
}
