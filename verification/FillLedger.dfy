/** The fill log of a simulation, read back on its own: every fill is explained by the fills before it,
  * and no tradable order is left with a fillable increment at the end of a bar. */
module FillLedger {
  import opened Common
  import opened FillCosts
  import opened FillCostTheorems

  // ----- Sums over a log -----

  function FilledBy(fills: seq<Fill>, id: int): real {
    if fills == [] then 0.0
    else
      var f := fills[|fills| - 1];
      FilledBy(fills[..|fills| - 1], id) + if f.id == id then f.quantity else 0.0
  }

  /** What the order had filled by the end of the bar that starts at `start`. */
  function FilledByThrough(fills: seq<Fill>, id: int, start: int): real {
    if fills == [] then 0.0
    else
      var f := fills[|fills| - 1];
      FilledByThrough(fills[..|fills| - 1], id, start) + if f.id == id && f.barStart <= start then f.quantity else 0.0
  }

  function FilledIn(fills: seq<Fill>, start: int): real {
    if fills == [] then 0.0
    else
      var f := fills[|fills| - 1];
      FilledIn(fills[..|fills| - 1], start) + if f.barStart == start then f.quantity else 0.0
  }

  function Costs(fills: seq<Fill>): real {
    if fills == [] then 0.0 else Costs(fills[..|fills| - 1]) + CostOf(fills[|fills| - 1])
  }

  function Cash(fills: seq<Fill>): real {
    if fills == [] then 0.0 else Cash(fills[..|fills| - 1]) + fills[|fills| - 1].cashDelta
  }

  predicate Traded(fills: seq<Fill>, id: int) {
    exists k :: 0 <= k < |fills| && fills[k].id == id
  }

  lemma Append(fills: seq<Fill>, f: Fill)
    ensures forall id :: FilledBy(fills + [f], id) == FilledBy(fills, id) + if f.id == id then f.quantity else 0.0
    ensures forall id, s ::
      FilledByThrough(fills + [f], id, s)
      == FilledByThrough(fills, id, s) + if f.id == id && f.barStart <= s then f.quantity else 0.0
    ensures forall s :: FilledIn(fills + [f], s) == FilledIn(fills, s) + if f.barStart == s then f.quantity else 0.0
    ensures Costs(fills + [f]) == Costs(fills) + CostOf(f)
    ensures forall id :: Traded(fills + [f], id) <==> Traded(fills, id) || f.id == id
  {
    var all := fills + [f];
    assert all[..|all| - 1] == fills;
    forall id ensures Traded(all, id) <==> Traded(fills, id) || f.id == id {
      if Traded(fills, id) {
        var k :| 0 <= k < |fills| && fills[k].id == id;
        assert all[k].id == id;
      }
      assert all[|fills|] == f;
    }
  }

  lemma {:induction false} ThroughAll(fills: seq<Fill>, id: int, start: int)
    requires forall k :: 0 <= k < |fills| ==> fills[k].barStart <= start
    ensures FilledByThrough(fills, id, start) == FilledBy(fills, id)
  {
    if fills != [] { ThroughAll(fills[..|fills| - 1], id, start); }
  }

  lemma {:induction false} NoneIn(fills: seq<Fill>, start: int)
    requires forall k :: 0 <= k < |fills| ==> fills[k].barStart < start
    ensures FilledIn(fills, start) == 0.0
  {
    if fills != [] { NoneIn(fills[..|fills| - 1], start); }
  }

  // ----- The ledger invariant -----

  /** `f` is what `o` was due in `b` once the fills in `prior` had happened. */
  predicate Explains(m: Market, o: Order, b: Bar, prior: seq<Fill>, f: Fill)
  {
    var wanted := o.quantity - FilledBy(prior, o.id);
    var left := m.capacity(b) - FilledIn(prior, b.start);
    m.due(o, b, wanted, left, !Traded(prior, o.id)) == Some(f)
  }

  ghost predicate Justified(m: Market, orders: seq<Order>, bars: seq<Bar>, prior: seq<Fill>, f: Fill)
  {
    exists i, j :: 0 <= i < |orders| && 0 <= j < |bars| && Explains(m, orders[i], bars[j], prior, f)
  }

  ghost predicate LogJustified(m: Market, orders: seq<Order>, bars: seq<Bar>, fills: seq<Fill>)
  {
    forall k :: 0 <= k < |fills| ==> Justified(m, orders, bars, fills[..k], fills[k])
  }

  /** The order could not trade in the bar, or it had no whole increment left to fill, or the bar had no
    * whole increment left to give. */
  predicate Exhausted(m: Market, o: Order, b: Bar, fills: seq<Fill>)
  {
    || !m.tradable(o, b)
    || o.quantity - FilledByThrough(fills, o.id, b.start) < o.quantityIncrement
    || m.capacity(b) - FilledIn(fills, b.start) < o.quantityIncrement
  }

  ghost predicate AllExhausted(m: Market, orders: seq<Order>, bars: seq<Bar>, fills: seq<Fill>)
  {
    forall i, j :: 0 <= i < |orders| && 0 <= j < |bars| ==> Exhausted(m, orders[i], bars[j], fills)
  }

  ghost predicate Books(orders: seq<Order>, p: Progress) {
    && Knows(orders, p)
    && (forall i :: 0 <= i < |orders| ==>
          p.remaining[orders[i].id] == orders[i].quantity - FilledBy(p.fills, orders[i].id))
    && (forall id :: id in p.charged <==> Traded(p.fills, id))
    && p.total == Costs(p.fills)
  }

  /** Bars before `bars[j]` are finished, and `bars[j]` has met the first `i` orders. */
  ghost predicate Ledger(m: Market, orders: seq<Order>, bars: seq<Bar>, j: nat, i: nat, p: Progress)
    requires j < |bars| && i <= |orders|
  {
    && Books(orders, p)
    && LogJustified(m, orders, bars, p.fills)
    && (forall k :: 0 <= k < |p.fills| ==> p.fills[k].barStart <= bars[j].start)
    && p.liquidity == m.capacity(bars[j]) - FilledIn(p.fills, bars[j].start)
    && AllExhausted(m, orders, bars[..j], p.fills)
    && AllExhausted(m, orders[..i], [bars[j]], p.fills)
  }

  // ----- One order -----

  lemma JustifiedExtends(m: Market, orders: seq<Order>, bars: seq<Bar>, fills: seq<Fill>, f: Fill)
    requires LogJustified(m, orders, bars, fills) && Justified(m, orders, bars, fills, f)
    ensures LogJustified(m, orders, bars, fills + [f])
  {
    var all := fills + [f];
    forall k | 0 <= k < |all| ensures Justified(m, orders, bars, all[..k], all[k]) {
      if k < |fills| {
        assert all[..k] == fills[..k] && all[k] == fills[k];
      } else {
        assert all[..k] == fills && all[k] == f;
      }
    }
  }

  lemma ExhaustedStays(m: Market, o: Order, b: Bar, fills: seq<Fill>, f: Fill)
    requires Exhausted(m, o, b, fills) && f.quantity > 0.0
    ensures Exhausted(m, o, b, fills + [f])
  {
    Append(fills, f);
  }

  lemma AllExhaustedStays(m: Market, orders: seq<Order>, bars: seq<Bar>, fills: seq<Fill>, f: Fill)
    requires AllExhausted(m, orders, bars, fills) && f.quantity > 0.0
    ensures AllExhausted(m, orders, bars, fills + [f])
  {
    forall i, j | 0 <= i < |orders| && 0 <= j < |bars| ensures Exhausted(m, orders[i], bars[j], fills + [f]) {
      ExhaustedStays(m, orders[i], bars[j], fills, f);
    }
  }

  lemma BooksFill(orders: seq<Order>, o: Order, f: Fill, p: Progress)
    requires DistinctIds(orders) && Books(orders, p) && o in orders && f.id == o.id
    ensures Books(orders, Filled(o, f, p))
  {
    Append(p.fills, f);
    var next := Filled(o, f, p);
    forall i | 0 <= i < |orders|
      ensures next.remaining[orders[i].id] == orders[i].quantity - FilledBy(next.fills, orders[i].id) {
    }
  }

  /** Whatever an order is due is fair. */
  ghost predicate Sound(m: Market) {
    forall o, b, wanted, left, first :: Fair(o, b, wanted, left, m.tradable(o, b), m.due(o, b, wanted, left, first))
  }

  lemma MarketIsSound(c: CostConfig)
    ensures Sound(MarketOf(c))
  {
    var m := MarketOf(c);
    forall o, b, wanted, left, first
      ensures Fair(o, b, wanted, left, m.tradable(o, b), m.due(o, b, wanted, left, first)) {
      DueIsFair(TariffOf(c), o, b, wanted, left, first);
    }
  }

  lemma OfferExhausts(m: Market, o: Order, b: Bar, p: Progress, next: Progress)
    requires Sound(m) && o.id in p.remaining
    requires p.remaining[o.id] == o.quantity - FilledBy(p.fills, o.id)
    requires p.liquidity == m.capacity(b) - FilledIn(p.fills, b.start)
    requires forall k :: 0 <= k < |p.fills| ==> p.fills[k].barStart <= b.start
    requires StepOrder(m, o, b, p) == Ok(next)
    ensures Exhausted(m, o, b, next.fills)
  {
    var due := m.due(o, b, p.remaining[o.id], p.liquidity, o.id !in p.charged);
    ThroughAll(p.fills, o.id, b.start);
    if due.Some? { Append(p.fills, due.value); }
  }

  lemma OneMoreExhausted(m: Market, orders: seq<Order>, i: nat, b: Bar, fills: seq<Fill>)
    requires i < |orders|
    requires AllExhausted(m, orders[..i], [b], fills) && Exhausted(m, orders[i], b, fills)
    ensures AllExhausted(m, orders[..i + 1], [b], fills)
  {
    var before, upTo, bars := orders[..i], orders[..i + 1], [b];
    forall k, j | 0 <= k < |upTo| && 0 <= j < |bars| ensures Exhausted(m, upTo[k], bars[j], fills) {
      if k < i {
        assert before[k] == upTo[k];
        assert Exhausted(m, before[k], bars[j], fills);
      }
    }
  }

  /** The simulator's counters say what its log says, so the fill it makes is the one the log explains. */
  lemma DueIsJustified(m: Market, orders: seq<Order>, bars: seq<Bar>, j: nat, i: nat, p: Progress)
    requires j < |bars| && i < |orders| && Books(orders, p)
    requires p.liquidity == m.capacity(bars[j]) - FilledIn(p.fills, bars[j].start)
    ensures var due := m.due(orders[i], bars[j], p.remaining[orders[i].id], p.liquidity, orders[i].id !in p.charged);
      due.Some? ==> Justified(m, orders, bars, p.fills, due.value)
  {
    var o, b := orders[i], bars[j];
    var due := m.due(o, b, p.remaining[o.id], p.liquidity, o.id !in p.charged);
    assert p.remaining[o.id] == o.quantity - FilledBy(p.fills, o.id);
    assert (o.id !in p.charged) == !Traded(p.fills, o.id);
    if due.Some? { assert Explains(m, o, b, p.fills, due.value); }
  }

  lemma DueKeeps(m: Market, orders: seq<Order>, bars: seq<Bar>, j: nat, i: nat, p: Progress, f: Fill)
    requires Sound(m) && DistinctIds(orders) && j < |bars| && i < |orders| && Ledger(m, orders, bars, j, i, p)
    requires m.due(orders[i], bars[j], p.remaining[orders[i].id], p.liquidity, orders[i].id !in p.charged) == Some(f)
    ensures Ledger(m, orders, bars, j, i, Filled(orders[i], f, p))
  {
    DueIsJustified(m, orders, bars, j, i, p);
    FillKeeps(m, orders, bars, j, i, p, f);
  }

  lemma StepHolds(m: Market, orders: seq<Order>, bars: seq<Bar>, j: nat, i: nat, p: Progress, next: Progress)
    requires Sound(m) && DistinctIds(orders) && j < |bars| && i < |orders|
    requires Ledger(m, orders, bars, j, i, p) && StepOrder(m, orders[i], bars[j], p) == Ok(next)
    ensures Ledger(m, orders, bars, j, i, next)
  {
    var due := m.due(orders[i], bars[j], p.remaining[orders[i].id], p.liquidity, orders[i].id !in p.charged);
    if due.Some? {
      DueKeeps(m, orders, bars, j, i, p, due.value);
      assert next == Filled(orders[i], due.value, p);
    } else {
      assert next == p;
    }
  }

  lemma StepExhausts(m: Market, orders: seq<Order>, bars: seq<Bar>, j: nat, i: nat, p: Progress, next: Progress)
    requires Sound(m) && j < |bars| && i < |orders|
    requires Ledger(m, orders, bars, j, i, p) && StepOrder(m, orders[i], bars[j], p) == Ok(next)
    ensures Exhausted(m, orders[i], bars[j], next.fills)
  {
    OfferExhausts(m, orders[i], bars[j], p, next);
  }

  lemma StepKeeps(m: Market, orders: seq<Order>, bars: seq<Bar>, j: nat, i: nat, p: Progress, next: Progress)
    requires Sound(m) && DistinctIds(orders) && j < |bars| && i < |orders|
    requires Ledger(m, orders, bars, j, i, p) && StepOrder(m, orders[i], bars[j], p) == Ok(next)
    ensures Ledger(m, orders, bars, j, i + 1, next)
  {
    StepExhausts(m, orders, bars, j, i, p, next);
    StepHolds(m, orders, bars, j, i, p, next);
    Advances(m, orders, bars, j, i, next);
  }

  lemma Advances(m: Market, orders: seq<Order>, bars: seq<Bar>, j: nat, i: nat, p: Progress)
    requires j < |bars| && i < |orders|
    requires Ledger(m, orders, bars, j, i, p) && Exhausted(m, orders[i], bars[j], p.fills)
    ensures Ledger(m, orders, bars, j, i + 1, p)
  {
    OneMoreExhausted(m, orders, i, bars[j], p.fills);
  }

  lemma FillKeeps(m: Market, orders: seq<Order>, bars: seq<Bar>, j: nat, i: nat, p: Progress, f: Fill)
    requires Sound(m) && DistinctIds(orders) && j < |bars| && i < |orders|
    requires Ledger(m, orders, bars, j, i, p)
    requires f.quantity > 0.0 && f.id == orders[i].id && f.barStart == bars[j].start
    requires Justified(m, orders, bars, p.fills, f)
    ensures Ledger(m, orders, bars, j, i, Filled(orders[i], f, p))
  {
    JustifiedExtends(m, orders, bars, p.fills, f);
    AllExhaustedStays(m, orders, bars[..j], p.fills, f);
    AllExhaustedStays(m, orders[..i], [bars[j]], p.fills, f);
    BooksFill(orders, orders[i], f, p);
    Append(p.fills, f);
  }

  // ----- One bar, all bars -----

  lemma {:induction false} OrdersKeep(
    m: Market, orders: seq<Order>, bars: seq<Bar>, j: nat, i: nat, p: Progress, last: Progress)
    requires Sound(m) && DistinctIds(orders) && BarsOrdered(bars) && j < |bars| && i <= |orders|
    requires Ledger(m, orders, bars, j, i, p) && FoldOrders(m, bars[j], orders, i, p) == Ok(last)
    ensures Ledger(m, orders, bars, j, |orders|, last)
    decreases |orders| - i
  {
    if i < |orders| {
      var next := StepOrder(m, orders[i], bars[j], p).value;
      StepKeeps(m, orders, bars, j, i, p, next);
      OrdersKeep(m, orders, bars, j, i + 1, next, last);
    }
  }

  /** Every bar before `bars[j]` is finished and no other has begun. */
  ghost predicate Between(m: Market, orders: seq<Order>, bars: seq<Bar>, j: nat, p: Progress)
    requires j <= |bars|
  {
    && Books(orders, p)
    && LogJustified(m, orders, bars, p.fills)
    && (forall k, l :: 0 <= k < |p.fills| && j <= l < |bars| ==> p.fills[k].barStart < bars[l].start)
    && AllExhausted(m, orders, bars[..j], p.fills)
  }

  lemma {:induction false} StartsIncrease(bars: seq<Bar>, i: nat, j: nat)
    requires BarsOrdered(bars) && i < j < |bars|
    ensures bars[i].start < bars[j].start
    decreases j
  {
    if i + 1 < j { StartsIncrease(bars, i, j - 1); }
  }

  lemma BarOpens(m: Market, orders: seq<Order>, bars: seq<Bar>, j: nat, p: Progress)
    requires Sound(m) && DistinctIds(orders) && BarsOrdered(bars) && j < |bars| && Between(m, orders, bars, j, p)
    ensures Ledger(m, orders, bars, j, 0, OpenBar(m, bars[j], p))
  {
    NoneIn(p.fills, bars[j].start);
  }

  lemma BarCloses(m: Market, orders: seq<Order>, bars: seq<Bar>, j: nat, p: Progress)
    requires Sound(m) && DistinctIds(orders) && BarsOrdered(bars) && j < |bars|
    requires Ledger(m, orders, bars, j, |orders|, p)
    ensures Between(m, orders, bars, j + 1, p)
  {
    forall k, l | 0 <= k < |p.fills| && j + 1 <= l < |bars| ensures p.fills[k].barStart < bars[l].start {
      StartsIncrease(bars, j, l);
    }
    assert orders[..|orders|] == orders;
    var before, upTo := bars[..j], bars[..j + 1];
    forall i, k | 0 <= i < |orders| && 0 <= k < |upTo| ensures Exhausted(m, orders[i], upTo[k], p.fills) {
      if k < j {
        assert before[k] == upTo[k];
        assert Exhausted(m, orders[i], before[k], p.fills);
      } else {
        assert Exhausted(m, orders[i], [bars[j]][0], p.fills);
      }
    }
  }

  lemma {:induction false} BarsKeep(m: Market, orders: seq<Order>, bars: seq<Bar>, j: nat, p: Progress, last: Progress)
    requires Sound(m) && DistinctIds(orders) && BarsOrdered(bars) && j <= |bars|
    requires Between(m, orders, bars, j, p) && FoldBars(m, bars, j, orders, p) == Ok(last)
    ensures Between(m, orders, bars, |bars|, last)
    decreases |bars| - j
  {
    if j < |bars| {
      var begun := OpenBar(m, bars[j], p);
      var next := FoldOrders(m, bars[j], orders, 0, begun).value;
      BarOpens(m, orders, bars, j, p);
      OrdersKeep(m, orders, bars, j, 0, begun, next);
      BarCloses(m, orders, bars, j, next);
      BarsKeep(m, orders, bars, j + 1, next, last);
    }
  }
}
