/** What it takes to match, and what a match guarantees. */
module ReconciliationMatch {
  import opened Common
  import opened Rounding
  import opened Reconciliation
  import opened ReconciliationTheorems

  /** The broker statuses that fit a local lifecycle: an order in flight may be anywhere but unknown, a partially
    * filled one has at least started, a final one must be final the same way (a cancelled one may have been partially
    * filled), and an order under review or of another kind says nothing. */
  predicate Fits(l: Lifecycle, s: BrokerStatus) {
    && (l.LcSubmitting? || l.LcSubmitted? || l.LcSubmitUnknown? || l.LcReconciling? ==> !s.UnknownStatus?)
    && (l.LcPartiallyFilled? ==> s.PartiallyFilled? || s.Filled? || s.Cancelled?)
    && (l.LcFilled? ==> s.Filled?)
    && (l.LcCancelled? ==> s.Cancelled? || s.PartiallyFilled?)
    && (l.LcRejected? ==> s.Rejected?)
  }

  lemma StatusAllowedIff(l: Lifecycle, s: BrokerStatus)
    ensures StatusAllowed(l, s) <==> Fits(l, s)
  {
  }

  /** The broker's order and fills agree with the local expectation in every respect. */
  ghost predicate Clean(local: Local, broker: BrokerOrder, orders: seq<BrokerOrder>, fills: seq<Fill>) {
    var mine := FillsOf(fills, broker.brokerOrderId);
    && broker.clientOrderId == local.clientOrderId && broker.side == local.side
    && Fits(local.lifecycle, broker.status)
    && (local.brokerOrderId.Some? ==> local.brokerOrderId.value == broker.brokerOrderId)
    && (forall f :: f in fills ==> Listed(orders, f.brokerOrderId))
    && Total(mine) <= local.expectedQuantity
    && (broker.status.Filled? ==> Total(mine) == local.expectedQuantity)
    && KnownTotal(mine, local.knownFillIds) == local.filledQuantity
    && (forall f :: f in mine ==> !Breaches(local.side, local.limitPrice, f.price))
  }

  lemma SortedTotals(fills: seq<Fill>, id: int, known: set<int>)
    ensures Total(OrderFills(fills, id)) == Total(FillsOf(fills, id))
    ensures KnownTotal(OrderFills(fills, id), known) == KnownTotal(FillsOf(fills, id), known)
    ensures forall f :: f in OrderFills(fills, id) <==> f in FillsOf(fills, id)
  {
    SortPermutes(FillsOf(fills, id));
    FillsPermuted(OrderFills(fills, id), FillsOf(fills, id), known);
    forall f ensures f in OrderFills(fills, id) <==> f in FillsOf(fills, id) {
      assert f in multiset(OrderFills(fills, id)) <==> f in multiset(FillsOf(fills, id));
    }
  }

  lemma NoCodes(a: bool, b: bool, c: bool, d: bool, e: bool, f: bool, g: bool, h: bool, i: bool)
    ensures When(a, ClientOrderIdMismatch) + When(b, SideMismatch) + When(c, StatusMismatch)
            + When(d, BrokerOrderIdMismatch) + When(e, UnknownFill) + When(f, QuantityMismatch)
            + When(g, QuantityMismatch) + When(h, FillQuantityMismatch) + When(i, PriceMismatch) == []
            <==> !a && !b && !c && !d && !e && !f && !g && !h && !i
  {
  }

  lemma CleanIff(local: Local, broker: BrokerOrder, orders: seq<BrokerOrder>, fills: seq<Fill>)
    ensures Discrepancies(local, broker, orders, fills) == [] <==> Clean(local, broker, orders, fills)
  {
    var mine := OrderFills(fills, broker.brokerOrderId);
    SortedTotals(fills, broker.brokerOrderId, local.knownFillIds);
    NoCodes(broker.clientOrderId != local.clientOrderId, broker.side != local.side,
            !StatusAllowed(local.lifecycle, broker.status),
            local.brokerOrderId.Some? && local.brokerOrderId.value != broker.brokerOrderId, AnyUnlisted(orders, fills),
            Total(mine) > local.expectedQuantity, broker.status.Filled? && Total(mine) < local.expectedQuantity,
            local.filledQuantity != KnownTotal(mine, local.knownFillIds),
            AnyBreach(local.side, local.limitPrice, mine));
    StatusAllowedIff(local.lifecycle, broker.status);
    UnlistedIff(orders, fills);
    BreachIff(local.side, local.limitPrice, mine);
  }

  lemma UnlistedIff(orders: seq<BrokerOrder>, fills: seq<Fill>)
    ensures !AnyUnlisted(orders, fills) <==> forall f :: f in fills ==> Listed(orders, f.brokerOrderId)
  {
    if !AnyUnlisted(orders, fills) {
      forall f | f in fills ensures Listed(orders, f.brokerOrderId) {
        var i :| 0 <= i < |fills| && fills[i] == f;
      }
    }
  }

  lemma BreachIff(side: Side, limit: real, fills: seq<Fill>)
    ensures !AnyBreach(side, limit, fills) <==> forall f :: f in fills ==> !Breaches(side, limit, f.price)
  {
    if !AnyBreach(side, limit, fills) {
      forall f | f in fills ensures !Breaches(side, limit, f.price) {
        var i :| 0 <= i < |fills| && fills[i] == f;
      }
    }
  }

  /** The only broker order carrying a client order id. */
  predicate Only(orders: seq<BrokerOrder>, i: int, client: int) {
    && 0 <= i < |orders| && orders[i].clientOrderId == client
    && forall j :: 0 <= j < |orders| && j != i ==> orders[j].clientOrderId != client
  }

  lemma {:induction false} NoMatch(orders: seq<BrokerOrder>, client: int)
    ensures ClientMatches(orders, client) == [] <==> forall j :: 0 <= j < |orders| ==> orders[j].clientOrderId != client
  {
    if orders != [] {
      var rest := orders[1..];
      NoMatch(rest, client);
      assert forall j :: 0 < j < |orders| ==> orders[j] == rest[j - 1];
      assert forall j :: 0 <= j < |rest| ==> rest[j] == orders[j + 1];
    }
  }

  lemma {:induction false} OnlyMatch(orders: seq<BrokerOrder>, i: int, client: int)
    requires Only(orders, i, client)
    ensures ClientMatches(orders, client) == [orders[i]]
  {
    var rest := orders[1..];
    assert forall j :: 0 <= j < |rest| ==> rest[j] == orders[j + 1];
    if i == 0 { NoMatch(rest, client); } else { OnlyMatch(rest, i - 1, client); }
  }

  lemma {:induction false} FindOnly(orders: seq<BrokerOrder>, client: int) returns (i: nat)
    requires |ClientMatches(orders, client)| == 1
    ensures Only(orders, i, client) && ClientMatches(orders, client) == [orders[i]]
  {
    var rest := orders[1..];
    assert forall j :: 0 < j < |orders| ==> orders[j] == rest[j - 1];
    if orders[0].clientOrderId == client {
      i := 0;
      NoMatch(rest, client);
      assert forall j :: 0 < j < |orders| ==> orders[j] == rest[j - 1] && rest[j - 1].clientOrderId != client;
    } else {
      var k := FindOnly(rest, client);
      i := k + 1;
    }
  }

  lemma {:induction false} MatchesCarryId(orders: seq<BrokerOrder>, id: Option<int>)
    ensures forall o :: o in IdMatches(orders, id) ==> o in orders
  {
    if orders != [] { MatchesCarryId(orders[1..], id); }
  }

  /** The report of a clean comparison. */
  function Success(local: Local, broker: BrokerOrder, fills: seq<Fill>): Report {
    var mine := OrderFills(fills, broker.brokerOrderId);
    Report(MatchedOutcome, Because(Matched), [Matched], Some(broker.brokerOrderId), Some(Total(mine)),
           Ids(NewFills(mine, local.knownFillIds)), DuplicateIds(mine, local.knownFillIds))
  }

  lemma CleanMatches(local: Local, broker: BrokerOrder, orders: seq<BrokerOrder>, fills: seq<Fill>)
    requires FindBroker(local, orders) == Ok(broker) && !broker.status.UnknownStatus?
    requires Clean(local, broker, orders, fills)
    ensures Compare(local, orders, fills) == Success(local, broker, fills)
  {
    CleanIff(local, broker, orders, fills);
  }

  /** The broker order behind a matched report. */
  lemma MatchedBroker(local: Local, orders: seq<BrokerOrder>, fills: seq<Fill>) returns (i: nat)
    requires Compare(local, orders, fills).outcome.MatchedOutcome?
    ensures Only(orders, i, local.clientOrderId) && !orders[i].status.UnknownStatus?
    ensures Clean(local, orders[i], orders, fills)
    ensures FindBroker(local, orders) == Ok(orders[i])
    ensures Compare(local, orders, fills) == Success(local, orders[i], fills)
  {
    var broker := FindBroker(local, orders).value;
    DiscrepanciesAreDistinct(local, broker, orders, fills);
    CleanIff(local, broker, orders, fills);
    var clients := ClientMatches(orders, local.clientOrderId);
    if |clients| == 0 {
      MatchesCarryId(orders, local.brokerOrderId);
      assert broker in IdMatches(orders, local.brokerOrderId);
      NoMatch(orders, local.clientOrderId);
    }
    i := FindOnly(orders, local.clientOrderId);
  }

  /** A report matches if and only if exactly one broker order carries the client order id, its status is
    * known, and it is clean. */
  lemma MatchedIff(local: Local, orders: seq<BrokerOrder>, fills: seq<Fill>)
    ensures Compare(local, orders, fills).outcome.MatchedOutcome?
            <==> exists i :: Only(orders, i, local.clientOrderId) && !orders[i].status.UnknownStatus?
                             && Clean(local, orders[i], orders, fills)
  {
    if i :| Only(orders, i, local.clientOrderId) && !orders[i].status.UnknownStatus?
            && Clean(local, orders[i], orders, fills) {
      OnlyMatch(orders, i, local.clientOrderId);
      CleanMatches(local, orders[i], orders, fills);
    }
    if Compare(local, orders, fills).outcome.MatchedOutcome? {
      var i := MatchedBroker(local, orders, fills);
    }
  }

  // ----- Exposure -----

  function Notional(fills: seq<Fill>): real {
    if fills == [] then 0.0
    else Notional(fills[..|fills| - 1]) + fills[|fills| - 1].quantity * fills[|fills| - 1].price
  }

  /** Bought for at most, or sold for at least, the limit a unit. */
  predicate AtLimit(side: Side, notional: real, total: real, limit: real) {
    if side.Buy? then notional <= total * limit else notional >= total * limit
  }

  lemma OneMoreFill(side: Side, notional: real, total: real, quantity: real, price: real, limit: real)
    requires quantity >= 0.0 && AtLimit(side, notional, total, limit) && !Breaches(side, limit, price)
    ensures AtLimit(side, notional + quantity * price, total + quantity, limit)
  {
    assert (total + quantity) * limit == total * limit + quantity * limit;
    assert quantity * limit - quantity * price == quantity * (limit - price);
  }

  lemma {:induction false} NotionalWithin(fills: seq<Fill>, limit: real, side: Side)
    requires forall f :: f in fills ==> !Breaches(side, limit, f.price)
    ensures 0.0 <= Total(fills) && AtLimit(side, Notional(fills), Total(fills), limit)
  {
    if fills != [] {
      var rest, f := fills[..|fills| - 1], fills[|fills| - 1];
      NotionalWithin(rest, limit, side);
      OneMoreFill(side, Notional(rest), Total(rest), f.quantity, f.price, limit);
    }
  }

  /** No more than the expected quantity, bought for no more than that quantity at the limit, or sold for
    * no less than the limit a unit. */
  predicate Bounded(local: Local, total: real, notional: real) {
    && 0.0 <= total <= local.expectedQuantity
    && (local.side.Buy? ==> notional <= local.expectedQuantity * local.limitPrice)
    && (local.side.Sell? ==> notional >= total * local.limitPrice)
  }

  lemma WithinExpectation(total: real, expected: real, limit: Positive)
    requires total <= expected
    ensures total * limit <= expected * limit
  {
  }

  lemma LimitBounds(local: Local, total: real, notional: real)
    requires 0.0 <= total <= local.expectedQuantity && AtLimit(local.side, notional, total, local.limitPrice)
    ensures Bounded(local, total, notional)
  {
    WithinExpectation(total, local.expectedQuantity, local.limitPrice);
  }

  lemma CleanBoundsExposure(local: Local, broker: BrokerOrder, orders: seq<BrokerOrder>, fills: seq<Fill>)
    requires Clean(local, broker, orders, fills)
    ensures var mine := FillsOf(fills, broker.brokerOrderId); Bounded(local, Total(mine), Notional(mine))
  {
    var mine := FillsOf(fills, broker.brokerOrderId);
    NotionalWithin(mine, local.limitPrice, local.side);
    LimitBounds(local, Total(mine), Notional(mine));
  }

  /** The report of a match names the broker order, states the quantity its fills add up to, and its
    * exposure is bounded by what was expected. */
  lemma MatchBoundsExposure(local: Local, orders: seq<BrokerOrder>, fills: seq<Fill>, report: Report) returns (id: int)
    requires report == Compare(local, orders, fills) && report.outcome.MatchedOutcome?
    ensures var mine := FillsOf(fills, id);
      && report.brokerOrderId == Some(id) && report.brokerFilled == Some(Total(mine))
      && Bounded(local, Total(mine), Notional(mine))
  {
    var i := MatchedBroker(local, orders, fills);
    id := orders[i].brokerOrderId;
    SortedTotals(fills, id, local.knownFillIds);
    CleanBoundsExposure(local, orders[i], orders, fills);
  }

  // ----- Folding is a fixpoint -----

  /** The local expectation once the report's new fills have been booked. */
  function Folded(local: Local, news: seq<Fill>): Local
    requires Total(news) >= 0.0
  {
    local.(knownFillIds := local.knownFillIds + (set i | 0 <= i < |news| :: news[i].id),
           filledQuantity := local.filledQuantity + Total(news))
  }

  lemma {:induction false} NewAndKnown(fills: seq<Fill>, known: set<int>)
    ensures KnownTotal(fills, known) + Total(NewFills(fills, known)) == Total(fills)
    ensures forall f :: f in fills ==> f.id in known || f in NewFills(fills, known)
    ensures Total(NewFills(fills, known)) >= 0.0
  {
    if fills != [] {
      var rest, f := fills[..|fills| - 1], fills[|fills| - 1];
      NewAndKnown(rest, known);
      var news := NewFills(rest, known);
      if f.id in known {
        assert NewFills(fills, known) == news + [] == news;
      } else {
        assert NewFills(fills, known) == news + [f] && (news + [f])[..|news|] == news;
      }
      forall x | x in fills ensures x.id in known || x in NewFills(fills, known) {
        assert x in rest || x == f;
      }
    }
  }

  lemma {:induction false} AllKnown(fills: seq<Fill>, known: set<int>)
    requires forall f :: f in fills ==> f.id in known
    ensures KnownTotal(fills, known) == Total(fills) && NewFills(fills, known) == []
    ensures DuplicateIds(fills, known) == Ids(fills)
  {
    if fills != [] {
      var rest, f := fills[..|fills| - 1], fills[|fills| - 1];
      AllKnown(rest, known);
      assert f in fills;
      assert fills == rest + [f];
      IdsAppend(rest, f);
    }
  }

  /** Once its new fills are booked, every fill of the order is known and the comparison is still clean. */
  lemma FoldedStaysClean(local: Local, broker: BrokerOrder, orders: seq<BrokerOrder>, fills: seq<Fill>)
    requires Clean(local, broker, orders, fills)
    ensures var mine := OrderFills(fills, broker.brokerOrderId);
      var news := NewFills(mine, local.knownFillIds);
      && Total(news) >= 0.0
      && Clean(Folded(local, news), broker, orders, fills)
      && (forall f :: f in mine ==> f.id in Folded(local, news).knownFillIds)
  {
    var mine := OrderFills(fills, broker.brokerOrderId);
    var news := NewFills(mine, local.knownFillIds);
    NewAndKnown(mine, local.knownFillIds);
    SortedTotals(fills, broker.brokerOrderId, local.knownFillIds);
    var folded := Folded(local, news);
    forall f | f in mine ensures f.id in folded.knownFillIds {
      if f.id !in local.knownFillIds {
        assert f in news;
        var k :| 0 <= k < |news| && news[k] == f;
      }
    }
    AllKnown(mine, folded.knownFillIds);
    SortedTotals(fills, broker.brokerOrderId, folded.knownFillIds);
  }

  lemma FoldedMatches(local: Local, broker: BrokerOrder, orders: seq<BrokerOrder>, fills: seq<Fill>)
    requires FindBroker(local, orders) == Ok(broker) && !broker.status.UnknownStatus?
    requires Clean(local, broker, orders, fills)
    ensures var mine := OrderFills(fills, broker.brokerOrderId);
      var news := NewFills(mine, local.knownFillIds);
      && Total(news) >= 0.0
      && Compare(Folded(local, news), orders, fills)
         == Success(local, broker, fills).(newFillIds := [], duplicateFillIds := Ids(mine))
  {
    var mine := OrderFills(fills, broker.brokerOrderId);
    FoldedStaysClean(local, broker, orders, fills);
    var folded := Folded(local, NewFills(mine, local.knownFillIds));
    AllKnown(mine, folded.knownFillIds);
    CleanMatches(folded, broker, orders, fills);
  }

  /** After the new fills of a matched report are booked, the same feed matches again with nothing new. */
  lemma FoldingIsAFixpoint(local: Local, orders: seq<BrokerOrder>, fills: seq<Fill>)
    requires Compare(local, orders, fills).outcome.MatchedOutcome?
    ensures var report := Compare(local, orders, fills);
      var news := Batch(local, report, fills);
      && Ids(news) == report.newFillIds && Total(news) >= 0.0
      && Compare(Folded(local, news), orders, fills)
         == report.(newFillIds := [], duplicateFillIds := Ids(OrderFills(fills, report.brokerOrderId.value)))
  {
    var i := MatchedBroker(local, orders, fills);
    FoldedMatches(local, orders[i], orders, fills);
  }

  // ----- A fill delivered twice -----

  lemma {:induction false} FillsOfAppend(fills: seq<Fill>, f: Fill, id: int)
    ensures FillsOf(fills + [f], id) == FillsOf(fills, id) + if f.brokerOrderId == id then [f] else []
  {
    if fills == [] {
      assert fills + [f] == [f];
    } else {
      FillsOfAppend(fills[1..], f, id);
      assert (fills + [f])[1..] == fills[1..] + [f];
    }
  }

  lemma {:induction false} FillsOfAre(fills: seq<Fill>, id: int)
    ensures forall f :: f in FillsOf(fills, id) <==> f in fills && f.brokerOrderId == id
  {
    if fills != [] { FillsOfAre(fills[1..], id); }
  }

  lemma RepeatedStaysCleanIff(local: Local, broker: BrokerOrder, orders: seq<BrokerOrder>, fills: seq<Fill>, f: Fill)
    requires Clean(local, broker, orders, fills) && f in fills && f.brokerOrderId == broker.brokerOrderId
    ensures Clean(local, broker, orders, fills + [f])
            <==> f.id !in local.knownFillIds
                 && Total(FillsOf(fills, broker.brokerOrderId)) + f.quantity <= local.expectedQuantity
  {
    var mine := FillsOf(fills, broker.brokerOrderId);
    FillsOfAppend(fills, f, broker.brokerOrderId);
    FillsOfAre(fills, broker.brokerOrderId);
    assert (mine + [f])[..|mine|] == mine;
    assert Total(mine + [f]) == Total(mine) + f.quantity;
    assert KnownTotal(mine + [f], local.knownFillIds)
        == KnownTotal(mine, local.knownFillIds) + (if f.id in local.knownFillIds then f.quantity else 0.0);
    forall x | x in fills + [f] ensures Listed(orders, x.brokerOrderId) { }
  }

  /** The verdict on a feed that repeats a fill of its matched order: it still matches if and only if the fill
    * was not yet booked and both copies fit in the expected quantity. */
  lemma RepeatedFillMatchesIff(local: Local, orders: seq<BrokerOrder>, fills: seq<Fill>, f: Fill)
    requires Compare(local, orders, fills).outcome.MatchedOutcome?
    requires f in fills && Compare(local, orders, fills).brokerOrderId == Some(f.brokerOrderId)
    ensures Compare(local, orders, fills + [f]).outcome.MatchedOutcome?
            <==> f.id !in local.knownFillIds
                 && Total(FillsOf(fills, f.brokerOrderId)) + f.quantity <= local.expectedQuantity
  {
    var i := MatchedBroker(local, orders, fills);
    RepeatedStaysCleanIff(local, orders[i], orders, fills, f);
    if Clean(local, orders[i], orders, fills + [f]) {
      CleanMatches(local, orders[i], orders, fills + [f]);
    }
    if Compare(local, orders, fills + [f]).outcome.MatchedOutcome? {
      var j := MatchedBroker(local, orders, fills + [f]);
    }
  }

  lemma OneFillSums(f: Fill)
    ensures Total([f]) == f.quantity && KnownTotal([f], {}) == 0.0
  {
    assert [f][..|[f]| - 1] == [] && [f][|[f]| - 1] == f;
    assert Total([]) == 0.0 && KnownTotal([], {}) == 0.0;
  }

  /** A feed of one fill, fresh and clean, matches with just that fill. */
  lemma OneFillMatches(local: Local, broker: BrokerOrder, f: Fill)
    requires local.knownFillIds == {} && local.filledQuantity == 0.0 && local.brokerOrderId.None?
    requires broker.clientOrderId == local.clientOrderId && broker.side == local.side
    requires Fits(local.lifecycle, broker.status) && !broker.status.UnknownStatus?
    requires f.brokerOrderId == broker.brokerOrderId && !Breaches(local.side, local.limitPrice, f.price)
    requires f.quantity <= local.expectedQuantity
    requires broker.status.Filled? ==> f.quantity == local.expectedQuantity
    ensures var report := Compare(local, [broker], [f]);
      && report.outcome.MatchedOutcome? && report.brokerOrderId == Some(f.brokerOrderId)
      && report.brokerFilled == Some(f.quantity) && report.newFillIds == [f.id]
  {
    var orders, id := [broker], broker.brokerOrderId;
    assert [f][1..] == [] && [f][..0] == [];
    assert FillsOf([f], id) == [f];
    assert SortFills([f]) == InsertFill(f, SortFills([])) == [f];
    OneFillSums(f);
    assert [] + [f] == [f];
    IdsOfOneMore([], f, {});
    assert Only(orders, 0, local.clientOrderId);
    assert Listed(orders, id) by { assert orders[0].brokerOrderId == id; }
    OnlyMatch(orders, 0, local.clientOrderId);
    CleanMatches(local, broker, orders, [f]);
  }

  /** A filled order whose one fill is delivered twice goes to manual review. */
  lemma RepeatedFillExample() returns (local: Local, orders: seq<BrokerOrder>, f: Fill)
    ensures Compare(local, orders, [f]).outcome.MatchedOutcome?
    ensures !Compare(local, orders, [f] + [f]).outcome.MatchedOutcome?
  {
    local := Local(1, Buy, 10.0, 5.0, LcSubmitted, None, {}, 0.0);
    f := Fill(3, 2, 10.0, 5.0, 0);
    orders := [BrokerOrder(2, 1, Buy, Filled)];
    OneFillMatches(local, orders[0], f);
    RepeatedFillMatchesIff(local, orders, [f], f);
    OneFillTotals(f);
  }

  lemma OneFillTotals(f: Fill)
    ensures Total(FillsOf([f], f.brokerOrderId)) == f.quantity
  {
    assert [f][1..] == [] && [f][..0] == [];
    assert FillsOf([f], f.brokerOrderId) == [f];
  }

  /** The ids a report lists, as new ones and as duplicates. */
  datatype Listing = Listing(news: multiset<int>, duplicates: multiset<int>)

  function ListingOf(fills: seq<Fill>, known: set<int>): Listing {
    Listing(multiset(Ids(NewFills(fills, known))), multiset(DuplicateIds(fills, known)))
  }

  function ListedOnceMore(l: Listing, id: int, known: set<int>): Listing {
    if id in known then l.(duplicates := l.duplicates + multiset{id}) else l.(news := l.news + multiset{id})
  }

  lemma AppendedListing(fills: seq<Fill>, f: Fill, known: set<int>)
    ensures ListingOf(fills + [f], known) == ListedOnceMore(ListingOf(fills, known), f.id, known)
  {
    IdsOfOneMore(fills, f, known);
    var news, duplicates := Ids(NewFills(fills, known)), DuplicateIds(fills, known);
    assert news + [] == news && duplicates + [] == duplicates;
  }

  lemma ListingsCommute(l: Listing, a: int, b: int, known: set<int>)
    ensures ListedOnceMore(ListedOnceMore(l, a, known), b, known)
         == ListedOnceMore(ListedOnceMore(l, b, known), a, known)
  {
    assert l.news + multiset{a} + multiset{b} == l.news + multiset{b} + multiset{a};
    assert l.duplicates + multiset{a} + multiset{b} == l.duplicates + multiset{b} + multiset{a};
  }

  lemma {:induction false} InsertedListing(f: Fill, sorted: seq<Fill>, known: set<int>)
    ensures ListingOf(InsertFill(f, sorted), known) == ListedOnceMore(ListingOf(sorted, known), f.id, known)
  {
    if sorted == [] {
      assert [] + [f] == [f];
      AppendedListing([], f, known);
    } else {
      var before, last := sorted[..|sorted| - 1], sorted[|sorted| - 1];
      assert sorted == before + [last];
      if NotAfter(last, f) {
        AppendedListing(sorted, f, known);
      } else {
        InsertedListing(f, before, known);
        AppendedListing(InsertFill(f, before), last, known);
        AppendedListing(before, last, known);
        ListingsCommute(ListingOf(before, known), f.id, last.id, known);
      }
    }
  }

  lemma IdsOfOneMore(fills: seq<Fill>, f: Fill, known: set<int>)
    ensures Ids(NewFills(fills + [f], known)) == Ids(NewFills(fills, known)) + if f.id in known then [] else [f.id]
    ensures DuplicateIds(fills + [f], known) == DuplicateIds(fills, known) + if f.id in known then [f.id] else []
  {
    assert (fills + [f])[..|fills + [f]| - 1] == fills;
    IdsAppend(NewFills(fills, known), f);
  }

  /** How the sorted fills of one order take one more fill. */
  lemma OrderFillsAppend(fills: seq<Fill>, f: Fill, id: int)
    ensures OrderFills(fills + [f], id)
         == if f.brokerOrderId == id then InsertFill(f, OrderFills(fills, id)) else OrderFills(fills, id)
  {
    var mine := FillsOf(fills, id);
    FillsOfAppend(fills, f, id);
    assert (mine + [f])[..|mine + [f]| - 1] == mine;
    assert mine + [] == mine;
  }

  lemma TotalOfOneMore(fills: seq<Fill>, f: Fill, id: int)
    requires f.brokerOrderId == id
    ensures Total(OrderFills(fills + [f], id)) == Total(OrderFills(fills, id)) + f.quantity
  {
    var mine := FillsOf(fills, id);
    SortedTotals(fills, id, {});
    SortedTotals(fills + [f], id, {});
    FillsOfAppend(fills, f, id);
    assert (mine + [f])[..|mine + [f]| - 1] == mine;
  }

  /** Repeating a fill of another order leaves every discrepancy as it was. */
  lemma ForeignRepeatKeepsCodes(
    local: Local, broker: BrokerOrder, orders: seq<BrokerOrder>, fills: seq<Fill>, f: Fill)
    requires f in fills && f.brokerOrderId != broker.brokerOrderId
    ensures Discrepancies(local, broker, orders, fills + [f]) == Discrepancies(local, broker, orders, fills)
  {
    OrderFillsAppend(fills, f, broker.brokerOrderId);
    UnlistedIff(orders, fills);
    UnlistedIff(orders, fills + [f]);
    forall x ensures x in fills + [f] <==> x in fills { }
  }

  function ReportListing(report: Report): Listing {
    Listing(multiset(report.newFillIds), multiset(report.duplicateFillIds))
  }

  /** One more fill of the order that the report is about: the quantity counts again and the id is listed
    * again, as new or as a duplicate. */
  predicate CountsAgain(before: Report, after: Report, f: Fill, known: set<int>) {
    && before.brokerFilled.Some? && after.brokerFilled == Some(before.brokerFilled.value + f.quantity)
    && ReportListing(after) == ListedOnceMore(ReportListing(before), f.id, known)
  }

  /** The report is about an order with a known status, so that it reads the order's fills. */
  predicate ReadsFills(report: Report) { report.brokerFilled.Some? }

  predicate Reads(report: Report, id: int, mine: seq<Fill>, known: set<int>) {
    && report.brokerOrderId == Some(id) && report.brokerFilled == Some(Total(mine))
    && report.newFillIds == Ids(NewFills(mine, known)) && report.duplicateFillIds == DuplicateIds(mine, known)
  }

  lemma ReadsFillsOf(local: Local, orders: seq<BrokerOrder>, fills: seq<Fill>)
    ensures var report, found := Compare(local, orders, fills), FindBroker(local, orders);
      if found.Ok? && !found.value.status.UnknownStatus?
      then
        Reads(report, found.value.brokerOrderId, OrderFills(fills, found.value.brokerOrderId), local.knownFillIds)
      else !ReadsFills(report)
  {
  }

  lemma OwnRepeatCounts(before: Report, after: Report, fills: seq<Fill>, f: Fill, id: int, known: set<int>)
    requires f.brokerOrderId == id
    requires Reads(before, id, OrderFills(fills, id), known) && Reads(after, id, OrderFills(fills + [f], id), known)
    ensures after != before && CountsAgain(before, after, f, known)
  {
    OrderFillsAppend(fills, f, id);
    TotalOfOneMore(fills, f, id);
    InsertedListing(f, OrderFills(fills, id), known);
  }

  lemma ForeignRepeatKeepsReport(
    local: Local, broker: BrokerOrder, orders: seq<BrokerOrder>, fills: seq<Fill>, f: Fill)
    requires f in fills && FindBroker(local, orders) == Ok(broker) && f.brokerOrderId != broker.brokerOrderId
    ensures Compare(local, orders, fills + [f]) == Compare(local, orders, fills)
  {
    OrderFillsAppend(fills, f, broker.brokerOrderId);
    ForeignRepeatKeepsCodes(local, broker, orders, fills, f);
  }

  /** What repeating a fill does, for every feed: the report is unchanged if and only if it does not read the
    * fills of that fill's order; otherwise the fill counts once more. */
  lemma RepeatedFillChangesIff(local: Local, orders: seq<BrokerOrder>, fills: seq<Fill>, f: Fill)
    requires f in fills
    ensures var before, after := Compare(local, orders, fills), Compare(local, orders, fills + [f]);
      && (after == before <==> !(ReadsFills(before) && before.brokerOrderId == Some(f.brokerOrderId)))
      && (after != before ==> CountsAgain(before, after, f, local.knownFillIds))
  {
    var before, after := Compare(local, orders, fills), Compare(local, orders, fills + [f]);
    ReadsFillsOf(local, orders, fills);
    ReadsFillsOf(local, orders, fills + [f]);
    var found := FindBroker(local, orders);
    if found.Err? || found.value.status.UnknownStatus? {
      UnreadFills(local, orders, fills, fills + [f]);
    } else if f.brokerOrderId == found.value.brokerOrderId {
      OwnRepeatCounts(before, after, fills, f, f.brokerOrderId, local.knownFillIds);
    } else {
      ForeignRepeatKeepsReport(local, found.value, orders, fills, f);
    }
  }

  lemma UnreadFills(local: Local, orders: seq<BrokerOrder>, fills: seq<Fill>, others: seq<Fill>)
    requires FindBroker(local, orders).Ok? ==> FindBroker(local, orders).value.status.UnknownStatus?
    ensures Compare(local, orders, fills) == Compare(local, orders, others)
  {
  }

  /** In a matched feed the only harmless repeats are of other orders' fills. */
  lemma RepeatInMatchedFeed(local: Local, orders: seq<BrokerOrder>, fills: seq<Fill>, f: Fill)
    requires Compare(local, orders, fills).outcome.MatchedOutcome? && f in fills
    ensures Compare(local, orders, fills + [f]) == Compare(local, orders, fills)
            <==> Compare(local, orders, fills).brokerOrderId != Some(f.brokerOrderId)
  {
    RepeatedFillChangesIff(local, orders, fills, f);
    var i := MatchedBroker(local, orders, fills);
  }

  /** A silent overcount: a partial fill of 3 listed twice still matches, now with 6 filled and its id twice new. */
  lemma RepeatedPartialFillExample() returns (local: Local, orders: seq<BrokerOrder>, f: Fill)
    ensures var once, twice := Compare(local, orders, [f]), Compare(local, orders, [f] + [f]);
      && once.outcome.MatchedOutcome? && once.brokerFilled == Some(3.0) && once.newFillIds == [f.id]
      && twice.outcome.MatchedOutcome? && twice.brokerFilled == Some(6.0)
      && multiset(twice.newFillIds) == multiset{f.id, f.id}
  {
    local := Local(1, Buy, 10.0, 5.0, LcSubmitted, None, {}, 0.0);
    f := Fill(3, 2, 3.0, 5.0, 0);
    orders := [BrokerOrder(2, 1, Buy, PartiallyFilled)];
    OneFillMatches(local, orders[0], f);
    OneFillTotals(f);
    RepeatedFillMatchesIff(local, orders, [f], f);
    RepeatedFillChangesIff(local, orders, [f], f);
  }

  // ----- The ledger -----

  /** Applying fills one after another, whatever their results. */
  function ApplyAll<L>(ledger: Ledger<L>, fills: seq<Fill>): L {
    if fills == [] then ledger.state else ledger.apply(ApplyAll(ledger, fills[..|fills| - 1]), fills[|fills| - 1]).0
  }

  predicate Accepts<L>(ledger: Ledger<L>, before: seq<Fill>, f: Fill) {
    !ledger.apply(ApplyAll(ledger, before), f).1.Refused?
  }

  predicate NoneRefused<L>(ledger: Ledger<L>, fills: seq<Fill>) {
    forall k :: 0 <= k < |fills| ==> Accepts(ledger, fills[..k], fills[k])
  }

  lemma NoneRefusedLast<L>(ledger: Ledger<L>, fills: seq<Fill>)
    requires fills != []
    ensures var n := |fills| - 1;
      NoneRefused(ledger, fills) <==> NoneRefused(ledger, fills[..n]) && Accepts(ledger, fills[..n], fills[n])
  {
    var n := |fills| - 1;
    var rest := fills[..n];
    assert forall k :: 0 <= k < n ==> rest[..k] == fills[..k] && rest[k] == fills[k];
  }

  lemma {:induction false} BatchIsAllOrNothing<L>(ledger: Ledger<L>, fills: seq<Fill>)
    ensures ApplyBatch(ledger, fills).Ok? <==> NoneRefused(ledger, fills)
    ensures ApplyBatch(ledger, fills).Ok? ==> ApplyBatch(ledger, fills).value.0 == ApplyAll(ledger, fills)
  {
    if fills != [] {
      BatchIsAllOrNothing(ledger, fills[..|fills| - 1]);
      NoneRefusedLast(ledger, fills);
    }
  }

  /** With a ledger: the outcome is a match if and only if the comparison matches and the ledger refuses
    * none of the new fills; then all of them are applied, and otherwise the ledger is left as it was. */
  lemma LedgerMovesOnlyOnMatch<L>(local: Local, orders: seq<BrokerOrder>, fills: seq<Fill>, ledger: Ledger<L>)
    ensures var compared := Compare(local, orders, fills);
      var batch := Batch(local, compared, fills);
      var (report, state) := Reconciled(local, orders, fills, ledger);
      && (report.outcome.MatchedOutcome? <==> compared.outcome.MatchedOutcome? && NoneRefused(ledger, batch))
      && state == if report.outcome.MatchedOutcome? then ApplyAll(ledger, batch) else ledger.state
  {
    BatchIsAllOrNothing(ledger, Batch(local, Compare(local, orders, fills), fills));
  }
}
