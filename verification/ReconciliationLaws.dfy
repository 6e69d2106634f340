/** Which broker order is compared, which codes a review carries, and what the ledger is told, said over the feed. */
module ReconciliationLaws {
  import opened Common
  import opened Rounding
  import opened Reconciliation
  import opened ReconciliationTheorems
  import opened ReconciliationMatch

  // ----- Which broker order -----

  /** The order at i is the only one that has the property. */
  ghost predicate Alone(orders: seq<BrokerOrder>, has: BrokerOrder -> bool, i: int) {
    0 <= i < |orders| && has(orders[i]) && forall j :: 0 <= j < |orders| && j != i ==> !has(orders[j])
  }

  ghost predicate Shared(orders: seq<BrokerOrder>, has: BrokerOrder -> bool) {
    exists i, j :: 0 <= i < j < |orders| && has(orders[i]) && has(orders[j])
  }

  ghost predicate Nowhere(orders: seq<BrokerOrder>, has: BrokerOrder -> bool) {
    forall i :: 0 <= i < |orders| ==> !has(orders[i])
  }

  function Selected(orders: seq<BrokerOrder>, has: BrokerOrder -> bool): seq<BrokerOrder> {
    if orders == [] then []
    else (if has(orders[0]) then [orders[0]] else []) + Selected(orders[1..], has)
  }

  lemma {:induction false} NoneSelected(orders: seq<BrokerOrder>, has: BrokerOrder -> bool)
    requires Nowhere(orders, has)
    ensures Selected(orders, has) == []
  {
    if orders != [] { NoneSelected(orders[1..], has); }
  }

  lemma {:induction false} OneSelected(orders: seq<BrokerOrder>, has: BrokerOrder -> bool, i: int)
    requires Alone(orders, has, i)
    ensures Selected(orders, has) == [orders[i]]
  {
    var rest := orders[1..];
    assert forall j :: 0 <= j < |rest| ==> rest[j] == orders[j + 1];
    if i == 0 { NoneSelected(rest, has); } else { OneSelected(rest, has, i - 1); }
  }

  lemma {:induction false} SomeSelected(orders: seq<BrokerOrder>, has: BrokerOrder -> bool, i: int)
    requires 0 <= i < |orders| && has(orders[i])
    ensures |Selected(orders, has)| >= 1
  {
    if i > 0 { SomeSelected(orders[1..], has, i - 1); }
  }

  lemma {:induction false} TwoSelected(orders: seq<BrokerOrder>, has: BrokerOrder -> bool, i: int, j: int)
    requires 0 <= i < j < |orders| && has(orders[i]) && has(orders[j])
    ensures |Selected(orders, has)| >= 2
  {
    if i == 0 { SomeSelected(orders[1..], has, j - 1); } else { TwoSelected(orders[1..], has, i - 1, j - 1); }
  }

  lemma Counted(orders: seq<BrokerOrder>, has: BrokerOrder -> bool)
    ensures Nowhere(orders, has) ==> Selected(orders, has) == []
    ensures forall i :: Alone(orders, has, i) ==> Selected(orders, has) == [orders[i]]
    ensures Shared(orders, has) ==> |Selected(orders, has)| >= 2
  {
    if Nowhere(orders, has) { NoneSelected(orders, has); }
    forall i | Alone(orders, has, i) ensures Selected(orders, has) == [orders[i]] { OneSelected(orders, has, i); }
    if i, j :| 0 <= i < j < |orders| && has(orders[i]) && has(orders[j]) { TwoSelected(orders, has, i, j); }
  }

  function ByClient(client: int): BrokerOrder -> bool {
    (o: BrokerOrder) => o.clientOrderId == client
  }

  function ById(id: Option<int>): BrokerOrder -> bool {
    (o: BrokerOrder) => id == Some(o.brokerOrderId)
  }

  lemma {:induction false} MatchesAreSelected(orders: seq<BrokerOrder>, client: int, id: Option<int>)
    ensures ClientMatches(orders, client) == Selected(orders, ByClient(client))
    ensures IdMatches(orders, id) == Selected(orders, ById(id))
  {
    if orders != [] { MatchesAreSelected(orders[1..], client, id); }
  }

  /** Which order is compared: the only one with the client order id; failing any, the only one with the broker order
    * id.  Two candidates are a manual review, and none is one for an order in flight and otherwise unknown. */
  lemma FindsBroker(local: Local, orders: seq<BrokerOrder>)
    ensures var found, id := FindBroker(local, orders), local.brokerOrderId;
      var client := ByClient(local.clientOrderId);
      && (forall i :: Alone(orders, client, i) ==> found == Ok(orders[i]))
      && (Shared(orders, client) ==> found == Err(MultipleReport(None)))
      && (Nowhere(orders, client) ==>
            && (forall i :: Alone(orders, ById(id), i) ==> found == Ok(orders[i]))
            && (Shared(orders, ById(id)) ==> found == Err(MultipleReport(id)))
            && (Nowhere(orders, ById(id)) ==> found == Err(MissingReport(InFlight(local.lifecycle), id))))
  {
    MatchesAreSelected(orders, local.clientOrderId, local.brokerOrderId);
    Counted(orders, ByClient(local.clientOrderId));
    Counted(orders, ById(local.brokerOrderId));
  }

  function MultipleReport(id: Option<int>): Report {
    Report(ManualReview, Because(MultipleBrokerMatches), [MultipleBrokerMatches], id, None, [], [])
  }

  function MissingReport(inFlight: bool, id: Option<int>): Report {
    if inFlight
    then Report(ManualReview, Because(MissingBrokerOrder), [MissingBrokerOrder], id, None, [], [])
    else Report(UnknownOutcome, NoBrokerOrder, [MissingBrokerOrder], id, None, [], [])
  }

  predicate InFlight(l: Lifecycle) {
    l.LcSubmitting? || l.LcSubmitted? || l.LcPartiallyFilled? || l.LcSubmitUnknown? || l.LcReconciling?
  }

  // ----- Which codes -----

  /** A fill on the wrong side of the limit. */
  predicate Beyond(local: Local, f: Fill) {
    (local.side.Buy? && f.price > local.limitPrice) || (local.side.Sell? && f.price < local.limitPrice)
  }

  lemma InWhen(codes: seq<Code>, condition: bool, raised: Code, code: Code)
    ensures code in codes + When(condition, raised) <==> code in codes || (condition && code == raised)
  {
  }

  /** Which of the nine comparisons of an order fail. */
  datatype Failures = Failures(
    client: bool, side: bool, status: bool, id: bool, unlisted: bool, over: bool, short: bool, booked: bool,
    beyond: bool)

  predicate Raised(f: Failures, code: Code) {
    || (f.client && code == ClientOrderIdMismatch) || (f.side && code == SideMismatch)
    || (f.status && code == StatusMismatch) || (f.id && code == BrokerOrderIdMismatch)
    || (f.unlisted && code == UnknownFill) || (f.over && code == QuantityMismatch)
    || (f.short && code == QuantityMismatch) || (f.booked && code == FillQuantityMismatch)
    || (f.beyond && code == PriceMismatch)
  }

  function Chain(f: Failures): seq<Code> {
    When(f.client, ClientOrderIdMismatch) + When(f.side, SideMismatch) + When(f.status, StatusMismatch)
    + When(f.id, BrokerOrderIdMismatch) + When(f.unlisted, UnknownFill) + When(f.over, QuantityMismatch)
    + When(f.short, QuantityMismatch) + When(f.booked, FillQuantityMismatch) + When(f.beyond, PriceMismatch)
  }

  lemma InChain(f: Failures, code: Code)
    ensures code in Chain(f) <==> Raised(f, code)
  {
    var codes := When(f.client, ClientOrderIdMismatch);
    InWhen(codes, f.side, SideMismatch, code);
    codes := codes + When(f.side, SideMismatch);
    InWhen(codes, f.status, StatusMismatch, code);
    codes := codes + When(f.status, StatusMismatch);
    InWhen(codes, f.id, BrokerOrderIdMismatch, code);
    codes := codes + When(f.id, BrokerOrderIdMismatch);
    InWhen(codes, f.unlisted, UnknownFill, code);
    codes := codes + When(f.unlisted, UnknownFill);
    InWhen(codes, f.over, QuantityMismatch, code);
    codes := codes + When(f.over, QuantityMismatch);
    InWhen(codes, f.short, QuantityMismatch, code);
    codes := codes + When(f.short, QuantityMismatch);
    InWhen(codes, f.booked, FillQuantityMismatch, code);
    codes := codes + When(f.booked, FillQuantityMismatch);
    InWhen(codes, f.beyond, PriceMismatch, code);
  }

  lemma UnknownFillIff(orders: seq<BrokerOrder>, fills: seq<Fill>)
    ensures AnyUnlisted(orders, fills) <==> SomeUnknown(orders, fills)
  {
    if AnyUnlisted(orders, fills) {
      var i :| 0 <= i < |fills| && !Listed(orders, fills[i].brokerOrderId);
      assert fills[i] in fills;
    }
    if f :| f in fills && forall o | o in orders :: o.brokerOrderId != f.brokerOrderId {
      var i :| 0 <= i < |fills| && fills[i] == f;
      assert !Listed(orders, f.brokerOrderId);
    }
  }

  lemma BreachIs(local: Local, sorted: seq<Fill>, fills: seq<Fill>)
    requires forall f :: f in sorted <==> f in fills
    ensures AnyBreach(local.side, local.limitPrice, sorted) <==> SomeBeyond(local, fills)
  {
    if AnyBreach(local.side, local.limitPrice, sorted) {
      var i :| 0 <= i < |sorted| && Breaches(local.side, local.limitPrice, sorted[i].price);
      assert sorted[i] in fills && Beyond(local, sorted[i]);
    }
    if f :| f in fills && Beyond(local, f) {
      assert f in sorted;
      var i :| 0 <= i < |sorted| && sorted[i] == f;
      assert Breaches(local.side, local.limitPrice, sorted[i].price);
    }
  }

  /** What each comparison says. */
  ghost function FailuresOf(
    local: Local, broker: BrokerOrder, orders: seq<BrokerOrder>, fills: seq<Fill>): Failures
  {
    var mine := FillsOf(fills, broker.brokerOrderId);
    Failures(
      broker.clientOrderId != local.clientOrderId, broker.side != local.side, !Fits(local.lifecycle, broker.status),
      local.brokerOrderId.Some? && broker.brokerOrderId != local.brokerOrderId.value, SomeUnknown(orders, fills),
      Total(mine) > local.expectedQuantity, broker.status.Filled? && Total(mine) < local.expectedQuantity,
      KnownTotal(mine, local.knownFillIds) != local.filledQuantity, SomeBeyond(local, mine))
  }

  /** A fill whose order the broker does not list. */
  ghost predicate SomeUnknown(orders: seq<BrokerOrder>, fills: seq<Fill>) {
    exists f :: f in fills && forall o | o in orders :: o.brokerOrderId != f.brokerOrderId
  }

  ghost predicate SomeBeyond(local: Local, fills: seq<Fill>) {
    exists f :: f in fills && Beyond(local, f)
  }

  lemma DiscrepanciesAreChain(local: Local, broker: BrokerOrder, orders: seq<BrokerOrder>, fills: seq<Fill>)
    ensures Discrepancies(local, broker, orders, fills) == Chain(FailuresOf(local, broker, orders, fills))
  {
    SortedTotals(fills, broker.brokerOrderId, local.knownFillIds);
    StatusAllowedIff(local.lifecycle, broker.status);
    UnknownFillIff(orders, fills);
    BreachIs(local, OrderFills(fills, broker.brokerOrderId), FillsOf(fills, broker.brokerOrderId));
  }

  /** A code arises if and only if its comparison fails. */
  lemma CodesMean(local: Local, broker: BrokerOrder, orders: seq<BrokerOrder>, fills: seq<Fill>, code: Code)
    ensures code in Discrepancies(local, broker, orders, fills)
            <==> Raised(FailuresOf(local, broker, orders, fills), code)
  {
    DiscrepanciesAreChain(local, broker, orders, fills);
    InChain(FailuresOf(local, broker, orders, fills), code);
  }

  /** A manual review for exactly the failed comparisons. */
  ghost predicate Carries(report: Report, failures: Failures) {
    && report.outcome.ManualReview? && Ranked(report.codes, 9) && report.codes != []
    && report.reason == Because(report.codes[0])
    && forall code :: code in report.codes <==> Raised(failures, code)
  }

  /** The report about a compared order: an unknown status is a manual review of its own; otherwise the report carries
    * exactly the codes whose meaning holds, in their fixed order, and the first as its reason; with none it matches. */
  lemma ReportMeans(local: Local, orders: seq<BrokerOrder>, fills: seq<Fill>, broker: BrokerOrder)
    requires FindBroker(local, orders) == Ok(broker)
    ensures var report, failures := Compare(local, orders, fills), FailuresOf(local, broker, orders, fills);
      if broker.status.UnknownStatus? then report == UnknownStatusReport(broker.brokerOrderId)
      else
        && report.brokerOrderId == Some(broker.brokerOrderId)
        && ((forall code :: !Raised(failures, code)) ==>
              report.outcome.MatchedOutcome? && report.codes == [Matched] && report.reason == Because(Matched))
        && ((exists code :: Raised(failures, code)) ==> Carries(report, failures))
  {
    if !broker.status.UnknownStatus? { KnownReportMeans(local, orders, fills, broker); }
  }

  lemma KnownReportMeans(local: Local, orders: seq<BrokerOrder>, fills: seq<Fill>, broker: BrokerOrder)
    requires FindBroker(local, orders) == Ok(broker) && !broker.status.UnknownStatus?
    ensures var report, failures := Compare(local, orders, fills), FailuresOf(local, broker, orders, fills);
      && report.brokerOrderId == Some(broker.brokerOrderId)
      && ((forall code :: !Raised(failures, code)) ==>
            report.outcome.MatchedOutcome? && report.codes == [Matched] && report.reason == Because(Matched))
      && ((exists code :: Raised(failures, code)) ==> Carries(report, failures))
  {
    var all, failures := Discrepancies(local, broker, orders, fills), FailuresOf(local, broker, orders, fills);
    DiscrepanciesAreDistinct(local, broker, orders, fills);
    forall code ensures code in UniqueCodes(all) <==> Raised(failures, code) {
      CodesMean(local, broker, orders, fills, code);
    }
    if all != [] { assert all[0] in all; }
  }

  function UnknownStatusReport(id: int): Report {
    Report(ManualReview, Because(BrokerOrderUnknownStatus), [BrokerOrderUnknownStatus], Some(id), None, [], [])
  }

  /** The ids, in order, of the fills that are already booked, or of those that are not. */
  function IdsWhere(fills: seq<Fill>, known: set<int>, booked: bool): seq<int> {
    if fills == [] then []
    else
      var id := fills[|fills| - 1].id;
      IdsWhere(fills[..|fills| - 1], known, booked) + if id in known <==> booked then [id] else []
  }

  lemma {:induction false} ListedIds(fills: seq<Fill>, known: set<int>)
    ensures Ids(NewFills(fills, known)) == IdsWhere(fills, known, false)
    ensures DuplicateIds(fills, known) == IdsWhere(fills, known, true)
  {
    if fills != [] {
      var rest, f := fills[..|fills| - 1], fills[|fills| - 1];
      ListedIds(rest, known);
      IdsAppend(NewFills(rest, known), f);
      assert NewFills(rest, known) + [] == NewFills(rest, known);
    }
  }

  /** By time, and by id at one time. */
  predicate Chronological(fills: seq<Fill>) {
    forall i, j :: 0 <= i < j < |fills| ==>
      || fills[i].filledAt < fills[j].filledAt
      || (fills[i].filledAt == fills[j].filledAt && fills[i].id <= fills[j].id)
  }

  /** A comparison reads the order's own fills, each as often as it is listed, by time: it adds them up and lists
    * their ids as new ones and as booked ones. */
  lemma ReportLists(local: Local, orders: seq<BrokerOrder>, fills: seq<Fill>, broker: BrokerOrder)
    returns (mine: seq<Fill>)
    requires FindBroker(local, orders) == Ok(broker) && !broker.status.UnknownStatus?
    ensures forall x :: multiset(mine)[x] == if x.brokerOrderId == broker.brokerOrderId then multiset(fills)[x] else 0
    ensures Chronological(mine)
    ensures var report := Compare(local, orders, fills);
      && report.brokerFilled == Some(Total(mine))
      && report.newFillIds == IdsWhere(mine, local.knownFillIds, false)
      && report.duplicateFillIds == IdsWhere(mine, local.knownFillIds, true)
  {
    mine := OrderFills(fills, broker.brokerOrderId);
    SortPermutes(FillsOf(fills, broker.brokerOrderId));
    forall x
      ensures multiset(mine)[x] == if x.brokerOrderId == broker.brokerOrderId then multiset(fills)[x] else 0 {
      FillsOfCount(fills, broker.brokerOrderId, x);
    }
    SortIsInOrder(FillsOf(fills, broker.brokerOrderId));
    ReadsFillsOf(local, orders, fills);
    ListedIds(mine, local.knownFillIds);
  }

  /** What lifecycles and statuses a match allows, spelled out. */
  lemma MatchedStatuses(local: Local, orders: seq<BrokerOrder>, fills: seq<Fill>) returns (broker: BrokerOrder)
    requires Compare(local, orders, fills).outcome.MatchedOutcome?
    ensures broker in orders && broker.clientOrderId == local.clientOrderId && !broker.status.UnknownStatus?
    ensures local.lifecycle.LcFilled? ==> broker.status.Filled?
    ensures local.lifecycle.LcRejected? ==> broker.status.Rejected?
    ensures local.lifecycle.LcCancelled? ==> broker.status.Cancelled? || broker.status.PartiallyFilled?
    ensures local.lifecycle.LcPartiallyFilled? ==> !broker.status.Accepted? && !broker.status.Rejected?
  {
    var i := MatchedBroker(local, orders, fills);
    broker := orders[i];
    CleanFits(local, broker, orders, fills);
  }

  lemma CleanFits(local: Local, broker: BrokerOrder, orders: seq<BrokerOrder>, fills: seq<Fill>)
    requires Clean(local, broker, orders, fills)
    ensures Fits(local.lifecycle, broker.status) && broker.clientOrderId == local.clientOrderId
  {
  }

  // ----- The ledger -----

  /** The ids of the fills that the ledger applied, in order. */
  function AppliedIds<L>(ledger: Ledger<L>, fills: seq<Fill>): seq<int> {
    if fills == [] then []
    else
      var rest, f := fills[..|fills| - 1], fills[|fills| - 1];
      AppliedIds(ledger, rest) + if ledger.apply(ApplyAll(ledger, rest), f).1.Applied? then [f.id] else []
  }

  /** The batch stops with the reason of the first refusal. */
  predicate RefusedAt<L>(ledger: Ledger<L>, fills: seq<Fill>, k: int, reason: int) {
    && 0 <= k < |fills| && NoneRefused(ledger, fills[..k])
    && ledger.apply(ApplyAll(ledger, fills[..k]), fills[k]).1 == Refused(reason)
  }

  lemma {:induction false} BatchAnswers<L>(ledger: Ledger<L>, fills: seq<Fill>)
    ensures ApplyBatch(ledger, fills).Ok? ==> ApplyBatch(ledger, fills).value.1 == AppliedIds(ledger, fills)
    ensures ApplyBatch(ledger, fills).Err? ==> exists k :: RefusedAt(ledger, fills, k, ApplyBatch(ledger, fills).error)
  {
    if fills != [] {
      var n := |fills| - 1;
      BatchAnswers(ledger, fills[..n]);
      BatchIsAllOrNothing(ledger, fills[..n]);
      if ApplyBatch(ledger, fills[..n]).Err? {
        var reason := ApplyBatch(ledger, fills[..n]).error;
        var k :| RefusedAt(ledger, fills[..n], k, reason);
        assert fills[..n][..k] == fills[..k] && fills[..n][k] == fills[k];
        assert RefusedAt(ledger, fills, k, reason);
      } else if ApplyBatch(ledger, fills).Err? {
        assert fills[..n] == fills[..|fills| - 1];
        assert RefusedAt(ledger, fills, n, ApplyBatch(ledger, fills).error);
      }
    }
  }

  /** With a ledger, a match lists the ids the ledger applied; a refusal is a manual review for the ledger's reason;
    * and the rest of the report is the comparison's. */
  lemma LedgerReport<L>(local: Local, orders: seq<BrokerOrder>, fills: seq<Fill>, ledger: Ledger<L>)
    ensures var compared := Compare(local, orders, fills);
      var batch := Batch(local, compared, fills);
      var report := Reconciled(local, orders, fills, ledger).0;
      if !compared.outcome.MatchedOutcome? then report == compared
      else if NoneRefused(ledger, batch) then report == compared.(newFillIds := AppliedIds(ledger, batch))
      else
        && report.reason.LedgerReason? && (exists k :: RefusedAt(ledger, batch, k, report.reason.text))
        && report == compared.(outcome := ManualReview, reason := report.reason, codes := [LedgerRejected])
  {
    var batch := Batch(local, Compare(local, orders, fills), fills);
    BatchIsAllOrNothing(ledger, batch);
    BatchAnswers(ledger, batch);
  }
}
