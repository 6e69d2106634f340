/** Reconciling one local order expectation with the broker's orders and fills. Ids are integers ranked
  * as their strings are; decimals are exact reals. */
module Reconciliation {
  import opened Common
  import opened Rounding

  type NonNegative = x: real | 0.0 <= x

  datatype Side = Buy | Sell

  datatype BrokerStatus = Accepted | PartiallyFilled | Filled | Cancelled | Rejected | UnknownStatus

  datatype Lifecycle =
    | LcSubmitting | LcSubmitted | LcSubmitUnknown | LcReconciling | LcPartiallyFilled
    | LcFilled | LcCancelled | LcRejected | LcManualReview | LcOther

  datatype Local = Local(
    clientOrderId: int, side: Side, expectedQuantity: Positive, limitPrice: Positive, lifecycle: Lifecycle,
    brokerOrderId: Option<int>, knownFillIds: set<int>, filledQuantity: NonNegative)

  datatype BrokerOrder = BrokerOrder(brokerOrderId: int, clientOrderId: int, side: Side, status: BrokerStatus)

  datatype Fill = Fill(id: int, brokerOrderId: int, quantity: Positive, price: Positive, filledAt: int)

  datatype Code =
    | Matched | MissingBrokerOrder | ClientOrderIdMismatch | BrokerOrderIdMismatch | SideMismatch
    | QuantityMismatch | PriceMismatch | StatusMismatch | UnknownFill | FillQuantityMismatch
    | LedgerRejected | MultipleBrokerMatches | BrokerOrderUnknownStatus

  datatype Reason = Because(code: Code) | NoBrokerOrder | LedgerReason(text: int)

  datatype Outcome = MatchedOutcome | ManualReview | UnknownOutcome

  datatype Report = Report(
    outcome: Outcome, reason: Reason, codes: seq<Code>, brokerOrderId: Option<int>,
    brokerFilled: Option<real>, newFillIds: seq<int>, duplicateFillIds: seq<int>)

  // ----- Statuses -----

  function ExpectedStatuses(lifecycle: Lifecycle): set<BrokerStatus> {
    match lifecycle
    case LcSubmitting | LcSubmitted | LcSubmitUnknown | LcReconciling =>
      {Accepted, PartiallyFilled, Filled, Cancelled, Rejected}
    case LcPartiallyFilled => {PartiallyFilled, Filled, Cancelled}
    case LcFilled => {Filled}
    case LcCancelled => {Cancelled, PartiallyFilled}
    case LcRejected => {Rejected}
    case LcManualReview => {Accepted, PartiallyFilled, Filled, Cancelled, Rejected, UnknownStatus}
    case LcOther => {}
  }

  predicate StatusAllowed(lifecycle: Lifecycle, status: BrokerStatus) {
    ExpectedStatuses(lifecycle) == {} || status in ExpectedStatuses(lifecycle)
  }

  predicate WorkingOrUncertain(lifecycle: Lifecycle) {
    lifecycle in {LcSubmitting, LcSubmitted, LcPartiallyFilled, LcSubmitUnknown, LcReconciling}
  }

  // ----- Selecting orders and fills -----

  function ClientMatches(orders: seq<BrokerOrder>, id: int): seq<BrokerOrder> {
    if orders == [] then []
    else
      var rest := ClientMatches(orders[1..], id);
      if orders[0].clientOrderId == id then [orders[0]] + rest else rest
  }

  function IdMatches(orders: seq<BrokerOrder>, id: Option<int>): seq<BrokerOrder> {
    if orders == [] then []
    else
      var rest := IdMatches(orders[1..], id);
      if id == Some(orders[0].brokerOrderId) then [orders[0]] + rest else rest
  }

  function FillsOf(fills: seq<Fill>, brokerOrderId: int): seq<Fill> {
    if fills == [] then []
    else
      var rest := FillsOf(fills[1..], brokerOrderId);
      if fills[0].brokerOrderId == brokerOrderId then [fills[0]] + rest else rest
  }

  predicate NotAfter(a: Fill, b: Fill) {
    a.filledAt < b.filledAt || (a.filledAt == b.filledAt && a.id <= b.id)
  }

  /** Stable insertion: after every fill with the same key. */
  function InsertFill(f: Fill, sorted: seq<Fill>): seq<Fill> {
    if sorted == [] then [f]
    else if NotAfter(sorted[|sorted| - 1], f) then sorted + [f]
    else InsertFill(f, sorted[..|sorted| - 1]) + [sorted[|sorted| - 1]]
  }

  function SortFills(fills: seq<Fill>): seq<Fill> {
    if fills == [] then [] else InsertFill(fills[|fills| - 1], SortFills(fills[..|fills| - 1]))
  }

  function OrderFills(fills: seq<Fill>, brokerOrderId: int): seq<Fill> {
    SortFills(FillsOf(fills, brokerOrderId))
  }

  // ----- Measures of a list of fills -----

  function Total(fills: seq<Fill>): real {
    if fills == [] then 0.0 else Total(fills[..|fills| - 1]) + fills[|fills| - 1].quantity
  }

  function KnownTotal(fills: seq<Fill>, known: set<int>): real {
    if fills == [] then 0.0
    else
      var f := fills[|fills| - 1];
      KnownTotal(fills[..|fills| - 1], known) + if f.id in known then f.quantity else 0.0
  }

  function NewFills(fills: seq<Fill>, known: set<int>): seq<Fill> {
    if fills == [] then []
    else
      var f := fills[|fills| - 1];
      NewFills(fills[..|fills| - 1], known) + if f.id in known then [] else [f]
  }

  function DuplicateIds(fills: seq<Fill>, known: set<int>): seq<int> {
    if fills == [] then []
    else
      var f := fills[|fills| - 1];
      DuplicateIds(fills[..|fills| - 1], known) + if f.id in known then [f.id] else []
  }

  function Ids(fills: seq<Fill>): seq<int> {
    seq(|fills|, i requires 0 <= i < |fills| => fills[i].id)
  }

  predicate Breaches(side: Side, limit: real, price: real) {
    if side.Buy? then price > limit else price < limit
  }

  predicate AnyBreach(side: Side, limit: real, fills: seq<Fill>) {
    exists i :: 0 <= i < |fills| && Breaches(side, limit, fills[i].price)
  }

  predicate Listed(orders: seq<BrokerOrder>, brokerOrderId: int) {
    exists i :: 0 <= i < |orders| && orders[i].brokerOrderId == brokerOrderId
  }

  predicate AnyUnlisted(orders: seq<BrokerOrder>, fills: seq<Fill>) {
    exists i :: 0 <= i < |fills| && !Listed(orders, fills[i].brokerOrderId)
  }

  // ----- Discrepancies -----

  function When(condition: bool, code: Code): seq<Code> { if condition then [code] else [] }

  function Discrepancies(local: Local, broker: BrokerOrder, orders: seq<BrokerOrder>, fills: seq<Fill>): seq<Code> {
    var mine := OrderFills(fills, broker.brokerOrderId);
    var filled := Total(mine);
    When(broker.clientOrderId != local.clientOrderId, ClientOrderIdMismatch)
    + When(broker.side != local.side, SideMismatch)
    + When(!StatusAllowed(local.lifecycle, broker.status), StatusMismatch)
    + When(local.brokerOrderId.Some? && local.brokerOrderId.value != broker.brokerOrderId, BrokerOrderIdMismatch)
    + When(AnyUnlisted(orders, fills), UnknownFill)
    + When(filled > local.expectedQuantity, QuantityMismatch)
    + When(broker.status.Filled? && filled < local.expectedQuantity, QuantityMismatch)
    + When(local.filledQuantity != KnownTotal(mine, local.knownFillIds), FillQuantityMismatch)
    + When(AnyBreach(local.side, local.limitPrice, mine), PriceMismatch)
  }

  function UniqueCodes(codes: seq<Code>): seq<Code> {
    if codes == [] then []
    else
      var before, last := UniqueCodes(codes[..|codes| - 1]), codes[|codes| - 1];
      if last in before then before else before + [last]
  }

  // ----- The ledger -----

  datatype ApplyStatus = Applied | Duplicate | Refused(reason: int)

  /** A ledger and its single-fill operation. */
  datatype Ledger<!L> = Ledger(state: L, apply: (L, Fill) -> (L, ApplyStatus))

  /** All-or-nothing: the state after every fill and the ids applied, or the reason of the first refusal. */
  function ApplyBatch<L>(ledger: Ledger<L>, fills: seq<Fill>): Result<(L, seq<int>), int> {
    if fills == [] then Ok((ledger.state, []))
    else
      match ApplyBatch(ledger, fills[..|fills| - 1])
      case Err(reason) => Err(reason)
      case Ok((state, applied)) =>
        var f := fills[|fills| - 1];
        var (next, status) := ledger.apply(state, f);
        match status
        case Applied => Ok((next, applied + [f.id]))
        case Duplicate => Ok((next, applied))
        case Refused(reason) => Err(reason)
  }

  // ----- Reconciling -----

  function Manual(reason: Reason, codes: seq<Code>, brokerOrderId: Option<int>): Report {
    Report(ManualReview, reason, codes, brokerOrderId, None, [], [])
  }

  function FindBroker(local: Local, orders: seq<BrokerOrder>): Result<BrokerOrder, Report> {
    var clients, ids := ClientMatches(orders, local.clientOrderId), IdMatches(orders, local.brokerOrderId);
    if |clients| > 1 then Err(Manual(Because(MultipleBrokerMatches), [MultipleBrokerMatches], None))
    else if |clients| == 1 then Ok(clients[0])
    else if |ids| == 1 then Ok(ids[0])
    else if |ids| > 1 then Err(Manual(Because(MultipleBrokerMatches), [MultipleBrokerMatches], local.brokerOrderId))
    else if WorkingOrUncertain(local.lifecycle) then
      Err(Manual(Because(MissingBrokerOrder), [MissingBrokerOrder], local.brokerOrderId))
    else Err(Report(UnknownOutcome, NoBrokerOrder, [MissingBrokerOrder], local.brokerOrderId, None, [], []))
  }

  /** The comparison alone, before any ledger is touched. */
  function Compare(local: Local, orders: seq<BrokerOrder>, fills: seq<Fill>): Report {
    match FindBroker(local, orders)
    case Err(report) => report
    case Ok(broker) =>
      if broker.status.UnknownStatus? then
        Manual(Because(BrokerOrderUnknownStatus), [BrokerOrderUnknownStatus], Some(broker.brokerOrderId))
      else
        var mine, known := OrderFills(fills, broker.brokerOrderId), local.knownFillIds;
        var codes := UniqueCodes(Discrepancies(local, broker, orders, fills));
        if codes != [] then
          Report(ManualReview, Because(codes[0]), codes, Some(broker.brokerOrderId), Some(Total(mine)),
                 Ids(NewFills(mine, known)), DuplicateIds(mine, known))
        else
          Report(MatchedOutcome, Because(Matched), [Matched], Some(broker.brokerOrderId), Some(Total(mine)),
                 Ids(NewFills(mine, known)), DuplicateIds(mine, known))
  }

  /** The fills a matched comparison would hand to the ledger. */
  function Batch(local: Local, report: Report, fills: seq<Fill>): seq<Fill> {
    if report.outcome.MatchedOutcome? && report.brokerOrderId.Some?
    then NewFills(OrderFills(fills, report.brokerOrderId.value), local.knownFillIds)
    else []
  }

  /** The report and the ledger state after reconciling with a ledger. */
  function Reconciled<L>(local: Local, orders: seq<BrokerOrder>, fills: seq<Fill>, ledger: Ledger<L>): (Report, L) {
    var report := Compare(local, orders, fills);
    var batch := Batch(local, report, fills);
    if !report.outcome.MatchedOutcome? then (report, ledger.state)
    else
      match ApplyBatch(ledger, batch)
      case Err(reason) =>
        (report.(outcome := ManualReview, reason := LedgerReason(reason), codes := [LedgerRejected]), ledger.state)
      case Ok((state, applied)) => (report.(newFillIds := applied), state)
  }

  // ----- The loops -----

  method Unique(codes: seq<Code>) returns (out: seq<Code>)
    ensures out == UniqueCodes(codes)
  {
    var seen: set<Code> := {};
    out := [];
    for i := 0 to |codes|
      invariant out == UniqueCodes(codes[..i])
      invariant forall code :: code in seen <==> code in out
    {
      assert codes[..i + 1][..i] == codes[..i];
      if codes[i] !in seen {
        seen := seen + {codes[i]};
        out := out + [codes[i]];
      }
    }
    assert codes[..|codes|] == codes;
  }

  method ClassifyFills(fills: seq<Fill>, known: set<int>) returns (news: seq<Fill>, duplicates: seq<int>)
    ensures news == NewFills(fills, known) && duplicates == DuplicateIds(fills, known)
  {
    news, duplicates := [], [];
    for i := 0 to |fills|
      invariant news == NewFills(fills[..i], known) && duplicates == DuplicateIds(fills[..i], known)
    {
      assert fills[..i + 1][..i] == fills[..i];
      if fills[i].id in known { duplicates := duplicates + [fills[i].id]; } else { news := news + [fills[i]]; }
    }
    assert fills[..|fills|] == fills;
  }

  method FindBreach(side: Side, limit: real, fills: seq<Fill>) returns (found: bool)
    ensures found == AnyBreach(side, limit, fills)
  {
    for i := 0 to |fills|
      invariant forall k :: 0 <= k < i ==> !Breaches(side, limit, fills[k].price)
    {
      if Breaches(side, limit, fills[i].price) { return true; }
    }
    return false;
  }

  datatype Alert = Alert(number: nat, reason: Reason, codes: seq<Code>)

  /** Reconciles orders and raises one numbered alert for each manual review. */
  class OrderReconciler {
    const hasSink: bool
    var alertSeq: nat
    var alerts: seq<Alert>

    constructor (hasSink: bool)
      ensures this.hasSink == hasSink && alertSeq == 0 && alerts == []
    {
      this.hasSink, alertSeq, alerts := hasSink, 0, [];
    }

    method Emit(report: Report)
      modifies this
      ensures hasSink && report.outcome.ManualReview? ==>
        alertSeq == old(alertSeq) + 1 && alerts == old(alerts) + [Alert(alertSeq, report.reason, report.codes)]
      ensures !(hasSink && report.outcome.ManualReview?) ==> alertSeq == old(alertSeq) && alerts == old(alerts)
    {
      if hasSink && report.outcome.ManualReview? {
        alertSeq := alertSeq + 1;
        alerts := alerts + [Alert(alertSeq, report.reason, report.codes)];
      }
    }

    method Reconcile(local: Local, orders: seq<BrokerOrder>, fills: seq<Fill>) returns (report: Report)
      modifies this
      ensures report == Compare(local, orders, fills)
      ensures hasSink && report.outcome.ManualReview? ==>
        alertSeq == old(alertSeq) + 1 && alerts == old(alerts) + [Alert(alertSeq, report.reason, report.codes)]
      ensures !(hasSink && report.outcome.ManualReview?) ==> alertSeq == old(alertSeq) && alerts == old(alerts)
    {
      report := CompareStepwise(local, orders, fills);
      Emit(report);
    }

    method ReconcileWithLedger<L>(
      local: Local, orders: seq<BrokerOrder>, fills: seq<Fill>, ledger: Ledger<L>) returns (report: Report, state: L)
      modifies this
      ensures (report, state) == Reconciled(local, orders, fills, ledger)
      ensures hasSink && report.outcome.ManualReview? ==>
        alertSeq == old(alertSeq) + 1 && alerts == old(alerts) + [Alert(alertSeq, report.reason, report.codes)]
      ensures !(hasSink && report.outcome.ManualReview?) ==> alertSeq == old(alertSeq) && alerts == old(alerts)
    {
      report := CompareStepwise(local, orders, fills);
      state := ledger.state;
      if report.outcome.MatchedOutcome? {
        match ApplyBatch(ledger, Batch(local, report, fills))
        case Err(reason) =>
          report := report.(outcome := ManualReview, reason := LedgerReason(reason), codes := [LedgerRejected]);
        case Ok((next, applied)) =>
          report, state := report.(newFillIds := applied), next;
      }
      Emit(report);
    }
  }

  method CollectCodes(
    local: Local, broker: BrokerOrder, orders: seq<BrokerOrder>, fills: seq<Fill>) returns (codes: seq<Code>)
    ensures codes == Discrepancies(local, broker, orders, fills)
  {
    codes := When(broker.clientOrderId != local.clientOrderId, ClientOrderIdMismatch);
    codes := codes + When(broker.side != local.side, SideMismatch);
    codes := codes + When(!StatusAllowed(local.lifecycle, broker.status), StatusMismatch);
    var otherId := local.brokerOrderId.Some? && local.brokerOrderId.value != broker.brokerOrderId;
    codes := codes + When(otherId, BrokerOrderIdMismatch);
    codes := codes + When(AnyUnlisted(orders, fills), UnknownFill);
    var mine := OrderFills(fills, broker.brokerOrderId);
    var filled := Total(mine);
    codes := codes + When(filled > local.expectedQuantity, QuantityMismatch);
    codes := codes + When(broker.status.Filled? && filled < local.expectedQuantity, QuantityMismatch);
    codes := codes + When(local.filledQuantity != KnownTotal(mine, local.knownFillIds), FillQuantityMismatch);
    var breach := FindBreach(local.side, local.limitPrice, mine);
    codes := codes + When(breach, PriceMismatch);
  }

  method CompareStepwise(local: Local, orders: seq<BrokerOrder>, fills: seq<Fill>) returns (report: Report)
    ensures report == Compare(local, orders, fills)
  {
    var found := FindBroker(local, orders);
    if found.Err? { return found.error; }
    var broker := found.value;
    if broker.status.UnknownStatus? {
      return Manual(Because(BrokerOrderUnknownStatus), [BrokerOrderUnknownStatus], Some(broker.brokerOrderId));
    }
    var collected := CollectCodes(local, broker, orders, fills);
    var codes := Unique(collected);
    var mine := OrderFills(fills, broker.brokerOrderId);
    var news, duplicates := ClassifyFills(mine, local.knownFillIds);
    if codes != [] {
      return Report(ManualReview, Because(codes[0]), codes, Some(broker.brokerOrderId), Some(Total(mine)), Ids(news),
                    duplicates);
    }
    return Report(MatchedOutcome, Because(Matched), [Matched], Some(broker.brokerOrderId), Some(Total(mine)),
                  Ids(news), duplicates);
  }
}
