/** What a reconciliation report means: exactly when it matches, the exposure a match allows, that folding
  * its new fills is a fixpoint, and that the broker's listing order does not matter. */
module ReconciliationTheorems {
  import opened Common
  import opened Reconciliation

  // ----- Discrepancy codes -----

  function Rank(code: Code): nat {
    match code
    case ClientOrderIdMismatch => 1
    case SideMismatch => 2
    case StatusMismatch => 3
    case BrokerOrderIdMismatch => 4
    case UnknownFill => 5
    case QuantityMismatch => 6
    case FillQuantityMismatch => 7
    case PriceMismatch => 8
    case _ => 9
  }

  predicate Ranked(codes: seq<Code>, below: nat) {
    && (forall i, j :: 0 <= i < j < |codes| ==> Rank(codes[i]) < Rank(codes[j]))
    && (forall i :: 0 <= i < |codes| ==> Rank(codes[i]) < below)
  }

  lemma RankedWhen(codes: seq<Code>, below: nat, condition: bool, code: Code)
    requires Ranked(codes, below) && below <= Rank(code)
    ensures Ranked(codes + When(condition, code), Rank(code) + 1)
  {
  }

  lemma {:induction false} RankedIsUnique(codes: seq<Code>, below: nat)
    requires Ranked(codes, below)
    ensures UniqueCodes(codes) == codes
  {
    if codes != [] {
      var before, last := codes[..|codes| - 1], codes[|codes| - 1];
      RankedIsUnique(before, below);
      assert last !in before;
      assert codes == before + [last];
    }
  }

  lemma RankedChain(client: bool, side: bool, status: bool, id: bool, unlisted: bool)
    ensures Ranked(When(client, ClientOrderIdMismatch) + When(side, SideMismatch) + When(status, StatusMismatch)
                   + When(id, BrokerOrderIdMismatch) + When(unlisted, UnknownFill), 6)
  {
    var codes := When(client, ClientOrderIdMismatch);
    RankedWhen(codes, 2, side, SideMismatch);
    codes := codes + When(side, SideMismatch);
    RankedWhen(codes, 3, status, StatusMismatch);
    codes := codes + When(status, StatusMismatch);
    RankedWhen(codes, 4, id, BrokerOrderIdMismatch);
    codes := codes + When(id, BrokerOrderIdMismatch);
    RankedWhen(codes, 5, unlisted, UnknownFill);
  }

  lemma ChainIsRanked(codes: seq<Code>, over: bool, short: bool, booked: bool, breach: bool)
    requires Ranked(codes, 6) && !(over && short)
    ensures var all := codes + When(over, QuantityMismatch) + When(short, QuantityMismatch)
                       + When(booked, FillQuantityMismatch) + When(breach, PriceMismatch);
      Ranked(all, 9)
  {
    RankedWhen(codes, 6, over || short, QuantityMismatch);
    var quantity := codes + When(over || short, QuantityMismatch);
    assert quantity == codes + When(over, QuantityMismatch) + When(short, QuantityMismatch);
    RankedWhen(quantity, 7, booked, FillQuantityMismatch);
    var filled := quantity + When(booked, FillQuantityMismatch);
    RankedWhen(filled, 8, breach, PriceMismatch);
  }

  lemma DiscrepanciesAreRanked(local: Local, broker: BrokerOrder, orders: seq<BrokerOrder>, fills: seq<Fill>)
    ensures Ranked(Discrepancies(local, broker, orders, fills), 9)
  {
    var mine := OrderFills(fills, broker.brokerOrderId);
    var client, side := broker.clientOrderId != local.clientOrderId, broker.side != local.side;
    var status := !StatusAllowed(local.lifecycle, broker.status);
    var id := local.brokerOrderId.Some? && local.brokerOrderId.value != broker.brokerOrderId;
    var unlisted := AnyUnlisted(orders, fills);
    RankedChain(client, side, status, id, unlisted);
    ChainIsRanked(When(client, ClientOrderIdMismatch) + When(side, SideMismatch) + When(status, StatusMismatch)
                  + When(id, BrokerOrderIdMismatch) + When(unlisted, UnknownFill),
                  Total(mine) > local.expectedQuantity, broker.status.Filled? && Total(mine) < local.expectedQuantity,
                  local.filledQuantity != KnownTotal(mine, local.knownFillIds),
                  AnyBreach(local.side, local.limitPrice, mine));
  }

  /** Every comparison raises each code at most once, in a fixed order, so removing repeats changes nothing. */
  lemma DiscrepanciesAreDistinct(local: Local, broker: BrokerOrder, orders: seq<BrokerOrder>, fills: seq<Fill>)
    ensures UniqueCodes(Discrepancies(local, broker, orders, fills)) == Discrepancies(local, broker, orders, fills)
    ensures Ranked(Discrepancies(local, broker, orders, fills), 9)
  {
    DiscrepanciesAreRanked(local, broker, orders, fills);
    RankedIsUnique(Discrepancies(local, broker, orders, fills), 9);
  }

  // ----- Permutations of fills -----

  lemma {:induction false} TotalsAdd(a: seq<Fill>, b: seq<Fill>, known: set<int>)
    ensures Total(a + b) == Total(a) + Total(b)
    ensures KnownTotal(a + b, known) == KnownTotal(a, known) + KnownTotal(b, known)
    decreases |b|
  {
    if b == [] {
      assert a + b == a;
    } else {
      var before := b[..|b| - 1];
      TotalsAdd(a, before, known);
      assert (a + b)[..|a + b| - 1] == a + before;
    }
  }

  datatype Key = Key(at: int, id: int)

  function Keys(fills: seq<Fill>): seq<Key> {
    seq(|fills|, i requires 0 <= i < |fills| => Key(fills[i].filledAt, fills[i].id))
  }

  /** Taking one fill out of a list. */
  lemma WithoutOne(b: seq<Fill>, i: nat, known: set<int>)
    requires i < |b|
    ensures var rest := b[..i] + b[i + 1..];
      && multiset(b) == multiset(rest) + multiset{b[i]}
      && Total(b) == Total(rest) + b[i].quantity
      && KnownTotal(b, known) == KnownTotal(rest, known) + (if b[i].id in known then b[i].quantity else 0.0)
      && multiset(Keys(b)) == multiset(Keys(rest)) + multiset{Key(b[i].filledAt, b[i].id)}
  {
    var left, x, right := b[..i], b[i], b[i + 1..];
    assert b == left + [x] + right;
    TotalsAdd(left, right, known);
    TotalsAdd(left, [x], known);
    TotalsAdd(left + [x], right, known);
    assert Total([x]) == x.quantity by { assert [x][..0] == []; }
    assert Keys(left + right) == Keys(left) + Keys(right);
    assert Keys(b) == Keys(left) + [Key(x.filledAt, x.id)] + Keys(right);
  }

  lemma Cancel<T>(p: multiset<T>, q: multiset<T>, x: T)
    requires p + multiset{x} == q + multiset{x}
    ensures p == q
  {
    assert p == (p + multiset{x}) - multiset{x};
    assert q == (q + multiset{x}) - multiset{x};
  }

  /** Whatever order the fills come in, they have the same totals and the same keys. */
  lemma {:induction false} FillsPermuted(a: seq<Fill>, b: seq<Fill>, known: set<int>)
    requires multiset(a) == multiset(b)
    ensures Total(a) == Total(b) && KnownTotal(a, known) == KnownTotal(b, known)
    ensures multiset(Keys(a)) == multiset(Keys(b))
    decreases |a|
  {
    assert |multiset(a)| == |multiset(b)|;
    if a == [] {
      assert b == [];
    } else {
      assert a[0] in multiset(b);
      var i :| 0 <= i < |b| && b[i] == a[0];
      var p, q := a[..0] + a[1..], b[..i] + b[i + 1..];
      WithoutOne(a, 0, known);
      WithoutOne(b, i, known);
      Cancel(multiset(p), multiset(q), a[0]);
      FillsPermuted(p, q, known);
    }
  }

  lemma {:induction false} InsertPermutes(f: Fill, sorted: seq<Fill>)
    ensures multiset(InsertFill(f, sorted)) == multiset(sorted) + multiset{f}
  {
    if sorted != [] {
      var before, last := sorted[..|sorted| - 1], sorted[|sorted| - 1];
      assert sorted == before + [last];
      if !NotAfter(last, f) { InsertPermutes(f, before); }
    }
  }

  lemma {:induction false} SortPermutes(fills: seq<Fill>)
    ensures multiset(SortFills(fills)) == multiset(fills)
  {
    if fills != [] {
      SortPermutes(fills[..|fills| - 1]);
      InsertPermutes(fills[|fills| - 1], SortFills(fills[..|fills| - 1]));
      assert fills == fills[..|fills| - 1] + [fills[|fills| - 1]];
    }
  }

  predicate InOrder(fills: seq<Fill>) {
    forall i, j :: 0 <= i < j < |fills| ==> NotAfter(fills[i], fills[j])
  }

  lemma {:induction false} InsertKeepsOrder(f: Fill, sorted: seq<Fill>)
    requires InOrder(sorted)
    ensures InOrder(InsertFill(f, sorted))
  {
    if sorted != [] {
      var before, last := sorted[..|sorted| - 1], sorted[|sorted| - 1];
      if NotAfter(last, f) {
        var all := sorted + [f];
        forall i, j | 0 <= i < j < |all| ensures NotAfter(all[i], all[j]) {
          if j == |sorted| && i < |before| { assert NotAfter(sorted[i], last); }
        }
      } else {
        InsertKeepsOrder(f, before);
        InsertPermutes(f, before);
        var inner := InsertFill(f, before);
        forall i | 0 <= i < |inner| ensures NotAfter(inner[i], last) {
          assert inner[i] in multiset(inner);
          if inner[i] != f {
            assert inner[i] in before;
            var k :| 0 <= k < |before| && before[k] == inner[i];
            assert NotAfter(sorted[k], last);
          }
        }
      }
    }
  }

  lemma {:induction false} SortIsInOrder(fills: seq<Fill>)
    ensures InOrder(SortFills(fills))
  {
    if fills != [] {
      SortIsInOrder(fills[..|fills| - 1]);
      InsertKeepsOrder(fills[|fills| - 1], SortFills(fills[..|fills| - 1]));
    }
  }

  predicate KeyNotAfter(a: Key, b: Key) { a.at < b.at || (a.at == b.at && a.id <= b.id) }

  predicate KeysInOrder(p: seq<Key>) {
    forall i, j :: 0 <= i < j < |p| ==> KeyNotAfter(p[i], p[j])
  }

  lemma LastIsLargest(p: seq<Key>, x: Key)
    requires KeysInOrder(p) && x in multiset(p)
    ensures KeyNotAfter(x, p[|p| - 1])
  {
    var i :| 0 <= i < |p| && p[i] == x;
  }

  lemma KeysWithoutLast(p: seq<Key>)
    requires p != [] && KeysInOrder(p)
    ensures var rest := p[..|p| - 1];
      p == rest + [p[|p| - 1]] && KeysInOrder(rest) && multiset(p) == multiset(rest) + multiset{p[|p| - 1]}
  {
    assert p == p[..|p| - 1] + [p[|p| - 1]];
  }

  lemma {:induction false} SortedKeysAreEqual(p: seq<Key>, q: seq<Key>)
    requires multiset(p) == multiset(q) && KeysInOrder(p) && KeysInOrder(q)
    ensures p == q
    decreases |p|
  {
    assert |multiset(p)| == |multiset(q)|;
    if p != [] {
      var x, y := p[|p| - 1], q[|q| - 1];
      LastIsLargest(q, x);
      LastIsLargest(p, y);
      assert x == y;
      KeysWithoutLast(p);
      KeysWithoutLast(q);
      Cancel(multiset(p[..|p| - 1]), multiset(q[..|q| - 1]), x);
      SortedKeysAreEqual(p[..|p| - 1], q[..|q| - 1]);
    }
  }

  lemma {:induction false} KeysDecideIds(a: seq<Fill>, b: seq<Fill>, known: set<int>)
    requires Keys(a) == Keys(b)
    ensures Ids(NewFills(a, known)) == Ids(NewFills(b, known)) && DuplicateIds(a, known) == DuplicateIds(b, known)
    decreases |a|
  {
    assert |Keys(a)| == |a| && |Keys(b)| == |b|;
    if a != [] {
      var n := |a| - 1;
      assert Keys(a)[n] == Keys(b)[n];
      assert Keys(a[..n]) == Keys(a)[..n] && Keys(b[..n]) == Keys(b)[..n];
      KeysDecideIds(a[..n], b[..n], known);
      IdsAppend(NewFills(a[..n], known), a[n]);
      IdsAppend(NewFills(b[..n], known), b[n]);
    }
  }

  lemma IdsAppend(fills: seq<Fill>, f: Fill)
    ensures Ids(fills + [f]) == Ids(fills) + [f.id] && Ids(fills + []) == Ids(fills)
  {
    assert fills + [] == fills;
  }

  lemma {:induction false} FillsOfCount(fills: seq<Fill>, id: int, x: Fill)
    ensures multiset(FillsOf(fills, id))[x] == if x.brokerOrderId == id then multiset(fills)[x] else 0
  {
    if fills != [] {
      FillsOfCount(fills[1..], id, x);
      assert fills == [fills[0]] + fills[1..];
    }
  }

  lemma FillsOfPermuted(a: seq<Fill>, b: seq<Fill>, id: int)
    requires multiset(a) == multiset(b)
    ensures multiset(FillsOf(a, id)) == multiset(FillsOf(b, id))
  {
    forall x: Fill ensures multiset(FillsOf(a, id))[x] == multiset(FillsOf(b, id))[x] {
      FillsOfCount(a, id, x);
      FillsOfCount(b, id, x);
    }
  }

  /** What a report reads off an order's fills does not depend on the order the fills arrive in. */
  lemma OrderFillsPermuted(a: seq<Fill>, b: seq<Fill>, id: int, known: set<int>)
    requires multiset(a) == multiset(b)
    ensures var p, q := OrderFills(a, id), OrderFills(b, id);
      && Total(p) == Total(q) && KnownTotal(p, known) == KnownTotal(q, known)
      && Ids(NewFills(p, known)) == Ids(NewFills(q, known)) && DuplicateIds(p, known) == DuplicateIds(q, known)
      && multiset(p) == multiset(q)
  {
    var p, q := OrderFills(a, id), OrderFills(b, id);
    FillsOfPermuted(a, b, id);
    SortPermutes(FillsOf(a, id));
    SortPermutes(FillsOf(b, id));
    SortIsInOrder(FillsOf(a, id));
    SortIsInOrder(FillsOf(b, id));
    FillsPermuted(p, q, known);
    SortedKeysAreEqual(Keys(p), Keys(q));
    KeysDecideIds(p, q, known);
  }

  lemma BreachPermuted(side: Side, limit: real, a: seq<Fill>, b: seq<Fill>)
    requires multiset(a) == multiset(b) && AnyBreach(side, limit, a)
    ensures AnyBreach(side, limit, b)
  {
    var i :| 0 <= i < |a| && Breaches(side, limit, a[i].price);
    assert a[i] in multiset(b);
  }

  // ----- Permutations of orders -----

  lemma {:induction false} MatchesCount(orders: seq<BrokerOrder>, client: int, id: Option<int>, x: BrokerOrder)
    ensures multiset(ClientMatches(orders, client))[x] == if x.clientOrderId == client then multiset(orders)[x] else 0
    ensures multiset(IdMatches(orders, id))[x] == if id == Some(x.brokerOrderId) then multiset(orders)[x] else 0
  {
    if orders != [] {
      MatchesCount(orders[1..], client, id, x);
      assert orders == [orders[0]] + orders[1..];
    }
  }

  lemma SameSingleton(a: seq<BrokerOrder>, b: seq<BrokerOrder>)
    requires multiset(a) == multiset(b)
    ensures |a| == |b| && (|a| == 1 ==> a == b)
  {
    assert |multiset(a)| == |multiset(b)|;
    if |a| == 1 {
      assert a[0] in multiset(b);
    }
  }

  lemma FindBrokerPermuted(local: Local, a: seq<BrokerOrder>, b: seq<BrokerOrder>)
    requires multiset(a) == multiset(b)
    ensures FindBroker(local, a) == FindBroker(local, b)
  {
    forall x: BrokerOrder
      ensures multiset(ClientMatches(a, local.clientOrderId))[x] == multiset(ClientMatches(b, local.clientOrderId))[x]
      ensures multiset(IdMatches(a, local.brokerOrderId))[x] == multiset(IdMatches(b, local.brokerOrderId))[x] {
      MatchesCount(a, local.clientOrderId, local.brokerOrderId, x);
      MatchesCount(b, local.clientOrderId, local.brokerOrderId, x);
    }
    SameSingleton(ClientMatches(a, local.clientOrderId), ClientMatches(b, local.clientOrderId));
    SameSingleton(IdMatches(a, local.brokerOrderId), IdMatches(b, local.brokerOrderId));
  }

  lemma UnlistedPermuted(orders: seq<BrokerOrder>, orders': seq<BrokerOrder>, fills: seq<Fill>, fills': seq<Fill>)
    requires multiset(orders) == multiset(orders') && multiset(fills) == multiset(fills') && AnyUnlisted(orders, fills)
    ensures AnyUnlisted(orders', fills')
  {
    var i :| 0 <= i < |fills| && !Listed(orders, fills[i].brokerOrderId);
    assert fills[i] in multiset(fills');
    var k :| 0 <= k < |fills'| && fills'[k] == fills[i];
    if Listed(orders', fills[i].brokerOrderId) { ListedPermuted(orders', orders, fills[i].brokerOrderId); }
  }

  lemma ListedPermuted(a: seq<BrokerOrder>, b: seq<BrokerOrder>, id: int)
    requires multiset(a) == multiset(b) && Listed(a, id)
    ensures Listed(b, id)
  {
    var i :| 0 <= i < |a| && a[i].brokerOrderId == id;
    assert a[i] in multiset(b);
  }

  /** The report does not depend on how the broker lists its orders and fills. */
  lemma ListingOrderIrrelevant(
    local: Local, orders: seq<BrokerOrder>, orders': seq<BrokerOrder>, fills: seq<Fill>, fills': seq<Fill>)
    requires multiset(orders) == multiset(orders') && multiset(fills) == multiset(fills')
    ensures Compare(local, orders, fills) == Compare(local, orders', fills')
  {
    FindBrokerPermuted(local, orders, orders');
    if FindBroker(local, orders).Ok? {
      DiscrepanciesPermuted(local, FindBroker(local, orders).value, orders, orders', fills, fills');
      OrderFillsPermuted(fills, fills', FindBroker(local, orders).value.brokerOrderId, local.knownFillIds);
    }
  }

  lemma DiscrepanciesPermuted(
    local: Local, broker: BrokerOrder, orders: seq<BrokerOrder>, orders': seq<BrokerOrder>, fills: seq<Fill>,
    fills': seq<Fill>)
    requires multiset(orders) == multiset(orders') && multiset(fills) == multiset(fills')
    ensures Discrepancies(local, broker, orders, fills) == Discrepancies(local, broker, orders', fills')
  {
    var mine, mine' := OrderFills(fills, broker.brokerOrderId), OrderFills(fills', broker.brokerOrderId);
    OrderFillsPermuted(fills, fills', broker.brokerOrderId, local.knownFillIds);
    if AnyBreach(local.side, local.limitPrice, mine) { BreachPermuted(local.side, local.limitPrice, mine, mine'); }
    if AnyBreach(local.side, local.limitPrice, mine') { BreachPermuted(local.side, local.limitPrice, mine', mine); }
    if AnyUnlisted(orders, fills) { UnlistedPermuted(orders, orders', fills, fills'); }
    if AnyUnlisted(orders', fills') { UnlistedPermuted(orders', orders, fills', fills); }
  }
}
