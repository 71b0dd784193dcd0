/**
 * Creating and canceling orders and bills keeps the invariant. Every operation is taken apart: references, phases,
 * money, returns and links are kept by lemmas of their own, money and returns order by order, and each lemma asks only
 * for the part of the invariant it rests on.
 */
module BillSteps {
  import opened Options
  import opened Sums
  import opened Entities
  import opened OrderBuilding
  import opened Lifecycle
  import opened Invariants
  import opened ItemSums

  // ---- CreateBill ----

  /** Where payment bills may be added there are no refund bills yet. */
  lemma CommittedAnyIsPayment(s: State, o: nat)
    requires BillsOk(s) && RefundPhases(s) && o < |s.orders|
    requires s.orders[o].status.Unpaid? || s.orders[o].status.PartiallyPaid?
    ensures Sum(s.bills, CommittedAny(o)) == Sum(s.bills, CommittedPayment(o))
  {
    SumPointwise(s.bills, s.bills, CommittedAny(o), CommittedPayment(o));
  }

  /** The total never grows above what was first ordered. */
  lemma TotalAtMostOriginal(s: State, o: nat)
    requires ItemsOk(s) && o < |s.orders| && MoneyOk(s, o, NONE) && !s.orders[o].status.OrderCanceled?
    ensures s.orders[o].total <= s.orders[o].originalTotal
  {
    SumSplit(s.items, s.items, LivePrice(o), FullPrice(o));
  }

  lemma CreateBillMoney(s: State, o: nat, amount: int)
    requires BillsOk(s) && RefundPhases(s) && ItemsOk(s) && Money(s, NONE)
    requires amount >= 0 && CreateBill(s, o, amount).Commit?
    ensures Money(CreateBill(s, o, amount).state, NONE)
  {
    var s' := CreateBill(s, o, amount).state;
    CommittedAnyIsPayment(s, o);
    assert MoneyOk(s, o, NONE);
    TotalAtMostOriginal(s, o);
    forall p | 0 <= p < |s'.orders| ensures MoneyOk(s', p, NONE) {
      assert MoneyOk(s, p, NONE);
      BillAdded(s.bills, s'.bills[|s.bills|], p);
    }
  }

  lemma CreateBillKeeps(s: State, o: nat, amount: int)
    requires Inv(s) && amount >= 0 && CreateBill(s, o, amount).Commit?
    ensures Inv(CreateBill(s, o, amount).state)
  {
    var s' := CreateBill(s, o, amount).state;
    CreateBillMoney(s, o, amount);
    forall p | 0 <= p < |s'.orders| ensures ReturnsOk(s', p, NONE) {
      assert ReturnsOk(s, p, NONE);
    }
    LinksKept(s, s');
  }

  // ---- CancelBill ----

  lemma CancelBillOrder(s: State, b: nat, p: nat)
    requires CancelBill(s, b).Commit? && p < |s.orders| && MoneyOk(s, p, NONE) && ReturnsOk(s, p, NONE)
    requires s.bills[b].kind.Payment? ==> s.bills[b].amount >= 0
    ensures MoneyOk(CancelBill(s, b).state, p, NONE) && ReturnsOk(CancelBill(s, b).state, p, NONE)
  {
    BillMoves(s.bills, b, CancelBill(s, b).state.bills[b], p);
  }

  lemma CancelBillRefs(s: State, b: nat)
    requires Refs(s) && CancelBill(s, b).Commit?
    ensures Refs(CancelBill(s, b).state)
  {
  }

  lemma CancelBillPhases(s: State, b: nat)
    requires Refs(s) && Phases(s, NONE) && CancelBill(s, b).Commit? && Refs(CancelBill(s, b).state)
    ensures Phases(CancelBill(s, b).state, NONE)
  {
  }

  lemma CancelBillLedger(s: State, b: nat)
    requires BillsOk(s) && Money(s, NONE) && Returns(s, NONE) && CancelBill(s, b).Commit?
    ensures Money(CancelBill(s, b).state, NONE) && Returns(CancelBill(s, b).state, NONE)
  {
    var s' := CancelBill(s, b).state;
    forall p | 0 <= p < |s'.orders| ensures MoneyOk(s', p, NONE) && ReturnsOk(s', p, NONE) {
      CancelBillOrder(s, b, p);
    }
  }

  lemma CancelBillKeeps(s: State, b: nat)
    requires Inv(s) && CancelBill(s, b).Commit?
    ensures Inv(CancelBill(s, b).state)
  {
    CancelBillRefs(s, b);
    CancelBillPhases(s, b);
    CancelBillLedger(s, b);
    LinksKept(s, CancelBill(s, b).state);
  }

  // ---- CancelOrder ----

  lemma CancelOrderRefs(s: State, o: nat)
    requires Refs(s) && CancelOrder(s, o).Commit?
    ensures Refs(CancelOrder(s, o).state)
  {
    var list := ItemsOf(s.items, o);
    forall k | 0 <= k < |s.stocks| ensures Released(s.stocks, list)[k].quantity >= 0 {
      SumNonNegative(list, OfStock(k));
    }
  }

  lemma CancelOrderLive(s: State, o: nat)
    requires LivePhases(s, NONE) && CancelOrder(s, o).Commit?
    ensures LivePhases(CancelOrder(s, o).state, NONE)
  {
    var s' := CancelOrder(s, o).state;
    forall p | 0 <= p < |s'.orders| && p != o ensures SomeLive(s.items, p) ==> SomeLive(s'.items, p) {
      LiveKept(s.items, s'.items, p);
    }
  }

  lemma CancelOrderPhases(s: State, o: nat)
    requires Refs(s) && Phases(s, NONE) && CancelOrder(s, o).Commit? && Refs(CancelOrder(s, o).state)
    ensures Phases(CancelOrder(s, o).state, NONE)
  {
    CancelOrderLive(s, o);
  }

  lemma CanceledItemSums(items: seq<Item>, o: nat, p: nat)
    ensures var items' := BulkItems(items, o, PendingPayment, ItemCanceled);
      && Sum(items', FullPrice(p)) == Sum(items, FullPrice(p))
      && Sum(items', ReturnedPrice(p)) == Sum(items, ReturnedPrice(p))
      && (p != o ==> Sum(items', LivePrice(p)) == Sum(items, LivePrice(p)))
  {
    var items' := BulkItems(items, o, PendingPayment, ItemCanceled);
    SumPointwise(items', items, FullPrice(p), FullPrice(p));
    SumPointwise(items', items, ReturnedPrice(p), ReturnedPrice(p));
    if p != o {
      SumPointwise(items', items, LivePrice(p), LivePrice(p));
    }
  }

  lemma CanceledBillSums(bills: seq<Bill>, o: nat, p: nat)
    requires forall b :: 0 <= b < |bills| && bills[b].kind.Payment? ==> bills[b].amount >= 0
    ensures var bills' := CancelPending(bills, o);
      && Sum(bills', PaidAmount(p)) == Sum(bills, PaidAmount(p))
      && Sum(bills', RefundedAmount(p)) == Sum(bills, RefundedAmount(p))
      && Sum(bills', CommittedPayment(p)) <= Sum(bills, CommittedPayment(p))
  {
    var bills' := CancelPending(bills, o);
    forall b | 0 <= b < |bills|
      ensures bills'[b] == bills[b] || (bills[b].status.BillPending? && bills'[b] == bills[b].(status := BillCanceled))
    {
      assert bills'[b] == if PendingOf(o)(bills[b]) then bills[b].(status := BillCanceled) else bills[b];
    }
    SumPointwise(bills', bills, PaidAmount(p), PaidAmount(p));
    SumPointwise(bills', bills, RefundedAmount(p), RefundedAmount(p));
    SumSplit(bills', bills, CommittedPayment(p), CommittedPayment(p));
  }

  lemma CancelOrderMoneyOf(s: State, o: nat, p: nat)
    requires BillsOk(s) && CancelOrder(s, o).Commit? && p < |s.orders| && MoneyOk(s, p, NONE)
    ensures MoneyOk(CancelOrder(s, o).state, p, NONE)
  {
    CanceledItemSums(s.items, o, p);
    CanceledBillSums(s.bills, o, p);
  }

  lemma CancelOrderMoney(s: State, o: nat)
    requires BillsOk(s) && Money(s, NONE) && CancelOrder(s, o).Commit?
    ensures Money(CancelOrder(s, o).state, NONE)
  {
    forall p | 0 <= p < |s.orders| ensures MoneyOk(CancelOrder(s, o).state, p, NONE) {
      CancelOrderMoneyOf(s, o, p);
    }
  }

  lemma CancelOrderReturns(s: State, o: nat)
    requires Returns(s, NONE) && CancelOrder(s, o).Commit?
    ensures Returns(CancelOrder(s, o).state, NONE)
  {
    var s' := CancelOrder(s, o).state;
    forall p | 0 <= p < |s'.orders| ensures ReturnsOk(s', p, NONE) {
      assert ReturnsOk(s, p, NONE);
      SumPointwise(s'.items, s.items, ReturnedOne(p), ReturnedOne(p));
      if HasOpen(s.items, p) {
        var j :| 0 <= j < |s.items| && s.items[j].order == p && Open(s.items[j].status);
        assert s'.items[j] == s.items[j];
      }
    }
  }

  lemma CancelOrderKeeps(s: State, o: nat)
    requires Inv(s) && CancelOrder(s, o).Commit?
    ensures Inv(CancelOrder(s, o).state)
  {
    CancelOrderRefs(s, o);
    CancelOrderPhases(s, o);
    CancelOrderMoney(s, o);
    CancelOrderReturns(s, o);
    LinksKept(s, CancelOrder(s, o).state);
  }

  // ---- AddOrder ----

  lemma BuiltSums(s: State, added: seq<Item>, o: nat, p: nat)
    requires forall j :: 0 <= j < |added| ==> added[j].order == o && added[j].status.PendingPayment?
    ensures Sum(added, FullPrice(p)) == Sum(added, LivePrice(p)) == if p == o then Sum(added, Price()) else 0
    ensures Sum(added, ReturnedPrice(p)) == Sum(added, ReturnedOne(p)) == 0
  {
    SumZero(added, ReturnedPrice(p));
    SumZero(added, ReturnedOne(p));
    if p == o {
      SumPointwise(added, added, FullPrice(p), Price());
      SumPointwise(added, added, LivePrice(p), Price());
    } else {
      SumZero(added, FullPrice(p));
      SumZero(added, LivePrice(p));
    }
  }

  /** New pending seats for the order that is about to be stored. */
  ghost predicate NewSeats(s: State, added: seq<Item>) {
    forall j :: 0 <= j < |added| ==>
      && added[j].id == |s.items| + j && added[j].order == |s.orders| && added[j].status.PendingPayment?
      && added[j].stock < |s.stocks| && added[j].price >= 0
  }

  /** The database with one more unpaid order, its seats and its full bill. */
  ghost predicate Adds(s: State, s': State, added: seq<Item>) {
    var o, b, amount := |s.orders|, |s.bills|, Sum(added, Price());
    && NewSeats(s, added) && CanReserve(s.stocks, added)
    && s'.stocks == Reserved(s.stocks, added)
    && s'.items == s.items + added
    && |s'.orders| == o + 1 && s'.orders[..o] == s.orders
    && (var order := s'.orders[o];
        && order.status.Unpaid? && order.subtotal == order.total == order.originalTotal == amount
        && order.paid == order.returned == 0 && order.itemsCount == order.returnedItemsCount == 0)
    && s'.bills == s.bills + [Bill(b, o, None, amount, Payment, BillPending, true, None)]
    && s'.tickets == s.tickets
    && s'.outbox == s.outbox + [PaymentEvent(CreateAction, b)]
  }

  lemma AddOrderAdds(s: State, r: AddOrderRequest, now: int, serial: nat)
    requires StocksOk(s) && AddOrder(s, r, now, serial).Commit?
    ensures Build(s.stocks, r.details, now, |s.orders|, |s.items|).Some?
    ensures Adds(s, AddOrder(s, r, now, serial).state,
                 Build(s.stocks, r.details, now, |s.orders|, |s.items|).value.items)
  {
    BuildIsExact(s.stocks, r.details, now, |s.orders|, |s.items|);
  }

  lemma AddsRefs(s: State, s': State, added: seq<Item>)
    requires Refs(s) && Adds(s, s', added)
    ensures Refs(s')
  {
    SumNonNegative(added, Price());
    assert forall o :: 0 <= o < |s.orders| ==> s'.orders[o] == s.orders[o];
    forall k | 0 <= k < |s'.stocks| ensures s'.stocks[k].price >= 0 && s'.stocks[k].quantity >= 0 {
      assert s.stocks[k].quantity >= 0;
    }
  }

  lemma AddsPhases(s: State, s': State, added: seq<Item>)
    requires Refs(s) && Phases(s, NONE) && Adds(s, s', added) && Refs(s')
    ensures Phases(s', NONE)
  {
    var o := |s.orders|;
    assert forall p :: 0 <= p < o ==> s'.orders[p] == s.orders[p];
    forall p | 0 <= p < o && SomeLive(s.items, p) ensures SomeLive(s'.items, p) {
      var j :| 0 <= j < |s.items| && s.items[j].order == p && !s.items[j].status.ItemCanceled?;
      assert s'.items[j] == s.items[j];
    }
    if |added| == 0 {
      assert Empty(s'.items, o);
    } else {
      assert s'.items[|s.items|] == added[0];
      assert SomeLive(s'.items, o);
    }
  }

  lemma AddsMoney(s: State, s': State, added: seq<Item>, p: nat)
    requires ItemsOk(s) && BillsOk(s) && Money(s, NONE) && Adds(s, s', added) && p < |s'.orders|
    ensures MoneyOk(s', p, NONE)
  {
    if p < |s.orders| {
      assert MoneyOk(s, p, NONE);
      AddsMoneyElsewhere(s, s', added, p);
    } else {
      AddsMoneyHere(s, s', added);
    }
  }

  lemma AddsMoneyElsewhere(s: State, s': State, added: seq<Item>, p: nat)
    requires Adds(s, s', added) && p < |s.orders| && MoneyOk(s, p, NONE)
    ensures MoneyOk(s', p, NONE)
  {
    assert s'.orders[p] == s.orders[p];
    ItemsAdded(s.items, added, p);
    BuiltSums(s, added, |s.orders|, p);
    BillAdded(s.bills, s'.bills[|s.bills|], p);
  }

  lemma AddsMoneyHere(s: State, s': State, added: seq<Item>)
    requires ItemsOk(s) && BillsOk(s) && Adds(s, s', added)
    ensures MoneyOk(s', |s.orders|, NONE)
  {
    var o := |s.orders|;
    ItemsAdded(s.items, added, o);
    BuiltSums(s, added, o, o);
    BillAdded(s.bills, s'.bills[|s.bills|], o);
    NoItems(s.items, o);
    NoBills(s.bills, o);
  }

  lemma AddsReturns(s: State, s': State, added: seq<Item>, p: nat)
    requires ItemsOk(s) && Returns(s, NONE) && Adds(s, s', added) && p < |s'.orders|
    ensures ReturnsOk(s', p, NONE)
  {
    var o := |s.orders|;
    ItemsAdded(s.items, added, p);
    BuiltSums(s, added, o, p);
    if p < o {
      assert s'.orders[p] == s.orders[p];
      assert ReturnsOk(s, p, NONE);
      if HasOpen(s.items, p) {
        var j :| 0 <= j < |s.items| && s.items[j].order == p && Open(s.items[j].status);
        assert s'.items[j] == s.items[j];
      }
    } else {
      NoItems(s.items, o);
    }
  }

  lemma AddOrderKeeps(s: State, r: AddOrderRequest, now: int, serial: nat)
    requires Inv(s) && AddOrder(s, r, now, serial).Commit?
    ensures Inv(AddOrder(s, r, now, serial).state)
  {
    var s' := AddOrder(s, r, now, serial).state;
    var added := Build(s.stocks, r.details, now, |s.orders|, |s.items|).value.items;
    AddOrderAdds(s, r, now, serial);
    AddsRefs(s, s', added);
    AddsPhases(s, s', added);
    forall p | 0 <= p < |s'.orders| ensures MoneyOk(s', p, NONE) && ReturnsOk(s', p, NONE) {
      AddsMoney(s, s', added, p);
      AddsReturns(s, s', added, p);
    }
    LinksKept(s, s');
  }

  // ---- CreateRefundBill ----

  /** A requested return has never had a refund bill, so the duplicate guard never fires. */
  lemma RequestedHasNoRefund(s: State, i: nat)
    requires Refs(s) && RefundLinks(s) && i < |s.items| && s.items[i].status.ReturnRequested?
    ensures forall b :: 0 <= b < |s.bills| ==> s.bills[b].item != Some(i)
    ensures !HasRefund(s.bills, i)
  {
  }

  /** The unconditional status write changes nothing: the order of a requested return is in progress already. */
  lemma RefundOrdersUnchanged(s: State, i: nat, amount: int)
    requires Returns(s, NONE) && CreateRefundBill(s, i, amount).Commit?
    ensures CreateRefundBill(s, i, amount).state.orders == s.orders
  {
    var o := s.items[i].order;
    assert ReturnsOk(s, o, NONE);
    assert s.orders[o := s.orders[o]] == s.orders;
  }

  lemma CreateRefundBillMoney(s: State, i: nat, amount: int, p: nat)
    requires CreateRefundBill(s, i, amount).Commit? && p < |s.orders| && MoneyOk(s, p, NONE)
    requires CreateRefundBill(s, i, amount).state.orders == s.orders
    ensures MoneyOk(CreateRefundBill(s, i, amount).state, p, NONE)
  {
    var s' := CreateRefundBill(s, i, amount).state;
    ItemMoves(s.items, i, ReturnApproved, p);
    BillAdded(s.bills, s'.bills[|s.bills|], p);
  }

  lemma CreateRefundBillReturns(s: State, i: nat, amount: int, p: nat)
    requires CreateRefundBill(s, i, amount).Commit? && p < |s.orders| && ReturnsOk(s, p, NONE)
    requires CreateRefundBill(s, i, amount).state.orders == s.orders
    ensures ReturnsOk(CreateRefundBill(s, i, amount).state, p, NONE)
  {
    var s' := CreateRefundBill(s, i, amount).state;
    ItemMoves(s.items, i, ReturnApproved, p);
    if HasOpen(s.items, p) {
      var j :| 0 <= j < |s.items| && s.items[j].order == p && Open(s.items[j].status);
      assert s'.items[j].order == p && Open(s'.items[j].status);
    }
  }

  lemma CreateRefundBillLinks(s: State, i: nat, amount: int)
    requires Refs(s) && Links(s) && CreateRefundBill(s, i, amount).Commit? && Refs(CreateRefundBill(s, i, amount).state)
    ensures Links(CreateRefundBill(s, i, amount).state)
  {
    var s' := CreateRefundBill(s, i, amount).state;
    RequestedHasNoRefund(s, i);
    forall j | 0 <= j < |s'.items| && s'.items[j].status.ItemReturned? ensures exists b: nat :: RefundedBy(s', j, b) {
      var b: nat :| RefundedBy(s, j, b);
      assert RefundedBy(s', j, b);
    }
  }

  lemma CreateRefundBillRefs(s: State, i: nat, amount: int)
    requires Refs(s) && CreateRefundBill(s, i, amount).Commit?
    ensures Refs(CreateRefundBill(s, i, amount).state)
  {
  }

  lemma CreateRefundBillLive(s: State, i: nat, amount: int)
    requires LivePhases(s, NONE) && CreateRefundBill(s, i, amount).Commit?
    requires CreateRefundBill(s, i, amount).state.orders == s.orders
    ensures LivePhases(CreateRefundBill(s, i, amount).state, NONE)
  {
    var s' := CreateRefundBill(s, i, amount).state;
    forall p | 0 <= p < |s.orders| ensures SomeLive(s.items, p) ==> SomeLive(s'.items, p) {
      LiveKept(s.items, s'.items, p);
    }
  }

  lemma CreateRefundBillPhases(s: State, i: nat, amount: int)
    requires Refs(s) && Phases(s, NONE) && CreateRefundBill(s, i, amount).Commit?
    requires CreateRefundBill(s, i, amount).state.orders == s.orders
    requires Refs(CreateRefundBill(s, i, amount).state)
    ensures Phases(CreateRefundBill(s, i, amount).state, NONE)
  {
    CreateRefundBillLive(s, i, amount);
  }

  lemma CreateRefundBillKeeps(s: State, i: nat, amount: int)
    requires Inv(s) && CreateRefundBill(s, i, amount).Commit?
    ensures Inv(CreateRefundBill(s, i, amount).state)
  {
    var s' := CreateRefundBill(s, i, amount).state;
    RefundOrdersUnchanged(s, i, amount);
    CreateRefundBillRefs(s, i, amount);
    CreateRefundBillPhases(s, i, amount);
    forall p | 0 <= p < |s'.orders| ensures MoneyOk(s', p, NONE) && ReturnsOk(s', p, NONE) {
      CreateRefundBillMoney(s, i, amount, p);
      CreateRefundBillReturns(s, i, amount, p);
    }
    CreateRefundBillLinks(s, i, amount);
  }
}
