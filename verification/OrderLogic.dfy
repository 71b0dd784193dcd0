/** The order operations, written step by step over the database as the program performs them. */
module OrderLogic {
  import opened Options
  import opened Sums
  import opened Entities
  import opened OrderBuilding
  import opened Lifecycle
  import Spec = Lifecycle
  import opened Updates
  import opened Repository

  /** What itemsByTicketID holds after the given details. */
  ghost predicate IsQuantities(quantities: map<nat, nat>, details: seq<Detail>) {
    forall k: nat ::
      (k in quantities <==> Requested(details, k)) && (k in quantities ==> quantities[k] == QuantityOf(details, k))
  }

  lemma QuantitiesGrow(quantities: map<nat, nat>, details: seq<Detail>, n: nat)
    requires n < |details| && IsQuantities(quantities, details[..n])
    ensures IsQuantities(quantities[details[n].stock := details[n].quantity], details[..n + 1])
  {
    var front, more := details[..n], details[..n + 1];
    assert more[..n] == front && more[n] == details[n];
    forall k: nat ensures Requested(more, k) <==> Requested(front, k) || k == details[n].stock {
      if Requested(front, k) {
        var d :| 0 <= d < n && front[d].stock == k;
        assert more[d].stock == k;
      }
    }
  }

  lemma UnitsGrow(stock: Stock, k: nat, u: nat, order: nat, firstId: nat)
    ensures Units(stock, k, u + 1, order, firstId)
         == Units(stock, k, u, order, firstId)
            + [Item(firstId + u, order, k, stock.session, stock.price, PendingPayment)]
  {
  }

  class OrderLogic {
    const db: Database

    constructor (db: Database)
      ensures this.db == db
    {
      this.db := db;
    }

    /** The requested ids, and the quantity for each: a repeated id keeps its last quantity. */
    method IndexDetails(details: seq<Detail>) returns (ids: seq<nat>, quantities: map<nat, nat>)
      ensures |ids| == |details| && IsQuantities(quantities, details)
      ensures forall k: nat {:trigger Requested(details, k)} :: k in ids <==> Requested(details, k)
    {
      ids, quantities := [], map[];
      for n := 0 to |details|
        invariant |ids| == n && forall d :: 0 <= d < n ==> ids[d] == details[d].stock
        invariant IsQuantities(quantities, details[..n])
      {
        QuantitiesGrow(quantities, details, n);
        ids := ids + [details[n].stock];
        quantities := quantities[details[n].stock := details[n].quantity];
      }
      assert details[..|details|] == details;
    }

    method ValidateAndBuildOrderItems(details: seq<Detail>, now: int, order: nat, firstId: nat)
      returns (r: Option<Built>)
      ensures r == Build(db.stocks, details, now, order, firstId)
    {
      if |details| == 0 {
        return None;
      }
      var ids, quantities := IndexDetails(details);
      var lines := db.GetValidTicketsByIDs(ids, now, details);
      if |lines| != |ids| {
        return None;
      }
      var event, session := db.stocks[lines[0]].event, db.stocks[lines[0]].session;
      for n := 1 to |lines|
        invariant forall j :: 0 <= j < n ==>
                    db.stocks[lines[j]].event == event && db.stocks[lines[j]].session == session
      {
        if db.stocks[lines[n]].event != event || db.stocks[lines[n]].session != session {
          return None;
        }
      }
      var lineItems, subtotal, ok := BuildLines(details, lines, quantities, order, firstId);
      if !ok {
        return None;
      }
      return Some(Built(lineItems, subtotal, event, session));
    }

    /** The nested loops: check each fetched stock, add up its price, and unroll its quantity into seats. */
    method BuildLines(details: seq<Detail>, lines: seq<nat>, quantities: map<nat, nat>, order: nat, firstId: nat)
      returns (built: seq<Item>, subtotal: int, ok: bool)
      requires IsQuantities(quantities, details)
      requires forall j :: 0 <= j < |lines| ==> lines[j] < |db.stocks| && lines[j] in quantities
      ensures ok <==> forall j :: 0 <= j < |lines| ==> LineOk(db.stocks[lines[j]], QuantityOf(details, lines[j]))
      ensures ok ==> built == Unrolled(db.stocks, lines, details, order, firstId)
      ensures ok ==> subtotal == Subtotal(db.stocks, lines, details)
    {
      built, subtotal := [], 0;
      for n := 0 to |lines|
        invariant built == Unrolled(db.stocks, lines[..n], details, order, firstId)
        invariant subtotal == Subtotal(db.stocks, lines[..n], details)
        invariant forall j :: 0 <= j < n ==> LineOk(db.stocks[lines[j]], QuantityOf(details, lines[j]))
      {
        assert lines[..n + 1][..n] == lines[..n];
        var stock, quantity := db.stocks[lines[n]], quantities[lines[n]];
        assert quantity == QuantityOf(details, lines[n]);
        if stock.quantity < quantity || stock.maxPerOrder < quantity || stock.minPerOrder > quantity {
          assert !LineOk(db.stocks[lines[n]], QuantityOf(details, lines[n]));
          return built, subtotal, false;
        }
        subtotal := subtotal + stock.price * quantity;
        var units := UnrollLine(stock, lines[n], quantity, order, firstId + |built|);
        built := built + units;
      }
      assert lines[..|lines|] == lines;
      ok := true;
    }

    method UnrollLine(stock: Stock, k: nat, quantity: nat, order: nat, firstId: nat) returns (units: seq<Item>)
      ensures units == Units(stock, k, quantity, order, firstId)
    {
      units := [];
      for u := 0 to quantity
        invariant units == Units(stock, k, u, order, firstId)
      {
        UnitsGrow(stock, k, u, order, firstId);
        units := units + [Item(firstId + u, order, k, stock.session, stock.price, PendingPayment)];
      }
    }

    method AddOrder(r: AddOrderRequest, now: int, serial: nat) returns (ok: bool)
      modifies db
      ensures ok <==> Spec.AddOrder(old(db.View()), r, now, serial).Commit?
      ensures ok ==> db.View() == Spec.AddOrder(old(db.View()), r, now, serial).state
    {
      var o, b := |db.orders|, |db.bills|;
      var result := ValidateAndBuildOrderItems(r.details, now, o, |db.items|);
      if result.None? {
        return false;
      }
      var Built(items, subtotal, event, session) := result.value;
      if event != r.event || r.subtotal != subtotal || r.total != subtotal {
        return false;
      }
      db.CreateOrder(Order(event, session, serial, subtotal, subtotal, subtotal, Unpaid, 0, 0, 0, 0));
      db.CreateOrderItems(items);
      ok := db.ReserveTickets(items);
      if !ok {
        return false;
      }
      var bill := Bill(b, o, None, subtotal, Payment, BillPending, true, None);
      db.CreateBill(bill);
      ok := db.PublishPaymentEvent(CreateAction, bill);
    }

    // ---- status ----

    method UpdateOrderToPaidWithAudit(o: nat, hasPublisher: bool) returns (ok: bool)
      requires o < |db.orders|
      modifies db
      ensures ok <==> ToPaid(old(db.View()), o, hasPublisher).Commit?
      ensures ok ==> db.View() == ToPaid(old(db.View()), o, hasPublisher).state
    {
      StatusUpdates(db.orders[o], NoBill(), OrderPaid, BillPaid, 0);
      ok := db.UpdateOrder(o, [WithStatus(OrderPaid)]);
      db.UpdateItemsStatusByOrder(o, PendingPayment, ItemPaid);
      if !hasPublisher {
        return false;
      }
      db.PublishTicketGenerationTask(o);
    }

    /** UpdateOrder with nothing but a status. */
    method WriteStatus(o: nat, status: OrderStatus)
      requires o < |db.orders|
      modifies db
      ensures db.View() == SetStatus(old(db.View()), o, status)
    {
      StatusUpdates(db.orders[o], NoBill(), status, BillPaid, 0);
      var ok := db.UpdateOrder(o, [WithStatus(status)]);
    }

    /** The scan for returns that are requested or approved. */
    method AnyReturnOpen(o: nat) returns (open: bool)
      ensures open == HasOpen(db.items, o)
    {
      for n := 0 to |db.items|
        invariant forall i :: 0 <= i < n && db.items[i].order == o ==> !Open(db.items[i].status)
      {
        if db.items[n].order == o && (db.items[n].status.ReturnApproved? || db.items[n].status.ReturnRequested?) {
          return true;
        }
      }
      return false;
    }

    method AllItemsCanceled(o: nat) returns (all: bool)
      ensures all == AllCanceled(db.items, o)
    {
      for n := 0 to |db.items|
        invariant forall i :: 0 <= i < n && db.items[i].order == o ==> db.items[i].status.ItemCanceled?
      {
        if db.items[n].order == o && !db.items[n].status.ItemCanceled? {
          return false;
        }
      }
      return true;
    }

    /** The scan of a Paid order: is any item unpaid, and how many are fulfilled. */
    method CountFulfilled(o: nat) returns (nonePending: bool, fulfilled: int)
      ensures nonePending == NonePending(db.items, o) && fulfilled == Sum(db.items, FulfilledOne(o))
    {
      nonePending, fulfilled := true, 0;
      for n := 0 to |db.items|
        invariant nonePending <==>
                  forall i :: 0 <= i < n && db.items[i].order == o ==> !db.items[i].status.PendingPayment?
        invariant fulfilled == Sum(db.items[..n], FulfilledOne(o))
      {
        assert db.items[..n + 1][..n] == db.items[..n];
        if db.items[n].order == o {
          if db.items[n].status.PendingPayment? {
            nonePending := false;
          }
          if db.items[n].status.Fulfilled? {
            fulfilled := fulfilled + 1;
          }
        }
      }
      assert db.items[..|db.items|] == db.items;
    }

    method RecalculateOrderStatus(o: nat, hasPublisher: bool) returns (ok: bool)
      modifies db
      ensures ok <==> o < |old(db.orders)| && Recalculate(old(db.View()), o, hasPublisher).Commit?
      ensures ok ==> db.View() == Recalculate(old(db.View()), o, hasPublisher).state
    {
      if o >= |db.orders| {
        return false;
      }
      var order := db.orders[o];
      ok := true;
      match order.status
      case Unpaid =>
        var allCanceled := AllItemsCanceled(o);
        if allCanceled {
          WriteStatus(o, OrderCanceled);
        } else if order.total == order.paid {
          ok := UpdateOrderToPaidWithAudit(o, hasPublisher);
        } else if order.paid / MINOR_PER_UNIT > 0 {
          WriteStatus(o, PartiallyPaid);
        }
      case PartiallyPaid =>
        if order.total == order.paid {
          ok := UpdateOrderToPaidWithAudit(o, hasPublisher);
        } else if order.total < order.paid {
          WriteStatus(o, PendingRefund);
          db.CreateBill(RefundOf(|db.bills|, o, None, order.paid - order.total, false));
        } else if order.returned == order.paid {
          WriteStatus(o, OrderCanceled);
        }
      case PendingRefund =>
        if order.paid - order.returned == order.total {
          ok := UpdateOrderToPaidWithAudit(o, hasPublisher);
        }
      case OrderPaid =>
        var nonePending, fulfilled := CountFulfilled(o);
        if nonePending {
          StatusUpdates(order, NoBill(), Completed, BillPaid, fulfilled);
          ok := db.UpdateOrder(o, [WithStatus(Completed), WithItemsCount(fulfilled)]);
        }
      case Completed =>
        var open := AnyReturnOpen(o);
        if open {
          WriteStatus(o, ReturnInProgress);
        }
      case ReturnInProgress =>
        var open := AnyReturnOpen(o);
        if !open {
          if order.returnedItemsCount == 0 {
            WriteStatus(o, Completed);
          } else if order.itemsCount == order.returnedItemsCount {
            WriteStatus(o, OrderReturned);
          } else if order.itemsCount > order.returnedItemsCount {
            WriteStatus(o, PartiallyReturned);
          } else {
            ok := false;
          }
        }
      case PartiallyReturned =>
        var open := AnyReturnOpen(o);
        if open {
          WriteStatus(o, ReturnInProgress);
        }
        if order.returnedItemsCount == order.itemsCount {
          WriteStatus(o, OrderReturned);
        }
      case OrderCanceled => ok := false;
      case OrderReturned => ok := false;
    }

    /** _updateOrderItemStatus */
    method UpdateOrderItemStatus(i: nat, o: nat, to: ItemStatus) returns (ok: bool)
      modifies db
      ensures ok <==> ChangeItem(old(db.View()), i, o, to).Commit?
      ensures ok ==> db.View() == ChangeItem(old(db.View()), i, o, to).state
    {
      if i >= |db.items| || db.items[i].order >= |db.orders| || db.items[i].order != o {
        return false;
      }
      var item := db.items[i];
      if !CanChange(item.status, to) {
        return false;
      }
      ChangeStatusWithEffect(i, o, to);
      ok := RecalculateOrderStatus(o, false);
    }

    /** The new status with the release and the reduced total, or with the bill of an approved return. */
    method ChangeStatusWithEffect(i: nat, o: nat, to: ItemStatus)
      requires i < |db.items| && o < |db.orders|
      modifies db
      ensures db.View() == ItemEffect(old(db.View()), i, o, to)
    {
      var item := db.items[i];
      var ok := db.UpdateOrderItemStatus(i, to);
      if to.ItemCanceled? {
        ReleaseAndReduce(item, o);
      }
      if to.ReturnApproved? {
        db.CreateBill(RefundOf(|db.bills|, o, None, item.price, false));
      }
    }

    method ReleaseAndReduce(item: Item, o: nat)
      requires o < |db.orders|
      modifies db
      ensures db.View() == old(db.View()).(
                stocks := Released(old(db.stocks), [item]),
                orders := old(db.orders)[o := old(db.orders)[o].(total := old(db.orders)[o].total - item.price,
                                                                 subtotal := old(db.orders)[o].subtotal - item.price)])
    {
      db.ReleaseTickets([item]);
      MoneyUpdates(db.orders[o], item.price);
      var ok := db.UpdateOrder(o, [WithIncTotal(-item.price), WithIncSubtotal(-item.price)]);
    }

    method MarkOrderItemsAsFulfilled(o: nat) returns (ok: bool)
      modifies db
      ensures ok <==> MarkFulfilled(old(db.View()), o).Commit?
      ensures ok ==> db.View() == MarkFulfilled(old(db.View()), o).state
    {
      db.UpdateItemsStatusByOrder(o, ItemPaid, Fulfilled);
      ok := RecalculateOrderStatus(o, false);
    }

    // ---- refunds ----

    /** The loop over the item's refund bills. */
    method AlreadyRefunded(i: nat) returns (found: bool)
      ensures found == HasRefund(db.bills, i)
    {
      var refunds := db.GetRefundsByOrderItemID(i);
      FilterMembers(db.bills, RefundBillOf(i));
      for n := 0 to |refunds|
        invariant forall j :: 0 <= j < n ==> !refunds[j].status.BillPending? && !refunds[j].status.BillRefunded?
      {
        if refunds[n].status.BillPending? || refunds[n].status.BillRefunded? {
          assert refunds[n] in refunds;
          return true;
        }
      }
      assert forall b :: 0 <= b < |db.bills| && RefundBillOf(i)(db.bills[b]) ==> db.bills[b] in refunds;
      return false;
    }

    method CreateRefundBill(i: nat, amount: int) returns (ok: bool)
      modifies db
      ensures ok <==> Spec.CreateRefundBill(old(db.View()), i, amount).Commit?
      ensures ok ==> db.View() == Spec.CreateRefundBill(old(db.View()), i, amount).state
    {
      if i >= |db.items| || db.items[i].order >= |db.orders| {
        return false;
      }
      var item, o := db.items[i], db.items[i].order;
      if !item.status.ReturnRequested? {
        return false;
      }
      var refunded := AlreadyRefunded(i);
      if refunded || amount > item.price {
        return false;
      }
      var bill := RefundOf(|db.bills|, o, Some(i), amount, true);
      db.CreateBill(bill);
      ok := db.PublishPaymentEvent(RefundAction, bill);
      ok := db.UpdateOrderItemStatus(i, ReturnApproved);
      WriteStatus(o, ReturnInProgress);
    }

    // ---- cancellation ----

    method CancelOrder(o: nat) returns (ok: bool)
      requires BillIds(db.bills)
      modifies db
      ensures ok <==> Spec.CancelOrder(old(db.View()), o).Commit?
      ensures ok ==> db.View() == Spec.CancelOrder(old(db.View()), o).state
    {
      if o >= |db.orders| || !db.orders[o].status.Unpaid? {
        return false;
      }
      ok := VoidUnpaidOrder(o);
    }

    method VoidUnpaidOrder(o: nat) returns (ok: bool)
      requires BillIds(db.bills) && o < |db.orders| && db.orders[o].status.Unpaid?
      modifies db
      ensures ok <==> Spec.CancelOrder(old(db.View()), o).Commit?
      ensures ok ==> db.View() == Spec.CancelOrder(old(db.View()), o).state
    {
      var items := db.GetOrderItemsByOrderID(o);
      ok := CancelPendingBills(o);
      if !ok {
        return false;
      }
      db.UpdateItemsStatusByOrder(o, PendingPayment, ItemCanceled);
      if |items| > 0 {
        db.ReleaseTickets(items);
      } else {
        assert Released(db.stocks, items) == db.stocks;
      }
      WriteStatus(o, OrderCanceled);
    }

    method CancelAndNotify(bill: Bill) returns (ok: bool)
      requires bill.id < |db.bills|
      modifies db
      ensures ok <==> bill.hasMethod
      ensures ok ==> db.View() == old(db.View()).(
                       bills := old(db.bills)[bill.id := old(db.bills)[bill.id].(status := BillCanceled)],
                       outbox := old(db.outbox) + [PaymentEvent(CancelAction, bill.id)])
    {
      StatusUpdates(NoOrder(), db.bills[bill.id], OrderPaid, BillCanceled, 0);
      ok := db.UpdateBill(bill.id, [WithBillStatus(BillCanceled)]);
      ok := db.PublishPaymentEvent(CancelAction, bill);
    }

    method CancelPendingBills(o: nat) returns (ok: bool)
      requires BillIds(db.bills)
      modifies db
      ensures ok <==> CanPublishAll(Filter(old(db.bills), PendingOf(o)))
      ensures ok ==> db.View() == old(db.View()).(
                       bills := CancelPending(old(db.bills), o),
                       outbox := old(db.outbox) + CancelEvents(Filter(old(db.bills), PendingOf(o))))
    {
      var list := db.GetBillsByOrderID(o);
      ghost var before := db.View();
      PendingOfOrder(before.bills, o);
      NothingVoided(before);
      for n := 0 to |list|
        invariant db.View() == Voided(before, list[..n])
        invariant CanPublishAll(Filter(list[..n], IsPendingBill()))
      {
        OneMoreBill(before, list, n);
        if list[n].status.BillPending? {
          ok := CancelAndNotify(list[n]);
          if !ok {
            MustPublish(list, n);
            return false;
          }
        }
      }
      assert list[..|list|] == list;
      ok := true;
    }
  }

  // ---- the bills of a voided order ----

  ghost predicate BillIds(bills: seq<Bill>) {
    forall b :: 0 <= b < |bills| ==> bills[b].id == b
  }

  function IsPendingBill(): Bill -> bool {
    (b: Bill) => b.status.BillPending?
  }

  /** The collection after the pending ones among `list` were canceled. */
  ghost function CanceledAmong(bills: seq<Bill>, list: seq<Bill>): seq<Bill> {
    seq(|bills|, b requires 0 <= b < |bills| =>
      if bills[b].status.BillPending? && bills[b] in list then bills[b].(status := BillCanceled) else bills[b])
  }

  lemma {:induction false} FilterTwice(bills: seq<Bill>, o: nat)
    ensures Filter(Filter(bills, BillOf(o)), IsPendingBill()) == Filter(bills, PendingOf(o))
  {
    if |bills| != 0 {
      var n := |bills| - 1;
      FilterTwice(bills[..n], o);
      if bills[n].order == o {
        FilterAppend(Filter(bills[..n], BillOf(o)), bills[n], IsPendingBill());
      }
    }
  }

  lemma PendingOfOrder(bills: seq<Bill>, o: nat)
    requires BillIds(bills)
    ensures var list := Filter(bills, BillOf(o));
      && Filter(list, IsPendingBill()) == Filter(bills, PendingOf(o))
      && CanceledAmong(bills, list) == CancelPending(bills, o)
      && forall n :: 0 <= n < |list| ==> list[n].id < |bills| && bills[list[n].id] == list[n]
  {
    var list := Filter(bills, BillOf(o));
    FilterTwice(bills, o);
    FilterMembers(bills, BillOf(o));
    forall n | 0 <= n < |list| ensures list[n].id < |bills| && bills[list[n].id] == list[n] {
      assert list[n] in list && list[n] in bills;
    }
  }

  /** The database after the pending ones among `list` were canceled and their payments called off. */
  ghost function Voided(s: State, list: seq<Bill>): State {
    s.(bills := CanceledAmong(s.bills, list), outbox := s.outbox + CancelEvents(Filter(list, IsPendingBill())))
  }

  lemma NothingVoided(s: State)
    ensures Voided(s, []) == s
  {
    assert CanceledAmong(s.bills, []) == s.bills;
    assert s.outbox + CancelEvents([]) == s.outbox;
  }

  lemma OneMoreBill(s: State, list: seq<Bill>, n: nat)
    requires n < |list| && BillIds(s.bills) && list[n].id < |s.bills| && s.bills[list[n].id] == list[n]
    ensures var was, b := Voided(s, list[..n]), list[n].id;
      Voided(s, list[..n + 1])
      == if list[n].status.BillPending?
         then was.(bills := was.bills[b := was.bills[b].(status := BillCanceled)],
                   outbox := was.outbox + [PaymentEvent(CancelAction, b)])
         else was
    ensures var pending := Filter(list[..n], IsPendingBill());
      Filter(list[..n + 1], IsPendingBill()) == if list[n].status.BillPending? then pending + [list[n]] else pending
  {
    assert list[..n + 1] == list[..n] + [list[n]];
    FilterAppend(list[..n], list[n], IsPendingBill());
    var pending := Filter(list[..n], IsPendingBill());
    assert CancelEvents(pending + [list[n]]) == CancelEvents(pending) + [PaymentEvent(CancelAction, list[n].id)];
  }

  /** One pending bill without a payment method makes the whole cancellation fail. */
  lemma MustPublish(list: seq<Bill>, n: nat)
    requires n < |list| && list[n].status.BillPending? && !list[n].hasMethod
    ensures !CanPublishAll(Filter(list, IsPendingBill()))
  {
    FilterMembers(list, IsPendingBill());
    assert list[n] in list && list[n] in Filter(list, IsPendingBill());
  }

  // ---- documents to instantiate the lemmas about updates with ----

  function NoBill(): Bill {
    Bill(0, 0, None, 0, Payment, BillPending, false, None)
  }

  function NoOrder(): Order {
    Order(0, 0, 0, 0, 0, 0, Unpaid, 0, 0, 0, 0)
  }
}
