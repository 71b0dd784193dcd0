/** What every reachable database satisfies. */
module Invariants {
  import opened Options
  import opened Sums
  import opened Entities

  // Most predicates take an order x that is exempt from some clauses: the order a transaction is working on, between
  // its first write and the recalculation of its status. NONE exempts no order.

  const NONE: int := -1

  /** The order is past its payment: Paid, or any status reachable only from Paid. */
  predicate Reached(st: OrderStatus) {
    st.OrderPaid? || Late(st)
  }

  predicate Late(st: OrderStatus) {
    st.Completed? || st.ReturnInProgress? || st.PartiallyReturned? || st.OrderReturned?
  }

  /** The item statuses that occur in an order of the given status. */
  predicate Fits(item: ItemStatus, order: OrderStatus) {
    match order
    case Unpaid => item.PendingPayment? || item.ItemCanceled?
    case PartiallyPaid => item.PendingPayment? || item.ItemCanceled?
    case PendingRefund => item.PendingPayment? || item.ItemCanceled?
    case OrderPaid => item.ItemPaid? || item.ItemCanceled?
    case OrderCanceled => item.ItemCanceled?
    case _ => !item.PendingPayment?
  }

  // ---- references ----

  ghost predicate StocksOk(s: State) {
    forall k :: 0 <= k < |s.stocks| ==> s.stocks[k].price >= 0 && s.stocks[k].quantity >= 0
  }

  ghost predicate ItemsOk(s: State) {
    forall i :: 0 <= i < |s.items| ==>
      && s.items[i].id == i && s.items[i].order < |s.orders| && s.items[i].stock < |s.stocks| && s.items[i].price >= 0
  }

  ghost predicate BillOk(s: State, bill: Bill) {
    && bill.order < |s.orders|
    && (bill.kind.Payment? ==> bill.item.None? && bill.hasMethod && bill.amount >= 0 && !bill.status.BillRefunded?)
    && (bill.kind.Refund? ==> !bill.status.BillPaid? && (bill.hasMethod <==> bill.item.Some?))
    && (bill.status.BillPending? ==> bill.payment.None?)
    && (bill.item.Some? ==>
          && bill.item.value < |s.items| && s.items[bill.item.value].order == bill.order
          && bill.amount <= s.items[bill.item.value].price)
  }

  ghost predicate BillsOk(s: State) {
    forall b :: 0 <= b < |s.bills| ==> s.bills[b].id == b && BillOk(s, s.bills[b])
  }

  ghost predicate TicketsOk(s: State) {
    forall t :: 0 <= t < |s.tickets| ==> s.tickets[t].item < |s.items| && s.tickets[t].order.Serial?
  }

  ghost predicate Refs(s: State) {
    StocksOk(s) && ItemsOk(s) && BillsOk(s) && TicketsOk(s)
  }

  // ---- phases ----

  ghost predicate ItemPhases(s: State, x: int)
    requires ItemsOk(s)
  {
    forall i :: 0 <= i < |s.items| ==>
      || Fits(s.items[i].status, s.orders[s.items[i].order].status)
      || (s.items[i].order == x && s.orders[s.items[i].order].status.OrderPaid? && s.items[i].status.Fulfilled?)
  }

  /** Refund bills appear only where CreateBill no longer adds payment bills. */
  ghost predicate RefundPhases(s: State)
    requires BillsOk(s)
  {
    forall b :: 0 <= b < |s.bills| && s.bills[b].kind.Refund? ==>
      s.orders[s.bills[b].order].status.PendingRefund? || Late(s.orders[s.bills[b].order].status)
  }

  ghost predicate TicketPhases(s: State, x: int)
    requires ItemsOk(s) && TicketsOk(s)
  {
    forall t :: 0 <= t < |s.tickets| ==>
      var o := s.items[s.tickets[t].item].order;
      Late(s.orders[o].status) || (o == x && s.orders[o].status.OrderPaid?)
  }

  /** Exactly one generate-tickets message per order that got past its payment. */
  ghost predicate MessagePhases(s: State) {
    && (forall m :: 0 <= m < |s.outbox| && s.outbox[m].GenerateTickets? ==>
          s.outbox[m].order < |s.orders| && Reached(s.orders[s.outbox[m].order].status))
    && (forall m, m' :: 0 <= m < m' < |s.outbox| && s.outbox[m].GenerateTickets? ==> s.outbox[m] != s.outbox[m'])
    && (forall o :: 0 <= o < |s.orders| && Reached(s.orders[o].status) ==> GenerateTickets(o) in s.outbox)
  }

  ghost predicate SomeLive(items: seq<Item>, o: nat) {
    exists i :: 0 <= i < |items| && items[i].order == o && !items[i].status.ItemCanceled?
  }

  ghost predicate Empty(items: seq<Item>, o: nat) {
    forall i :: 0 <= i < |items| ==> items[i].order != o
  }

  /** An order that awaits payment, or is paid, has a live seat; only an empty order can be Unpaid without one. */
  ghost predicate LivePhases(s: State, x: int) {
    forall o :: 0 <= o < |s.orders| ==>
      && (s.orders[o].status.OrderPaid? ==> SomeLive(s.items, o))
      && (o != x && s.orders[o].status.PartiallyPaid? ==> SomeLive(s.items, o))
      && (o != x && s.orders[o].status.Unpaid? ==> Empty(s.items, o) || SomeLive(s.items, o))
  }

  // ---- money ----

  ghost predicate MoneyOk(s: State, o: nat, x: int)
    requires o < |s.orders|
  {
    var order := s.orders[o];
    && order.paid == Sum(s.bills, PaidAmount(o))
    && order.returned == Sum(s.bills, RefundedAmount(o))
    && Sum(s.bills, CommittedPayment(o)) <= order.originalTotal
    && order.originalTotal == Sum(s.items, FullPrice(o))
    && order.total == order.subtotal
    && (!order.status.OrderCanceled? ==> order.total == Sum(s.items, LivePrice(o)))
    && (Reached(order.status) ==> order.total <= order.paid)
    && (o != x && order.status.Unpaid? ==>
          order.paid < MINOR_PER_UNIT && (order.paid != order.total || order.originalTotal == 0))
    && (order.status.PartiallyPaid? ==> order.paid >= MINOR_PER_UNIT && (o != x ==> order.paid != order.total))
    && (order.status.PendingRefund? ==> order.total < order.paid)
    && order.returned <= Sum(s.items, ReturnedPrice(o))
    && (!Late(order.status) ==> order.returned == 0)
  }

  ghost predicate Money(s: State, x: int) {
    forall o :: 0 <= o < |s.orders| ==> MoneyOk(s, o, x)
  }

  // ---- returns ----

  ghost predicate ReturnsOk(s: State, o: nat, x: int)
    requires o < |s.orders|
  {
    var order := s.orders[o];
    && order.returnedItemsCount == Sum(s.items, ReturnedOne(o))
    && (o != x ==> (order.status.ReturnInProgress? <==> HasOpen(s.items, o)))
    && (order.status.PartiallyReturned? ==> order.returnedItemsCount < order.itemsCount)
  }

  ghost predicate Returns(s: State, x: int) {
    forall o :: 0 <= o < |s.orders| ==> ReturnsOk(s, o, x)
  }

  /** A bill that names an item tells the item's status, and no two bills name the same item. */
  ghost predicate RefundLinks(s: State)
    requires BillsOk(s)
  {
    && (forall b :: 0 <= b < |s.bills| && s.bills[b].item.Some? ==>
          s.items[s.bills[b].item.value].status
          == if s.bills[b].status.BillRefunded? then ItemReturned else ReturnApproved)
    && (forall b, b' :: 0 <= b < b' < |s.bills| && s.bills[b].item.Some? ==> s.bills[b].item != s.bills[b'].item)
  }

  ghost predicate RefundedBy(s: State, i: nat, b: nat) {
    b < |s.bills| && s.bills[b].item == Some(i) && s.bills[b].status.BillRefunded?
  }

  ghost predicate ReturnedLinks(s: State) {
    forall i :: 0 <= i < |s.items| && s.items[i].status.ItemReturned? ==> exists b: nat :: RefundedBy(s, i, b)
  }

  // ---- tickets ----

  ghost predicate OneTicketEach(s: State) {
    forall t, t' :: 0 <= t < t' < |s.tickets| ==> s.tickets[t].item != s.tickets[t'].item
  }

  /** A ticket is void exactly when its item was returned; item y may have been returned just now. */
  ghost predicate ReturnedVoided(s: State, y: int)
    requires TicketsOk(s)
  {
    forall t :: 0 <= t < |s.tickets| ==>
      var returned := s.items[s.tickets[t].item].status.ItemReturned?;
      && (s.tickets[t].status.Invalidated? ==> returned)
      && (returned && s.tickets[t].item != y ==> s.tickets[t].status.Invalidated?)
  }

  // ---- together ----

  ghost predicate Phases(s: State, x: int)
    requires Refs(s)
  {
    ItemPhases(s, x) && RefundPhases(s) && TicketPhases(s, x) && MessagePhases(s) && LivePhases(s, x)
  }

  ghost predicate Links(s: State)
    requires Refs(s)
  {
    RefundLinks(s) && ReturnedLinks(s) && OneTicketEach(s)
  }

  ghost predicate InvX(s: State, x: int) {
    Refs(s) && Phases(s, x) && Money(s, x) && Returns(s, x) && Links(s)
  }

  ghost predicate Inv(s: State) {
    InvX(s, NONE) && ReturnedVoided(s, NONE)
  }

  // ---- frames ----

  /** Nothing about refunds changed: no item left its refund, none became Returned, no new bill names an item. */
  ghost predicate LinksFrame(s: State, s': State) {
    && s'.tickets == s.tickets
    && |s.bills| <= |s'.bills| && |s.items| <= |s'.items|
    && (forall b :: 0 <= b < |s.bills| ==>
          s'.bills[b].item == s.bills[b].item && s'.bills[b].status.BillRefunded? == s.bills[b].status.BillRefunded?)
    && (forall b :: |s.bills| <= b < |s'.bills| ==> s'.bills[b].item.None?)
    && (forall i :: 0 <= i < |s.items| ==>
          || s'.items[i].status == s.items[i].status
          || (!s.items[i].status.ReturnApproved? && !s.items[i].status.ItemReturned?
              && !s'.items[i].status.ItemReturned?))
    && (forall i :: |s.items| <= i < |s'.items| ==> !s'.items[i].status.ItemReturned?)
  }

  lemma LinksKept(s: State, s': State)
    requires Refs(s) && Refs(s') && Links(s) && LinksFrame(s, s')
    ensures Links(s')
  {
    forall i | 0 <= i < |s'.items| && s'.items[i].status.ItemReturned? ensures exists b: nat :: RefundedBy(s', i, b) {
      var b: nat :| RefundedBy(s, i, b);
      assert RefundedBy(s', i, b);
    }
  }

  /** Only stocks, tickets or messages changed: money, returns and refunds stand; fewer exemptions imply more. */
  lemma LedgerKept(s: State, s': State, x: int, x': int)
    requires Money(s, x) && Returns(s, x) && ReturnedLinks(s) && (x == NONE || x == x')
    requires s'.orders == s.orders && s'.items == s.items && s'.bills == s.bills
    ensures Money(s', x') && Returns(s', x') && ReturnedLinks(s')
  {
    forall p | 0 <= p < |s'.orders| ensures MoneyOk(s', p, x') && ReturnsOk(s', p, x') {
      assert MoneyOk(s, p, x) && ReturnsOk(s, p, x);
    }
    forall j | 0 <= j < |s'.items| && s'.items[j].status.ItemReturned? ensures exists c: nat :: RefundedBy(s', j, c) {
      var c: nat :| RefundedBy(s, j, c);
      assert RefundedBy(s', j, c);
    }
  }

  /** New stocks and tickets only have to satisfy the clauses about stocks and tickets. */
  lemma TicketsReplaced(s: State, s': State, x: int, x': int)
    requires InvX(s, x) && (x == NONE || x == x')
    requires s'.orders == s.orders && s'.items == s.items && s'.bills == s.bills && s'.outbox == s.outbox
    requires StocksOk(s') && |s'.stocks| == |s.stocks| && TicketsOk(s') && OneTicketEach(s')
    requires ItemsOk(s') && TicketPhases(s', x')
    ensures InvX(s', x')
  {
    LedgerKept(s, s', x, x');
  }

  /** A live seat that stays live keeps its order alive. */
  lemma LiveKept(items: seq<Item>, items': seq<Item>, p: nat)
    requires |items| <= |items'|
    requires forall j :: 0 <= j < |items| && items[j].order == p && !items[j].status.ItemCanceled? ==>
      items'[j].order == p && !items'[j].status.ItemCanceled?
    ensures SomeLive(items, p) ==> SomeLive(items', p)
  {
    if SomeLive(items, p) {
      var j :| 0 <= j < |items| && items[j].order == p && !items[j].status.ItemCanceled?;
      assert items'[j].order == p && !items'[j].status.ItemCanceled?;
    }
  }
}
