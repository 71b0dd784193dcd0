/** The documents the service stores, the database as a value, and the queries over it. */
module Entities {
  import opened Options
  import opened Sums

  // internal/constants/order_status.go, bill.go, ticket.go
  datatype OrderStatus =
    | Unpaid | PartiallyPaid | PendingRefund | OrderPaid | OrderCanceled
    | Completed | ReturnInProgress | PartiallyReturned | OrderReturned
  datatype ItemStatus =
    | PendingPayment | ItemPaid | Fulfilled | ReturnRequested | ReturnApproved | ItemReturned | ItemCanceled
  datatype BillKind = Payment | Refund
  datatype BillStatus = BillPending | BillPaid | BillRefunded | BillFailed | BillCanceled
  datatype TicketStatus = Valid | Used | Invalidated | Expired
  datatype PaymentAction = CreateAction | CancelAction | RefundAction

  /** A ticket stock joined with its ticket type; prices are in minor units. */
  datatype Stock = Stock(event: nat, session: nat, price: int, minPerOrder: nat, maxPerOrder: nat,
                         saleStart: int, saleEnd: int, quantity: int)
  datatype Order = Order(event: nat, session: nat, serial: nat, subtotal: int, total: int, originalTotal: int,
                         status: OrderStatus, paid: int, returned: int, itemsCount: int, returnedItemsCount: int)
  /** One seat: the unrolled items all have quantity 1. */
  datatype Item = Item(id: nat, order: nat, stock: nat, session: nat, price: int, status: ItemStatus)
  datatype Bill = Bill(id: nat, order: nat, item: Option<nat>, amount: int, kind: BillKind, status: BillStatus,
                       hasMethod: bool, payment: Option<nat>)
  /** What a document's "order" field can hold: an object id, or the serial number a ticket stores. */
  datatype OrderKey = ObjectId(id: nat) | Serial(number: nat)
  datatype Ticket = Ticket(item: nat, order: OrderKey, stock: nat, status: TicketStatus,
                           validFrom: int, validUntil: int, usedAt: Option<int>)
  datatype Message = PaymentEvent(action: PaymentAction, bill: nat) | GenerateTickets(order: nat)

  /** The database: each collection is append-only, a document's id is its position. */
  datatype State = State(stocks: seq<Stock>, orders: seq<Order>, items: seq<Item>, bills: seq<Bill>,
                         tickets: seq<Ticket>, outbox: seq<Message>)

  /** A transaction commits a new database, or an error or a panic aborts it. */
  datatype Outcome = Commit(state: State) | Abort

  /** Decimal128ToInt64 cuts an amount down to whole units: "paid > 0" asks for at least one of them. */
  const MINOR_PER_UNIT: int := 100

  // ---- weights ----

  function FullPrice(o: nat): Item -> int {
    (i: Item) => if i.order == o then i.price else 0
  }

  function LivePrice(o: nat): Item -> int {
    (i: Item) => if i.order == o && !i.status.ItemCanceled? then i.price else 0
  }

  function ReturnedPrice(o: nat): Item -> int {
    (i: Item) => if i.order == o && i.status.ItemReturned? then i.price else 0
  }

  function ReturnedOne(o: nat): Item -> int {
    (i: Item) => if i.order == o && i.status.ItemReturned? then 1 else 0
  }

  function LiveOne(o: nat): Item -> int {
    (i: Item) => if i.order == o && !i.status.ItemCanceled? then 1 else 0
  }

  function FulfilledOne(o: nat): Item -> int {
    (i: Item) => if i.order == o && i.status.Fulfilled? then 1 else 0
  }

  function OfStock(k: nat): Item -> int {
    (i: Item) => if i.stock == k then 1 else 0
  }

  /** A seat is held while its item is neither canceled nor returned. */
  function Holds(k: nat): Item -> int {
    (i: Item) => if i.stock == k && !i.status.ItemCanceled? && !i.status.ItemReturned? then 1 else 0
  }

  function PaidAmount(o: nat): Bill -> int {
    (b: Bill) => if b.order == o && b.status.BillPaid? then b.amount else 0
  }

  function RefundedAmount(o: nat): Bill -> int {
    (b: Bill) => if b.order == o && b.status.BillRefunded? then b.amount else 0
  }

  /** Payment bills that are paid or may still be paid. */
  function CommittedPayment(o: nat): Bill -> int {
    (b: Bill) =>
      if b.order == o && b.kind.Payment? && (b.status.BillPaid? || b.status.BillPending?) then b.amount else 0
  }

  /** What CreateBill adds up: paid and pending bills of either kind. */
  function CommittedAny(o: nat): Bill -> int {
    (b: Bill) => if b.order == o && (b.status.BillPaid? || b.status.BillPending?) then b.amount else 0
  }

  // ---- queries ----

  function InOrder(o: nat): Item -> bool {
    (i: Item) => i.order == o
  }

  function PendingOf(o: nat): Bill -> bool {
    (b: Bill) => b.order == o && b.status.BillPending?
  }

  function KeyIs(key: OrderKey): Ticket -> int {
    (t: Ticket) => if t.order == key then 1 else 0
  }

  /** GetOrderItemsByOrderID */
  function ItemsOf(items: seq<Item>, o: nat): seq<Item> {
    Filter(items, InOrder(o))
  }

  predicate AllCanceled(items: seq<Item>, o: nat) {
    forall i :: 0 <= i < |items| && items[i].order == o ==> items[i].status.ItemCanceled?
  }

  predicate NonePending(items: seq<Item>, o: nat) {
    forall i :: 0 <= i < |items| && items[i].order == o ==> !items[i].status.PendingPayment?
  }

  predicate Open(st: ItemStatus) {
    st.ReturnRequested? || st.ReturnApproved?
  }

  /** Some return of the order is still in progress. */
  predicate HasOpen(items: seq<Item>, o: nat) {
    exists i :: 0 <= i < |items| && items[i].order == o && Open(items[i].status)
  }

  /** GetTicketByOrderItemID: the first ticket written for the item. */
  function FirstTicket(tickets: seq<Ticket>, i: nat): (t: Option<nat>)
    ensures t.Some? ==> t.value < |tickets| && tickets[t.value].item == i
    ensures t.None? ==> forall j :: 0 <= j < |tickets| ==> tickets[j].item != i
    ensures t.Some? ==> forall j :: 0 <= j < t.value ==> tickets[j].item != i
  {
    if |tickets| == 0 then None
    else
      var n := |tickets| - 1;
      match FirstTicket(tickets[..n], i)
      case Some(t) => Some(t)
      case None => if tickets[n].item == i then Some(n) else None
  }

  // ---- bulk updates ----

  /** UpdateItemsStatusByOrder: every item of the order in status `from` gets status `to`. */
  function BulkItems(items: seq<Item>, o: nat, from: ItemStatus, to: ItemStatus): seq<Item> {
    seq(|items|, i requires 0 <= i < |items| =>
      if items[i].order == o && items[i].status == from then items[i].(status := to) else items[i])
  }

  /** ReleaseTickets: each released item gives one seat back to its stock. */
  function Released(stocks: seq<Stock>, list: seq<Item>): seq<Stock> {
    seq(|stocks|, k requires 0 <= k < |stocks| =>
      stocks[k].(quantity := stocks[k].quantity + Sum(list, OfStock(k))))
  }

  /** ReserveTickets succeeds when every stock covers the whole demand of the list. */
  predicate CanReserve(stocks: seq<Stock>, list: seq<Item>) {
    && (forall j :: 0 <= j < |list| ==> list[j].stock < |stocks|)
    && (forall k :: 0 <= k < |stocks| ==> Sum(list, OfStock(k)) <= stocks[k].quantity || Sum(list, OfStock(k)) == 0)
  }

  function Reserved(stocks: seq<Stock>, list: seq<Item>): seq<Stock> {
    seq(|stocks|, k requires 0 <= k < |stocks| =>
      stocks[k].(quantity := stocks[k].quantity - Sum(list, OfStock(k))))
  }

  /** Cancels every pending bill of the order. */
  function CancelPending(bills: seq<Bill>, o: nat): seq<Bill> {
    seq(|bills|, b requires 0 <= b < |bills| =>
      if PendingOf(o)(bills[b]) then bills[b].(status := BillCanceled) else bills[b])
  }

  function CancelEvents(bills: seq<Bill>): seq<Message> {
    seq(|bills|, m requires 0 <= m < |bills| => PaymentEvent(CancelAction, bills[m].id))
  }
}
