/** The order lifecycle: what each call or message handler commits, or that it aborts. */
module Lifecycle {
  import opened Options
  import opened Sums
  import opened Entities
  import opened OrderBuilding

  // ---- status machines ----

  /** canUpdateOrderItemStatus */
  predicate CanChange(from: ItemStatus, to: ItemStatus) {
    match to
    case ItemCanceled => from.PendingPayment?
    case ReturnRequested => from.Fulfilled?
    case ReturnApproved => from.ReturnRequested?
    case ItemReturned => from.ReturnApproved?
    case Fulfilled => from.ReturnRequested? || from.ItemPaid?
    case _ => true
  }

  function SetStatus(s: State, o: nat, status: OrderStatus): State
    requires o < |s.orders|
  {
    s.(orders := s.orders[o := s.orders[o].(status := status)])
  }

  /** updateOrderToPaidWithAudit: publishing through a nil ticket publisher panics. */
  function ToPaid(s: State, o: nat, hasPublisher: bool): Outcome
    requires o < |s.orders|
  {
    if !hasPublisher then Abort
    else Commit(SetStatus(s, o, OrderPaid).(
                items := BulkItems(s.items, o, PendingPayment, ItemPaid),
                outbox := s.outbox + [GenerateTickets(o)]))
  }

  function RefundOf(id: nat, o: nat, item: Option<nat>, amount: int, hasMethod: bool): Bill {
    Bill(id, o, item, amount, Refund, BillPending, hasMethod, None)
  }

  function ToPendingRefund(s: State, o: nat): State
    requires o < |s.orders|
  {
    SetStatus(s, o, PendingRefund).(
      bills := s.bills + [RefundOf(|s.bills|, o, None, s.orders[o].paid - s.orders[o].total, false)])
  }

  function ToCompleted(s: State, o: nat): State
    requires o < |s.orders|
  {
    s.(orders := s.orders[o := s.orders[o].(status := Completed, itemsCount := Sum(s.items, FulfilledOne(o)))])
  }

  /** The end of a return: by the counters, or an error when they contradict each other. */
  function CloseReturn(s: State, o: nat): Outcome
    requires o < |s.orders|
  {
    var order := s.orders[o];
    if order.returnedItemsCount == 0 then Commit(SetStatus(s, o, Completed))
    else if order.itemsCount == order.returnedItemsCount then Commit(SetStatus(s, o, OrderReturned))
    else if order.itemsCount > order.returnedItemsCount then Commit(SetStatus(s, o, PartiallyReturned))
    else Abort
  }

  /** recalculateOrderStatus */
  function Recalculate(s: State, o: nat, hasPublisher: bool): Outcome
    requires o < |s.orders|
  {
    var order := s.orders[o];
    match order.status
    case Unpaid =>
      if AllCanceled(s.items, o) then Commit(SetStatus(s, o, OrderCanceled))
      else if order.total == order.paid then ToPaid(s, o, hasPublisher)
      else if order.paid >= MINOR_PER_UNIT then Commit(SetStatus(s, o, PartiallyPaid))
      else Commit(s)
    case PartiallyPaid =>
      if order.total == order.paid then ToPaid(s, o, hasPublisher)
      else if order.total < order.paid then Commit(ToPendingRefund(s, o))
      else if order.returned == order.paid then Commit(SetStatus(s, o, OrderCanceled))
      else Commit(s)
    case PendingRefund =>
      if order.paid - order.returned == order.total then ToPaid(s, o, hasPublisher) else Commit(s)
    case OrderPaid =>
      if NonePending(s.items, o) then Commit(ToCompleted(s, o)) else Commit(s)
    case Completed =>
      if HasOpen(s.items, o) then Commit(SetStatus(s, o, ReturnInProgress)) else Commit(s)
    case ReturnInProgress =>
      if HasOpen(s.items, o) then Commit(s) else CloseReturn(s, o)
    case PartiallyReturned =>
      var s1 := if HasOpen(s.items, o) then SetStatus(s, o, ReturnInProgress) else s;
      if order.returnedItemsCount == order.itemsCount then Commit(SetStatus(s1, o, OrderReturned)) else Commit(s1)
    case OrderCanceled => Abort
    case OrderReturned => Abort
  }

  // ---- item status changes ----

  function SetItem(s: State, i: nat, status: ItemStatus): State
    requires i < |s.items|
  {
    s.(items := s.items[i := s.items[i].(status := status)])
  }

  /** What an item's new status does besides the status itself. */
  function ItemEffect(s: State, i: nat, o: nat, to: ItemStatus): State
    requires i < |s.items| && o < |s.orders|
  {
    var item, order := s.items[i], s.orders[o];
    match to
    case ItemCanceled =>
      SetItem(s, i, to).(
        stocks := Released(s.stocks, [item]),
        orders := s.orders[o := order.(total := order.total - item.price, subtotal := order.subtotal - item.price)])
    case ReturnApproved =>
      SetItem(s, i, to).(bills := s.bills + [RefundOf(|s.bills|, o, None, item.price, false)])
    case _ => SetItem(s, i, to)
  }

  /** _updateOrderItemStatus */
  function ChangeItem(s: State, i: nat, o: nat, to: ItemStatus): Outcome {
    if i >= |s.items| || s.items[i].order != o || o >= |s.orders| || !CanChange(s.items[i].status, to) then Abort
    else Recalculate(ItemEffect(s, i, o, to), o, false)
  }

  // ---- orders ----

  /** AddOrder */
  function AddOrder(s: State, r: AddOrderRequest, now: int, serial: nat): Outcome {
    var o, b := |s.orders|, |s.bills|;
    match Build(s.stocks, r.details, now, o, |s.items|)
    case None => Abort
    case Some(built) =>
      if built.event != r.event || r.subtotal != built.subtotal || r.total != built.subtotal then Abort
      else if !CanReserve(s.stocks, built.items) then Abort
      else
        Commit(s.(
               stocks := Reserved(s.stocks, built.items),
               orders := s.orders + [Order(built.event, built.session, serial, built.subtotal, built.subtotal,
                                           built.subtotal, Unpaid, 0, 0, 0, 0)],
               items := s.items + built.items,
               bills := s.bills + [Bill(b, o, None, built.subtotal, Payment, BillPending, true, None)],
               outbox := s.outbox + [PaymentEvent(CreateAction, b)]))
  }

  /** Publishing a payment event reads the bill's payment method: without one it panics. */
  predicate CanPublishAll(bills: seq<Bill>) {
    forall b :: 0 <= b < |bills| ==> bills[b].hasMethod
  }

  /** CancelOrder, voidUnpaidOrder: all the order's items are released, canceled or not. */
  function CancelOrder(s: State, o: nat): Outcome {
    if o >= |s.orders| || !s.orders[o].status.Unpaid? then Abort
    else
      var pending := Filter(s.bills, PendingOf(o));
      if !CanPublishAll(pending) then Abort
      else Commit(SetStatus(s, o, OrderCanceled).(
                  bills := CancelPending(s.bills, o),
                  outbox := s.outbox + CancelEvents(pending),
                  items := BulkItems(s.items, o, PendingPayment, ItemCanceled),
                  stocks := Released(s.stocks, ItemsOf(s.items, o))))
  }

  // ---- bills ----

  /** CreateBill */
  function CreateBill(s: State, o: nat, amount: int): Outcome {
    if o >= |s.orders| then Abort
    else if !s.orders[o].status.Unpaid? && !s.orders[o].status.PartiallyPaid? then Abort
    else if amount > s.orders[o].total - Sum(s.bills, CommittedAny(o)) then Abort
    else
      var b := |s.bills|;
      Commit(s.(bills := s.bills + [Bill(b, o, None, amount, Payment, BillPending, true, None)],
                outbox := s.outbox + [PaymentEvent(CreateAction, b)]))
  }

  /** CancelBill */
  function CancelBill(s: State, b: nat): Outcome {
    if b >= |s.bills| || !s.bills[b].status.BillPending? || s.bills[b].order >= |s.orders| || !s.bills[b].hasMethod
    then Abort
    else Commit(s.(bills := s.bills[b := s.bills[b].(status := BillCanceled)],
                   outbox := s.outbox + [PaymentEvent(CancelAction, b)]))
  }

  /** Some refund of the item is pending or has succeeded. */
  predicate HasRefund(bills: seq<Bill>, i: nat) {
    exists b :: 0 <= b < |bills| && bills[b].item == Some(i) && bills[b].kind.Refund?
                && (bills[b].status.BillPending? || bills[b].status.BillRefunded?)
  }

  /** CreateRefundBill */
  function CreateRefundBill(s: State, i: nat, amount: int): Outcome {
    if i >= |s.items| || s.items[i].order >= |s.orders| then Abort
    else if !s.items[i].status.ReturnRequested? || HasRefund(s.bills, i) || amount > s.items[i].price then Abort
    else
      var o, b := s.items[i].order, |s.bills|;
      Commit(SetStatus(SetItem(s, i, ReturnApproved), o, ReturnInProgress).(
             bills := s.bills + [RefundOf(b, o, Some(i), amount, true)],
             outbox := s.outbox + [PaymentEvent(RefundAction, b)]))
  }

  // ---- tickets ----

  /** The one-seat item that is released for a voided ticket. */
  function SeatOf(ticket: Ticket): Item {
    Item(ticket.item, 0, ticket.stock, 0, 0, PendingPayment)
  }

  /** VoidTicketByOrderItem: no ticket, no release. */
  function VoidTicket(s: State, i: nat): State {
    match FirstTicket(s.tickets, i)
    case None => s
    case Some(t) =>
      var ticket := s.tickets[t];
      s.(stocks := Released(s.stocks, [SeatOf(ticket)]),
         tickets := s.tickets[t := ticket.(status := Invalidated)])
  }

  /** What the event service answers for a session. */
  datatype Lookup = Window(from: int, until: int) | NotFound | Unavailable

  /** The first item whose session cannot be looked up decides how generation fails. */
  function FirstFailure(list: seq<Item>, lookup: nat -> Lookup): Option<Lookup> {
    if |list| == 0 then None
    else
      var n := |list| - 1;
      match FirstFailure(list[..n], lookup)
      case Some(f) => Some(f)
      case None => if lookup(list[n].session).Window? then None else Some(lookup(list[n].session))
  }

  function TicketFor(item: Item, serial: nat, lookup: nat -> Lookup): Ticket {
    match lookup(item.session)
    case Window(from, until) => Ticket(item.id, Serial(serial), item.stock, Valid, from, until, None)
    case _ => Ticket(item.id, Serial(serial), item.stock, Valid, 0, 0, None)
  }

  function TicketsFor(list: seq<Item>, serial: nat, lookup: nat -> Lookup): seq<Ticket> {
    seq(|list|, j requires 0 <= j < |list| => TicketFor(list[j], serial, lookup))
  }

  datatype Generation = Generated(tickets: seq<Ticket>) | PermanentFailure | TransientFailure

  /** GenerateTicketsForOrder: the ticket collection after it. The count query asks for tickets by the order's id. */
  function Generate(s: State, o: nat, lookup: nat -> Lookup): Generation {
    if o >= |s.orders| || !s.orders[o].status.OrderPaid? || Sum(s.tickets, KeyIs(ObjectId(o))) > 0
    then Generated(s.tickets)
    else
      var list := ItemsOf(s.items, o);
      match FirstFailure(list, lookup)
      case None => Generated(s.tickets + TicketsFor(list, s.orders[o].serial, lookup))
      case Some(f) => if f.NotFound? then PermanentFailure else TransientFailure
  }

  /** MarkOrderItemsAsFulfilled */
  function MarkFulfilled(s: State, o: nat): Outcome {
    if o >= |s.orders| then Abort
    else Recalculate(s.(items := BulkItems(s.items, o, ItemPaid, Fulfilled)), o, false)
  }

  /** TicketHandler.Handle: a permanent failure is acknowledged without effect. */
  function HandleGenerate(s: State, o: nat, lookup: nat -> Lookup): Outcome {
    match Generate(s, o, lookup)
    case PermanentFailure => Commit(s)
    case TransientFailure => Abort
    case Generated(tickets) => MarkFulfilled(s.(tickets := tickets), o)
  }

  /** MarkTicketAsUsed: the conditional write of a check-in. */
  function MarkUsed(s: State, t: nat, at: int): Outcome {
    if t >= |s.tickets| || !s.tickets[t].status.Valid? then Abort
    else Commit(s.(tickets := s.tickets[t := s.tickets[t].(status := Used, usedAt := Some(at))]))
  }

  /** ExpireTickets */
  function Expire(s: State, now: int): State {
    s.(tickets := seq(|s.tickets|, t requires 0 <= t < |s.tickets| =>
         if s.tickets[t].status.Valid? && s.tickets[t].validUntil < now
         then s.tickets[t].(status := Expired) else s.tickets[t]))
  }

  // ---- payment results ----

  function SettledStatus(bill: Bill, ok: bool): BillStatus {
    if !ok then BillFailed else if bill.kind.Payment? then BillPaid else BillRefunded
  }

  function SettledBill(bill: Bill, payment: Option<nat>, ok: bool): Bill {
    bill.(status := SettledStatus(bill, ok), payment := if payment.Some? then payment else bill.payment)
  }

  function Credited(order: Order, bill: Bill): Order {
    if bill.kind.Payment? then order.(paid := order.paid + bill.amount)
    else order.(returned := order.returned + bill.amount, returnedItemsCount := order.returnedItemsCount + 1)
  }

  /** ProcessPaymentUpdate on a pending bill. */
  function Settle(s: State, b: nat, payment: Option<nat>, ok: bool): State
    requires b < |s.bills|
    requires ok ==> s.bills[b].order < |s.orders|
  {
    var bill := s.bills[b];
    s.(bills := s.bills[b := SettledBill(bill, payment, ok)],
       orders := if ok then s.orders[bill.order := Credited(s.orders[bill.order], bill)] else s.orders)
  }

  /** BillStatusUpdateHandler.Handle: a bill that is no longer pending is skipped. */
  function HandlePayment(s: State, b: nat, payment: Option<nat>, ok: bool): Outcome {
    if b >= |s.bills| then Abort
    else if !s.bills[b].status.BillPending? then Commit(s)
    else if !ok then Commit(Settle(s, b, payment, false))
    else if s.bills[b].order >= |s.orders| then Abort
    else
      var bill, s1 := s.bills[b], Settle(s, b, payment, true);
      if bill.kind.Payment? then Recalculate(s1, bill.order, true)
      else
        match bill.item
        case None => Abort
        case Some(i) =>
          match ChangeItem(s1, i, bill.order, ItemReturned)
          case Abort => Abort
          case Commit(s2) => Commit(VoidTicket(s2, i))
  }

  // ---- steps and runs ----

  datatype Step =
    | DoAddOrder(request: AddOrderRequest, now: int, serial: nat)
    | DoCreateBill(order: nat, amount: int)
    | DoCancelBill(bill: nat)
    | DoCancelOrder(order: nat)
    | DoCancelItem(item: nat, order: nat)
    | DoRequestReturn(item: nat, order: nat)
    | DoApproveReturn(item: nat, order: nat)
    | DoRejectReturn(item: nat, order: nat)
    | DoCreateRefundBill(item: nat, amount: int)
    | DeliverPayment(bill: nat, payment: Option<nat>, ok: bool)
    | DeliverGenerate(order: nat, lookup: nat -> Lookup)
    | DoMarkUsed(ticket: nat, at: int)
    | DoExpire(now: int)

  /** A generate-tickets message can be delivered, any number of times, once it has been written to the outbox. */
  function Apply(s: State, step: Step): Outcome {
    match step
    case DoAddOrder(r, now, serial) => AddOrder(s, r, now, serial)
    case DoCreateBill(o, amount) => CreateBill(s, o, amount)
    case DoCancelBill(b) => CancelBill(s, b)
    case DoCancelOrder(o) => CancelOrder(s, o)
    case DoCancelItem(i, o) => ChangeItem(s, i, o, ItemCanceled)
    case DoRequestReturn(i, o) => ChangeItem(s, i, o, ReturnRequested)
    case DoApproveReturn(i, o) => ChangeItem(s, i, o, ReturnApproved)
    case DoRejectReturn(i, o) => ChangeItem(s, i, o, Fulfilled)
    case DoCreateRefundBill(i, amount) => CreateRefundBill(s, i, amount)
    case DeliverPayment(b, payment, ok) => HandlePayment(s, b, payment, ok)
    case DeliverGenerate(o, lookup) => if GenerateTickets(o) in s.outbox then HandleGenerate(s, o, lookup) else Abort
    case DoMarkUsed(t, at) => MarkUsed(s, t, at)
    case DoExpire(now) => Commit(Expire(s, now))
  }

  function Next(s: State, step: Step): State {
    match Apply(s, step)
    case Commit(s') => s'
    case Abort => s
  }

  function Run(s: State, steps: seq<Step>): State {
    if |steps| == 0 then s else Next(Run(s, steps[..|steps| - 1]), steps[|steps| - 1])
  }

  /** New payment bills ask for a positive amount; the API leaves this to its callers. */
  predicate Admissible(step: Step) {
    step.DoCreateBill? ==> step.amount > 0
  }

  /** A database with its stocks and nothing else. */
  predicate Initial(s: State) {
    && |s.orders| == |s.items| == |s.bills| == |s.tickets| == |s.outbox| == 0
    && (forall k :: 0 <= k < |s.stocks| ==> s.stocks[k].price >= 0 && s.stocks[k].quantity >= 0)
  }
}
