/** What one step may change: which statuses follow which, and what no step ever rewrites. */
module Evolution {
  import opened Options
  import opened Entities
  import opened OrderBuilding
  import opened Lifecycle
  import opened Invariants
  import opened ItemSteps
  import opened BillSteps
  import opened MessageSteps

  /** The order statuses one step can lead to. */
  predicate OrderEdge(a: OrderStatus, b: OrderStatus) {
    match a
    case Unpaid => b.Unpaid? || b.PartiallyPaid? || b.OrderPaid? || b.OrderCanceled?
    case PartiallyPaid => b.PartiallyPaid? || b.PendingRefund? || b.OrderPaid?
    case PendingRefund => b.PendingRefund?
    case OrderPaid => b.OrderPaid? || b.Completed?
    case Completed => b.Completed? || b.ReturnInProgress?
    case ReturnInProgress => Late(b)
    case PartiallyReturned => b.PartiallyReturned? || b.ReturnInProgress?
    case OrderReturned => b.OrderReturned?
    case OrderCanceled => b.OrderCanceled?
  }

  predicate ItemEdge(a: ItemStatus, b: ItemStatus) {
    match a
    case PendingPayment => b.PendingPayment? || b.ItemPaid? || b.ItemCanceled?
    case ItemPaid => b.ItemPaid? || b.Fulfilled?
    case Fulfilled => b.Fulfilled? || b.ReturnRequested?
    case ReturnRequested => b.ReturnRequested? || b.ReturnApproved? || b.Fulfilled?
    case ReturnApproved => b.ReturnApproved? || b.ItemReturned?
    case ItemReturned => b.ItemReturned?
    case ItemCanceled => b.ItemCanceled?
  }

  predicate TicketEdge(a: TicketStatus, b: TicketStatus) {
    a == b || b.Invalidated? || (a.Valid? && !b.Valid?)
  }

  predicate SameOrder(a: Order, b: Order) {
    && a.event == b.event && a.session == b.session && a.serial == b.serial && a.originalTotal == b.originalTotal
    && OrderEdge(a.status, b.status)
  }

  predicate SameItem(a: Item, b: Item) {
    b == a.(status := b.status) && ItemEdge(a.status, b.status)
  }

  /** A bill's status changes once, from pending. */
  predicate SameBill(a: Bill, b: Bill) {
    b == a.(status := b.status, payment := b.payment) && (a.status.BillPending? || b == a)
  }

  predicate SameTicket(a: Ticket, b: Ticket) {
    b == a.(status := b.status, usedAt := b.usedAt) && TicketEdge(a.status, b.status)
    && (a.usedAt == b.usedAt || (a.status.Valid? && b.status.Used?))
  }

  ghost predicate OrdersEvolve(s: State, s': State) {
    |s.orders| <= |s'.orders| && forall o :: 0 <= o < |s.orders| ==> SameOrder(s.orders[o], s'.orders[o])
  }

  /** Items are only ever added with their order. */
  ghost predicate ItemsEvolve(s: State, s': State) {
    && |s.items| <= |s'.items| && (forall i :: 0 <= i < |s.items| ==> SameItem(s.items[i], s'.items[i]))
    && forall i :: |s.items| <= i < |s'.items| ==> s'.items[i].order >= |s.orders|
  }

  ghost predicate BillsEvolve(s: State, s': State) {
    |s.bills| <= |s'.bills| && forall b :: 0 <= b < |s.bills| ==> SameBill(s.bills[b], s'.bills[b])
  }

  ghost predicate TicketsEvolve(s: State, s': State) {
    |s.tickets| <= |s'.tickets| && forall t :: 0 <= t < |s.tickets| ==> SameTicket(s.tickets[t], s'.tickets[t])
  }

  ghost predicate Evolves(s: State, s': State) {
    OrdersEvolve(s, s') && ItemsEvolve(s, s') && BillsEvolve(s, s') && TicketsEvolve(s, s') && s.outbox <= s'.outbox
  }

  lemma RecalculateEdge(s: State, o: nat, hasPublisher: bool)
    requires o < |s.orders| && MoneyOk(s, o, o) && ReturnsOk(s, o, o) && Recalculate(s, o, hasPublisher).Commit?
    ensures var s' := Recalculate(s, o, hasPublisher).state;
      && OrderEdge(s.orders[o].status, s'.orders[o].status)
      && s'.orders == s.orders[o := s.orders[o].(status := s'.orders[o].status, itemsCount := s'.orders[o].itemsCount)]
  {
    assert s.orders[o := s.orders[o]] == s.orders;
  }

  /** Recalculation moves the order's status along one edge; without a publisher it leaves the items alone. */
  lemma RecalculateEvolves(s: State, o: nat, hasPublisher: bool)
    requires o < |s.orders| && MoneyOk(s, o, o) && ReturnsOk(s, o, o) && Recalculate(s, o, hasPublisher).Commit?
    ensures var s' := Recalculate(s, o, hasPublisher).state;
      && OrderEdge(s.orders[o].status, s'.orders[o].status)
      && s'.orders == s.orders[o := s.orders[o].(status := s'.orders[o].status, itemsCount := s'.orders[o].itemsCount)]
      && (!hasPublisher ==> s'.items == s.items)
      && ItemsEvolve(s, s')
      && s.bills <= s'.bills && s'.tickets == s.tickets && s.outbox <= s'.outbox
  {
    RecalculateEdge(s, o, hasPublisher);
  }

  /** Up to the recalculation only the item's status and the order's totals change, and bills are added. */
  lemma EffectEvolves(s: State, i: nat, o: nat, to: ItemStatus)
    requires i < |s.items| && o < |s.orders| && CanChange(s.items[i].status, to) && Target(to)
    ensures var s1 := ItemEffect(s, i, o, to);
      && Evolves(s, s1) && s.bills <= s1.bills && s1.tickets == s.tickets && s1.outbox == s.outbox
  {
  }

  /** Rewriting one order's status along an edge, once its other fields have evolved. */
  lemma EvolvesOn(s: State, s1: State, s': State, o: nat)
    requires o < |s.orders| && Evolves(s, s1) && s1.orders[o].status == s.orders[o].status
    requires |s'.orders| == |s1.orders| && s'.orders == s1.orders[o := s'.orders[o]]
    requires SameOrder(s1.orders[o], s'.orders[o])
    requires s'.items == s1.items && s1.bills <= s'.bills && s'.tickets == s1.tickets && s1.outbox <= s'.outbox
    ensures Evolves(s, s')
  {
  }

  lemma ChangeItemEvolves(s: State, i: nat, o: nat, to: ItemStatus)
    requires Inv(s) && Target(to) && ChangeItem(s, i, o, to).Commit?
    ensures Evolves(s, ChangeItem(s, i, o, to).state)
  {
    EffectKeeps(s, i, o, to);
    EffectEvolves(s, i, o, to);
    RecalculateEvolves(ItemEffect(s, i, o, to), o, false);
    EvolvesOn(s, ItemEffect(s, i, o, to), ChangeItem(s, i, o, to).state, o);
  }

  lemma PaymentEvolves(s: State, b: nat, payment: Option<nat>)
    requires b < |s.bills| && s.bills[b].status.BillPending? && s.bills[b].kind.Payment? && s.bills[b].amount >= 0
    requires HandlePayment(s, b, payment, true).Commit?
    requires MoneyOk(s, s.bills[b].order, NONE) && ReturnsOk(s, s.bills[b].order, NONE)
    ensures Evolves(s, HandlePayment(s, b, payment, true).state)
  {
    PaidMoney(s, b, payment, s.bills[b].order);
    RecalculateEvolves(Settle(s, b, payment, true), s.bills[b].order, true);
  }

  lemma VoidEvolves(s: State, i: nat)
    ensures Evolves(s, VoidTicket(s, i)) && VoidTicket(s, i).orders == s.orders && VoidTicket(s, i).items == s.items
    ensures VoidTicket(s, i).bills == s.bills && VoidTicket(s, i).outbox == s.outbox
  {
  }

  lemma RefundAppliedEvolves(s: State, b: nat, payment: Option<nat>, i: nat)
    requires Ready(s, b, i)
    ensures var s1 := RefundApplied(s, b, payment, i);
      && Evolves(s, s1) && s1.orders[s.bills[b].order].status == s.orders[s.bills[b].order].status
      && s1.tickets == s.tickets
  {
  }

  /** After everything else the ticket is voided. */
  lemma TicketsLast(s: State, s1: State, s': State)
    requires Evolves(s, s1) && Evolves(s1, s') && s1.tickets == s.tickets
    requires s'.orders == s1.orders && s'.items == s1.items && s'.bills == s1.bills && s'.outbox == s1.outbox
    ensures Evolves(s, s')
  {
  }

  lemma RefundEvolves(s: State, b: nat, payment: Option<nat>, i: nat)
    requires Ready(s, b, i) && MoneyOk(s, s.bills[b].order, NONE) && ReturnsOk(s, s.bills[b].order, NONE)
    requires HandlePayment(s, b, payment, true).Commit?
    ensures Evolves(s, HandlePayment(s, b, payment, true).state)
  {
    var o, s1 := s.bills[b].order, RefundApplied(s, b, payment, i);
    RefundMoney(s, b, payment, i, o);
    RefundReturns(s, b, payment, i, o);
    RefundAppliedEvolves(s, b, payment, i);
    RecalculateEvolves(s1, o, false);
    var s2 := Recalculate(s1, o, false).state;
    EvolvesOn(s, s1, s2, o);
    VoidEvolves(s2, i);
    TicketsLast(s, s2, VoidTicket(s2, i));
  }

  lemma HandlePaymentEvolves(s: State, b: nat, payment: Option<nat>, ok: bool)
    requires Inv(s) && HandlePayment(s, b, payment, ok).Commit?
    ensures Evolves(s, HandlePayment(s, b, payment, ok).state)
  {
    if s.bills[b].status.BillPending? && ok {
      if s.bills[b].kind.Payment? {
        PaymentEvolves(s, b, payment);
      } else {
        RefundStarts(s, b, s.bills[b].item.value);
        RefundEvolves(s, b, payment, s.bills[b].item.value);
      }
    }
  }

  lemma MarkFulfilledEvolves(s: State, o: nat)
    requires o < |s.orders| && MoneyOk(s, o, o) && ReturnsOk(s, o, o) && MarkFulfilled(s, o).Commit?
    ensures Evolves(s, MarkFulfilled(s, o).state) && MarkFulfilled(s, o).state.tickets == s.tickets
  {
    FulfilledOrder(s, o, o);
    RecalculateEvolves(s.(items := BulkItems(s.items, o, ItemPaid, Fulfilled)), o, false);
  }

  lemma TicketsFirst(s: State, s1: State, s': State)
    requires s1 == s.(tickets := s1.tickets) && s.tickets <= s1.tickets && Evolves(s1, s') && s'.tickets == s1.tickets
    ensures Evolves(s, s')
  {
  }

  lemma HandleGenerateEvolves(s: State, o: nat, lookup: nat -> Lookup)
    requires Inv(s) && HandleGenerate(s, o, lookup).Commit?
    ensures Evolves(s, HandleGenerate(s, o, lookup).state)
  {
    if Generate(s, o, lookup).Generated? {
      var s1 := s.(tickets := Generate(s, o, lookup).tickets);
      GenerateWrites(s, o, lookup);
      TicketedKeeps(s, s1, o);
      MarkFulfilledEvolves(s1, o);
      TicketsFirst(s, s1, HandleGenerate(s, o, lookup).state);
    }
  }

  lemma AddOrderEvolves(s: State, r: AddOrderRequest, now: int, serial: nat)
    requires StocksOk(s) && AddOrder(s, r, now, serial).Commit?
    ensures Evolves(s, AddOrder(s, r, now, serial).state)
  {
    var s' := AddOrder(s, r, now, serial).state;
    AddOrderAdds(s, r, now, serial);
    var added := Build(s.stocks, r.details, now, |s.orders|, |s.items|).value.items;
    assert forall i :: |s.items| <= i < |s'.items| ==> s'.items[i] == added[i - |s.items|];
    PrefixEvolves(s, s');
  }

  /** Documents that are only followed by new ones have not changed. */
  lemma PrefixEvolves(s: State, s': State)
    requires s.orders <= s'.orders && s.items <= s'.items && s.bills <= s'.bills && s.tickets <= s'.tickets
    requires s.outbox <= s'.outbox
    requires forall i :: |s.items| <= i < |s'.items| ==> s'.items[i].order >= |s.orders|
    ensures Evolves(s, s')
  {
  }

  lemma CancelOrderEvolves(s: State, o: nat)
    requires CancelOrder(s, o).Commit?
    ensures Evolves(s, CancelOrder(s, o).state)
  {
  }

  lemma CreateRefundBillEvolves(s: State, i: nat, amount: int)
    requires Returns(s, NONE) && CreateRefundBill(s, i, amount).Commit?
    ensures Evolves(s, CreateRefundBill(s, i, amount).state)
  {
    RefundOrdersUnchanged(s, i, amount);
  }

  lemma TicketStepsEvolve(s: State, step: Step)
    requires (step.DoMarkUsed? || step.DoExpire?) && Apply(s, step).Commit?
    ensures Evolves(s, Next(s, step)) && TicketsFrame(s, Next(s, step))
  {
  }

  lemma StepEvolves(s: State, step: Step)
    requires Inv(s) && Apply(s, step).Commit?
    ensures Evolves(s, Next(s, step))
  {
    match step {
      case DoAddOrder(r, now, serial) => AddOrderEvolves(s, r, now, serial);
      case DoCreateBill(o, amount) => PrefixEvolves(s, Next(s, step));
      case DoCancelBill(b) =>
      case DoCancelOrder(o) => CancelOrderEvolves(s, o);
      case DoCancelItem(i, o) => ChangeItemEvolves(s, i, o, ItemCanceled);
      case DoRequestReturn(i, o) => ChangeItemEvolves(s, i, o, ReturnRequested);
      case DoApproveReturn(i, o) => ChangeItemEvolves(s, i, o, ReturnApproved);
      case DoRejectReturn(i, o) => ChangeItemEvolves(s, i, o, Fulfilled);
      case DoCreateRefundBill(i, amount) => CreateRefundBillEvolves(s, i, amount);
      case DeliverPayment(b, payment, ok) => HandlePaymentEvolves(s, b, payment, ok);
      case DeliverGenerate(o, lookup) => HandleGenerateEvolves(s, o, lookup);
      case DoMarkUsed(t, at) => TicketStepsEvolve(s, step);
      case DoExpire(now) => TicketStepsEvolve(s, step);
    }
  }

  lemma StepKeepsInv(s: State, step: Step)
    requires Inv(s) && Admissible(step) && Apply(s, step).Commit?
    ensures Inv(Next(s, step))
  {
    match step {
      case DoAddOrder(r, now, serial) => AddOrderKeeps(s, r, now, serial);
      case DoCreateBill(o, amount) => CreateBillKeeps(s, o, amount);
      case DoCancelBill(b) => CancelBillKeeps(s, b);
      case DoCancelOrder(o) => CancelOrderKeeps(s, o);
      case DoCancelItem(i, o) => ChangeItemKeeps(s, i, o, ItemCanceled);
      case DoRequestReturn(i, o) => ChangeItemKeeps(s, i, o, ReturnRequested);
      case DoApproveReturn(i, o) => ChangeItemKeeps(s, i, o, ReturnApproved);
      case DoRejectReturn(i, o) => ChangeItemKeeps(s, i, o, Fulfilled);
      case DoCreateRefundBill(i, amount) => CreateRefundBillKeeps(s, i, amount);
      case DeliverPayment(b, payment, ok) => HandlePaymentKeeps(s, b, payment, ok);
      case DeliverGenerate(o, lookup) => HandleGenerateKeeps(s, o, lookup);
      case DoMarkUsed(t, at) => TicketStepsEvolve(s, step); TicketsFrameKeeps(s, Next(s, step));
      case DoExpire(now) => TicketStepsEvolve(s, step); TicketsFrameKeeps(s, Next(s, step));
    }
  }

  lemma Unchanged(s: State)
    ensures Evolves(s, s)
  {
  }

  /** Every step keeps the invariant and moves every document along its edges. */
  lemma StepKeeps(s: State, step: Step)
    requires Inv(s) && Admissible(step)
    ensures Inv(Next(s, step)) && Evolves(s, Next(s, step))
  {
    if Apply(s, step).Commit? {
      StepKeepsInv(s, step);
      StepEvolves(s, step);
    } else {
      Unchanged(s);
    }
  }
}
