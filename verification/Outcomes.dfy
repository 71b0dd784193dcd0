/** What the ledger says about an order, when a step commits, and what it leaves behind. */
module Outcomes {
  import opened Options
  import opened Sums
  import opened Entities
  import opened Lifecycle
  import opened Invariants
  import opened ItemSums
  import opened Recalculation
  import opened ItemSteps
  import opened BillSteps
  import opened MessageSteps
  import opened Evolution
  import opened Runs
  import opened Billing
  import opened Conservation
  import opened Placement

  // ---- only payment results move the ledger ----

  /** The step is the success of a pending bill of the order. */
  predicate Settles(s: State, step: Step, o: nat, kind: BillKind) {
    && step.DeliverPayment? && step.ok && step.bill < |s.bills| && s.bills[step.bill].status.BillPending?
    && s.bills[step.bill].order == o && s.bills[step.bill].kind == kind
  }

  ghost predicate SameLedger(s: State, s': State) {
    && |s.orders| <= |s'.orders|
    && forall o :: 0 <= o < |s.orders| ==>
         && s'.orders[o].paid == s.orders[o].paid && s'.orders[o].returned == s.orders[o].returned
         && s'.orders[o].returnedItemsCount == s.orders[o].returnedItemsCount
  }

  lemma RecalculateLedger(s: State, o: nat, hasPublisher: bool)
    requires o < |s.orders| && Recalculate(s, o, hasPublisher).Commit?
    ensures SameLedger(s, Recalculate(s, o, hasPublisher).state)
  {
  }

  lemma ChangeItemLedger(s: State, i: nat, o: nat, to: ItemStatus)
    requires ChangeItem(s, i, o, to).Commit?
    ensures SameLedger(s, ChangeItem(s, i, o, to).state)
  {
    RecalculateLedger(ItemEffect(s, i, o, to), o, false);
  }

  lemma PaymentLedger(s: State, b: nat, payment: Option<nat>, ok: bool)
    requires HandlePayment(s, b, payment, ok).Commit? && s.bills[b].status.BillPending?
    ensures SameLedger(Settle(s, b, payment, ok), HandlePayment(s, b, payment, ok).state)
  {
    if ok {
      var o, s1 := s.bills[b].order, Settle(s, b, payment, true);
      if s.bills[b].kind.Payment? {
        RecalculateLedger(s1, o, true);
      } else {
        ChangeItemLedger(s1, s.bills[b].item.value, o, ItemReturned);
      }
    }
  }

  lemma GenerateLedger(s: State, o: nat, lookup: nat -> Lookup)
    requires HandleGenerate(s, o, lookup).Commit?
    ensures SameLedger(s, HandleGenerate(s, o, lookup).state)
  {
    if Generate(s, o, lookup).Generated? {
      var s1 := s.(tickets := Generate(s, o, lookup).tickets, items := BulkItems(s.items, o, ItemPaid, Fulfilled));
      RecalculateLedger(s1, o, false);
    }
  }

  /**
   * A step adds to what an order has paid, or got back, exactly the amount of the pending bill of that order and kind
   * whose success it delivers; any other step leaves its ledger alone.
   */
  lemma LedgerMoves(s: State, step: Step, s1: State, o: nat)
    requires Apply(s, step) == Commit(s1) && o < |s.orders|
    ensures o < |s1.orders|
    ensures s1.orders[o].paid
         == s.orders[o].paid + if Settles(s, step, o, Payment) then s.bills[step.bill].amount else 0
    ensures s1.orders[o].returned
         == s.orders[o].returned + if Settles(s, step, o, Refund) then s.bills[step.bill].amount else 0
    ensures s1.orders[o].returnedItemsCount
         == s.orders[o].returnedItemsCount + if Settles(s, step, o, Refund) then 1 else 0
  {
    match step {
      case DoCancelItem(i, p) => ChangeItemLedger(s, i, p, ItemCanceled);
      case DoRequestReturn(i, p) => ChangeItemLedger(s, i, p, ReturnRequested);
      case DoApproveReturn(i, p) => ChangeItemLedger(s, i, p, ReturnApproved);
      case DoRejectReturn(i, p) => ChangeItemLedger(s, i, p, Fulfilled);
      case DeliverPayment(b, payment, ok) =>
        if s.bills[b].status.BillPending? {
          PaymentLedger(s, b, payment, ok);
        }
      case DeliverGenerate(p, lookup) => GenerateLedger(s, p, lookup);
      case _ =>
    }
  }

  // ---- the ledger tells the status ----

  /** What the status says about the money. */
  predicate LedgerFits(order: Order) {
    match order.status
    case Unpaid => order.paid < MINOR_PER_UNIT && (order.paid != order.total || order.originalTotal == 0)
    case PartiallyPaid => order.paid >= MINOR_PER_UNIT && order.paid != order.total
    case PendingRefund => order.paid > order.total
    case OrderCanceled => order.paid < MINOR_PER_UNIT
    case _ => order.paid >= order.total
  }

  ghost predicate CanceledUnpaid(s: State) {
    forall o :: 0 <= o < |s.orders| && s.orders[o].status.OrderCanceled? ==> s.orders[o].paid < MINOR_PER_UNIT
  }

  lemma CanceledTakesNothing(s: State, step: Step, o: nat)
    requires Settles(s, step, o, Payment) && o < |s.orders| && s.orders[o].status.OrderCanceled?
    ensures Apply(s, step).Abort?
  {
  }

  /** A payment cancels no order, unless that order has no seats and costs nothing. */
  lemma PaymentCancelsEmpty(s: State, step: Step, s1: State, o: nat)
    requires Inv(s) && Settles(s, step, o, Payment) && o < |s.orders| && s.orders[o].status.Unpaid?
    requires Apply(s, step) == Commit(s1) && s1.orders[o].status.OrderCanceled?
    ensures s.orders[o].originalTotal == 0
  {
    assert MoneyOk(s, o, NONE);
    assert AllCanceled(s.items, o);
    assert Empty(s.items, o);
    NoItems(s.items, o);
  }

  lemma PaidWithinOriginal(s: State, o: nat)
    requires BillsOk(s) && o < |s.orders| && MoneyOk(s, o, NONE)
    ensures s.orders[o].paid <= s.orders[o].originalTotal
  {
    PaidWithinCommitted(s, o);
  }

  lemma StepCanceledUnpaid(s: State, step: Step)
    requires Inv(s) && CanceledUnpaid(s) && Admissible(step)
    ensures CanceledUnpaid(Next(s, step))
  {
    if Apply(s, step).Commit? {
      var s1 := Next(s, step);
      StepKeeps(s, step);
      forall o | 0 <= o < |s1.orders| && s1.orders[o].status.OrderCanceled? ensures s1.orders[o].paid < MINOR_PER_UNIT {
        if o < |s.orders| {
          StepCanceledUnpaidOf(s, step, s1, o);
        } else {
          NewOrdersUnpaid(s, step, o);
        }
      }
    }
  }

  lemma NewOrdersUnpaid(s: State, step: Step, o: nat)
    requires |s.orders| <= o < |Next(s, step).orders|
    ensures Next(s, step).orders[o].status.Unpaid?
  {
    if !step.DoAddOrder? {
      StepKeepsPlaces(s, step);
    }
  }

  lemma StepCanceledUnpaidOf(s: State, step: Step, s1: State, o: nat)
    requires Inv(s) && CanceledUnpaid(s) && Apply(s, step) == Commit(s1) && o < |s.orders| <= |s1.orders|
    requires Inv(s1) && SameOrder(s.orders[o], s1.orders[o]) && s1.orders[o].status.OrderCanceled?
    ensures s1.orders[o].paid < MINOR_PER_UNIT
  {
    LedgerMoves(s, step, s1, o);
    assert MoneyOk(s, o, NONE) && MoneyOk(s1, o, NONE);
    if Settles(s, step, o, Payment) {
      if s.orders[o].status.OrderCanceled? {
        CanceledTakesNothing(s, step, o);
      } else {
        PaymentCancelsEmpty(s, step, s1, o);
        PaidWithinOriginal(s1, o);
      }
    }
  }

  lemma {:induction false} RunCanceledUnpaid(s: State, steps: seq<Step>)
    requires Inv(s) && CanceledUnpaid(s) && AllAdmissible(steps)
    ensures CanceledUnpaid(Run(s, steps))
  {
    if |steps| != 0 {
      var front := steps[..|steps| - 1];
      RunCanceledUnpaid(s, front);
      RunKeeps(s, front);
      StepCanceledUnpaid(Run(s, front), steps[|steps| - 1]);
    }
  }

  /** In every run an order is Unpaid, or Canceled, only while less than one whole unit was paid for it. */
  lemma LedgerTellsStatus(s: State, o: nat)
    requires Reachable(s) && o < |s.orders|
    ensures LedgerFits(s.orders[o])
  {
    var s0, steps :| ReachedBy(s, s0, steps);
    InitialInv(s0);
    RunCanceledUnpaid(s0, steps);
    ReachableInv(s);
    assert MoneyOk(s, o, NONE);
  }

  // ---- what becomes of an order that awaits money ----

  /** A payment for the order succeeds, or one of its seats is canceled. */
  predicate MovesBalance(s: State, step: Step, o: nat) {
    Settles(s, step, o, Payment) || (step.DoCancelItem? && step.order == o)
  }

  /** Its next status, read off its new ledger and whether a seat is left. */
  function Resolved(before: OrderStatus, after: Order, live: bool): OrderStatus {
    if before.PendingRefund? then PendingRefund
    else if before.Unpaid? && !live then OrderCanceled
    else if after.paid == after.total then OrderPaid
    else if before.PartiallyPaid? && after.paid > after.total then PendingRefund
    else if after.paid >= MINOR_PER_UNIT then PartiallyPaid
    else Unpaid
  }

  /** The refund that a newly overpaid order waits for: the excess, without an item and without a payment method. */
  ghost predicate ExcessBilled(s: State, s1: State, o: nat)
    requires o < |s1.orders|
  {
    && |s1.bills| == |s.bills| + 1
    && var bill := s1.bills[|s.bills|];
       && bill.order == o && bill.amount == s1.orders[o].paid - s1.orders[o].total && bill.kind.Refund?
       && bill.status.BillPending? && bill.item.None? && !bill.hasMethod
  }

  lemma RecalculatedEarly(s: State, o: nat, hasPublisher: bool, s1: State)
    requires o < |s.orders| && Early(s.orders[o].status) && Recalculate(s, o, hasPublisher) == Commit(s1)
    requires MoneyOk(s, o, o)
    ensures |s1.orders| == |s.orders|
    ensures s1.orders[o] == s.orders[o].(status := Resolved(s.orders[o].status, s.orders[o], SomeLive(s.items, o)))
    ensures if s1.orders[o].status.PendingRefund? && !s.orders[o].status.PendingRefund? then ExcessBilled(s, s1, o)
            else s1.bills == s.bills
  {
  }

  lemma RecalculatedLive(s: State, o: nat, hasPublisher: bool)
    requires o < |s.orders| && Recalculate(s, o, hasPublisher).Commit?
    ensures SomeLive(Recalculate(s, o, hasPublisher).state.items, o) <==> SomeLive(s.items, o)
  {
    RecalculateFrame(s, o, hasPublisher);
    var items' := Recalculate(s, o, hasPublisher).state.items;
    LiveKept(s.items, items', o);
    LiveKept(items', s.items, o);
  }

  lemma CanceledSeatResolved(s: State, i: nat, o: nat, s1: State)
    requires Inv(s) && o < |s.orders| && Early(s.orders[o].status) && ChangeItem(s, i, o, ItemCanceled) == Commit(s1)
    ensures |s1.orders| == |s.orders|
    ensures s1.orders[o].status == Resolved(s.orders[o].status, s1.orders[o], SomeLive(s1.items, o))
    ensures if s1.orders[o].status.PendingRefund? && !s.orders[o].status.PendingRefund? then ExcessBilled(s, s1, o)
            else |s1.bills| == |s.bills|
  {
    EffectKeeps(s, i, o, ItemCanceled);
    var m := ItemEffect(s, i, o, ItemCanceled);
    assert MoneyOk(m, o, o);
    RecalculatedEarly(m, o, false, s1);
    RecalculatedLive(m, o, false);
  }

  lemma PaymentResolved(s: State, b: nat, payment: Option<nat>, s1: State)
    requires Pays(s, b) && HandlePayment(s, b, payment, true) == Commit(s1)
    requires s.bills[b].order < |s.orders| && Early(s.orders[s.bills[b].order].status)
    ensures |s1.orders| == |s.orders|
    ensures var o := s.bills[b].order;
      && s1.orders[o].status == Resolved(s.orders[o].status, s1.orders[o], SomeLive(s1.items, o))
      && if s1.orders[o].status.PendingRefund? && !s.orders[o].status.PendingRefund? then ExcessBilled(s, s1, o)
         else |s1.bills| == |s.bills|
  {
    var o, m := s.bills[b].order, Settle(s, b, payment, true);
    PaidKeeps(s, b, payment);
    assert MoneyOk(m, o, o);
    RecalculatedEarly(m, o, true, s1);
    RecalculatedLive(m, o, true);
  }

  /**
   * Until an order is paid, its ledger and its seats decide its status: Canceled when no seat is left, Paid exactly
   * when it is paid in full, PartiallyPaid from the first whole unit on; a partially paid order that now is
   * overpaid waits for the refund of the excess, which is billed.
   */
  lemma EarlyOrderResolved(s: State, step: Step, s1: State, o: nat)
    requires Reachable(s) && o < |s.orders| && Early(s.orders[o].status) && MovesBalance(s, step, o)
    requires Apply(s, step) == Commit(s1)
    ensures |s1.orders| == |s.orders|
    ensures s1.orders[o].status == Resolved(s.orders[o].status, s1.orders[o], SomeLive(s1.items, o))
    ensures if s1.orders[o].status.PendingRefund? && !s.orders[o].status.PendingRefund? then ExcessBilled(s, s1, o)
            else |s1.bills| == |s.bills|
  {
    ReachableInv(s);
    if step.DoCancelItem? {
      CanceledSeatResolved(s, step.item, o, s1);
    } else {
      PaymentResolved(s, step.bill, step.payment, s1);
    }
  }

  // ---- item steps ----

  predicate ItemOf(s: State, i: nat, o: nat) {
    i < |s.items| && s.items[i].order == o
  }

  /** A seat can be canceled until it is paid, unless that would leave its order exactly paid: that aborts. */
  lemma CancelItemCommitsIff(s: State, i: nat, o: nat)
    requires Reachable(s)
    ensures Apply(s, DoCancelItem(i, o)).Commit?
       <==> ItemOf(s, i, o) && s.items[i].status.PendingPayment? && o < |s.orders|
            && ((s.orders[o].status.Unpaid? && LastSeat(s.items, i, o))
                || s.orders[o].paid != s.orders[o].total - s.items[i].price)
  {
    ReachableInv(s);
    if ItemOf(s, i, o) && s.items[i].status.PendingPayment? {
      EffectKeeps(s, i, o, ItemCanceled);
      CancelItemDecided(s, i, o);
    }
  }

  lemma CancelItemDecided(s: State, i: nat, o: nat)
    requires ItemsOk(s) && ItemPhases(s, NONE) && ItemOf(s, i, o) && s.items[i].status.PendingPayment?
    requires MoneyOk(s, o, NONE) && MoneyOk(ItemEffect(s, i, o, ItemCanceled), o, o)
    ensures ChangeItem(s, i, o, ItemCanceled).Commit?
       <==> (s.orders[o].status.Unpaid? && LastSeat(s.items, i, o))
            || s.orders[o].paid != s.orders[o].total - s.items[i].price
  {
    assert Fits(s.items[i].status, s.orders[o].status);
    var m := ItemEffect(s, i, o, ItemCanceled);
    assert AllCanceled(m.items, o) <==> LastSeat(s.items, i, o) by {
      assert forall j :: 0 <= j < |s.items| && j != i ==> m.items[j] == s.items[j];
    }
  }

  /** The status each item step gives its item. */
  function ItemTarget(step: Step): ItemStatus
    requires step.DoCancelItem? || step.DoRequestReturn? || step.DoApproveReturn? || step.DoRejectReturn?
  {
    match step
    case DoCancelItem(_, _) => ItemCanceled
    case DoRequestReturn(_, _) => ReturnRequested
    case DoApproveReturn(_, _) => ReturnApproved
    case DoRejectReturn(_, _) => Fulfilled
  }

  lemma RecalculateItems(s: State, o: nat)
    requires o < |s.orders| && Recalculate(s, o, false).Commit?
    ensures Recalculate(s, o, false).state.items == s.items
    ensures !Early(s.orders[o].status) ==> Recalculate(s, o, false).state.bills == s.bills
  {
  }

  /** An item step gives its item that status and no other item another one. */
  lemma ItemStepMovesItem(s: State, step: Step, s1: State)
    requires step.DoCancelItem? || step.DoRequestReturn? || step.DoApproveReturn? || step.DoRejectReturn?
    requires Apply(s, step) == Commit(s1)
    ensures ItemOf(s, step.item, step.order)
    ensures s1.items == s.items[step.item := s.items[step.item].(status := ItemTarget(step))]
  {
    RecalculateItems(ItemEffect(s, step.item, step.order, ItemTarget(step)), step.order);
  }

  /** Only an approval writes a bill: a refund of the item's price that names no item and cannot be announced. */
  lemma ApprovalBillsPrice(s: State, step: Step, s1: State)
    requires Reachable(s) && (step.DoRequestReturn? || step.DoApproveReturn? || step.DoRejectReturn?)
    requires Apply(s, step) == Commit(s1)
    ensures s.bills <= s1.bills && |s1.bills| == |s.bills| + if step.DoApproveReturn? then 1 else 0
    ensures step.DoApproveReturn? ==>
      var bill := s1.bills[|s.bills|];
      && bill.order == step.order && bill.amount == s.items[step.item].price && bill.kind.Refund?
      && bill.status.BillPending? && bill.item.None? && !bill.hasMethod
  {
    ReachableInv(s);
    assert Fits(s.items[step.item].status, s.orders[step.order].status);
    RecalculateItems(ItemEffect(s, step.item, step.order, ItemTarget(step)), step.order);
  }

  // ---- bills ----

  /** One bill was added, and nothing but bills and messages changed. */
  ghost predicate BillsGrow(s: State, s1: State) {
    && |s1.bills| == |s.bills| + 1 && s.bills <= s1.bills
    && s1.orders == s.orders && s1.items == s.items && s1.stocks == s.stocks && s1.tickets == s.tickets
  }

  /** A payment bill can be added exactly while the order awaits money and its payments leave room for it. */
  lemma CreateBillCommitsIff(s: State, o: nat, amount: int)
    requires Reachable(s)
    ensures Apply(s, DoCreateBill(o, amount)).Commit?
       <==> o < |s.orders| && (s.orders[o].status.Unpaid? || s.orders[o].status.PartiallyPaid?)
            && Sum(s.bills, CommittedPayment(o)) + amount <= s.orders[o].total
  {
    ReachableInv(s);
    if o < |s.orders| && (s.orders[o].status.Unpaid? || s.orders[o].status.PartiallyPaid?) {
      CommittedAnyIsPayment(s, o);
    }
  }

  lemma CreatedBill(s: State, o: nat, amount: int, s1: State)
    requires Apply(s, DoCreateBill(o, amount)) == Commit(s1)
    ensures BillsGrow(s, s1) && s1.outbox == s.outbox + [PaymentEvent(CreateAction, |s.bills|)]
    ensures s1.bills[|s.bills|].kind.Payment? && s1.bills[|s.bills|].order == o && s1.bills[|s.bills|].amount == amount
    ensures s1.bills[|s.bills|].status.BillPending?
    ensures Sum(s1.bills, CommittedPayment(o)) == Sum(s.bills, CommittedPayment(o)) + amount
  {
    BillAdded(s.bills, s1.bills[|s.bills|], o);
  }

  /** A bill can be called off exactly while it is pending, unless it is a refund that names no item. */
  lemma CancelBillCommitsIff(s: State, b: nat)
    requires Reachable(s)
    ensures Apply(s, DoCancelBill(b)).Commit?
       <==> b < |s.bills| && s.bills[b].status.BillPending? && (s.bills[b].kind.Payment? || s.bills[b].item.Some?)
    ensures Apply(s, DoCancelBill(b)).Commit? ==>
      var s1 := Apply(s, DoCancelBill(b)).state;
      && |s1.bills| == |s.bills| && s1.bills[b] == s.bills[b].(status := BillCanceled)
      && (forall c :: 0 <= c < |s.bills| && c != b ==> s1.bills[c] == s.bills[c])
      && s1.orders == s.orders && s1.items == s.items && s1.stocks == s.stocks && s1.tickets == s.tickets
  {
    ReachableInv(s);
  }

  // ---- canceling an order ----

  /** No bill of the order is pending any more; those that were are Canceled, every other bill stays. */
  ghost predicate CalledOff(s: State, s1: State, o: nat) {
    && |s1.bills| == |s.bills|
    && forall b :: 0 <= b < |s.bills| ==>
         s1.bills[b] == if s.bills[b].order == o && s.bills[b].status.BillPending?
                        then s.bills[b].(status := BillCanceled) else s.bills[b]
  }

  /** Every seat of the order is canceled and given back to its stock, whether or not it was canceled before. */
  ghost predicate GivenBack(s: State, s1: State, o: nat) {
    && |s1.items| == |s.items| && AllCanceled(s1.items, o)
    && (forall i :: 0 <= i < |s.items| && s.items[i].order != o ==> s1.items[i] == s.items[i])
    && |s1.stocks| == |s.stocks|
    && forall k :: 0 <= k < |s.stocks| ==>
         s1.stocks[k] == s.stocks[k].(quantity := s.stocks[k].quantity + Sum(s.items, SeatsOf(o, k)))
  }

  lemma CanPublishPayments(s: State, o: nat)
    requires BillsOk(s) && RefundPhases(s) && o < |s.orders| && s.orders[o].status.Unpaid?
    ensures CanPublishAll(Filter(s.bills, PendingOf(o)))
  {
    FilterMembers(s.bills, PendingOf(o));
    forall n | 0 <= n < |Filter(s.bills, PendingOf(o))| ensures Filter(s.bills, PendingOf(o))[n].hasMethod {
      var bill := Filter(s.bills, PendingOf(o))[n];
      assert bill in Filter(s.bills, PendingOf(o));
      var b :| 0 <= b < |s.bills| && s.bills[b] == bill;
    }
  }

  /** An order can be canceled exactly while it is Unpaid, so before a whole unit was paid for it. */
  lemma CancelOrderCommitsIff(s: State, o: nat)
    requires Reachable(s)
    ensures Apply(s, DoCancelOrder(o)).Commit? <==> o < |s.orders| && s.orders[o].status.Unpaid?
    ensures Apply(s, DoCancelOrder(o)).Commit? ==> s.orders[o].paid < MINOR_PER_UNIT
  {
    ReachableInv(s);
    if o < |s.orders| && s.orders[o].status.Unpaid? {
      CanPublishPayments(s, o);
      assert MoneyOk(s, o, NONE);
    }
  }

  lemma CanceledOrder(s: State, o: nat, s1: State)
    requires Reachable(s) && Apply(s, DoCancelOrder(o)) == Commit(s1)
    ensures s1.orders == s.orders[o := s.orders[o].(status := OrderCanceled)] && s1.tickets == s.tickets
    ensures CalledOff(s, s1, o) && GivenBack(s, s1, o)
  {
    ReachableInv(s);
    forall i | 0 <= i < |s.items| && s.items[i].order == o ensures s1.items[i].status.ItemCanceled? {
      assert Fits(s.items[i].status, s.orders[o].status);
    }
    forall k: nat ensures Sum(ItemsOf(s.items, o), OfStock(k)) == Sum(s.items, SeatsOf(o, k)) {
      SumFilter(s.items, InOrder(o), OfStock(k), SeatsOf(o, k));
    }
    forall b | 0 <= b < |s.bills|
      ensures s1.bills[b] == if s.bills[b].order == o && s.bills[b].status.BillPending?
                             then s.bills[b].(status := BillCanceled) else s.bills[b]
    {
      assert s1.bills[b] == if PendingOf(o)(s.bills[b]) then s.bills[b].(status := BillCanceled) else s.bills[b];
    }
  }
}
