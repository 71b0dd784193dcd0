/** Under the bill guard no order is ever overpaid. */
module Billing {
  import opened Options
  import opened Sums
  import opened Entities
  import opened OrderBuilding
  import opened Lifecycle
  import opened Invariants
  import opened ItemSums
  import opened ItemSteps
  import opened BillSteps
  import opened MessageSteps
  import opened Evolution
  import opened Coverage

  // Bills never exceed the total of their order, and a Paid order has no payment left to arrive.

  /** No other seat of the order is live. */
  predicate LastSeat(items: seq<Item>, i: nat, o: nat) {
    forall j :: 0 <= j < |items| && j != i && items[j].order == o ==> items[j].status.ItemCanceled?
  }

  /**
   * A seat is canceled on its own only if the remaining total still covers the paid and pending payment bills, or if it
   * is the last seat of an order for which nothing was paid: that order is canceled with it.
   */
  predicate BillGuard(s: State, step: Step) {
    step.DoCancelItem? && step.item < |s.items| && step.order < |s.orders| ==>
      || Sum(s.bills, CommittedPayment(step.order)) <= s.orders[step.order].total - s.items[step.item].price
      || (LastSeat(s.items, step.item, step.order) && s.orders[step.order].paid == 0)
  }

  /** The payment bills are within the total; of a canceled order, whose bills cannot succeed, what was paid is. */
  ghost predicate Within(bills: seq<Bill>, o: nat, order: Order) {
    if order.status.OrderCanceled? then order.paid <= order.total
    else Sum(bills, CommittedPayment(o)) <= order.total
  }

  ghost predicate BoundedBills(s: State) {
    forall o :: 0 <= o < |s.orders| ==> Within(s.bills, o, s.orders[o])
  }

  /** Payment bills ask for something, except the only bill of an order that costs nothing. */
  ghost predicate ProperBills(s: State) {
    && (forall b :: 0 <= b < |s.bills| && s.bills[b].kind.Payment? && s.bills[b].order < |s.orders| ==>
          s.bills[b].amount > 0 || s.orders[s.bills[b].order].originalTotal == 0)
    && (forall b, b' ::
          (0 <= b < b' < |s.bills| && s.bills[b].kind.Payment? && s.bills[b'].kind.Payment?
           && s.bills[b].order == s.bills[b'].order < |s.orders|)
          ==> s.orders[s.bills[b].order].originalTotal > 0)
  }

  ghost predicate SettledOrders(s: State) {
    && (forall b :: 0 <= b < |s.bills| && s.bills[b].kind.Payment? && s.bills[b].status.BillPending?
                    && s.bills[b].order < |s.orders| ==>
          !Reached(s.orders[s.bills[b].order].status))
    && (forall o :: 0 <= o < |s.orders| ==> !s.orders[o].status.PendingRefund?)
  }

  ghost predicate Bounded(s: State) {
    BoundedBills(s) && ProperBills(s) && SettledOrders(s)
  }

  /** With bounded bills no payment can succeed for a Paid order. */
  lemma BoundedGuardsPayments(s: State, step: Step)
    requires SettledOrders(s)
    ensures PaymentGuard(s, step)
  {
  }

  // ---- frames ----

  /** Payment bills stay as they are, up to losing their claim; new bills are refunds. */
  ghost predicate PaymentsKept(s: State, s': State) {
    && |s.bills| <= |s'.bills| && |s.orders| == |s'.orders|
    && (forall b :: 0 <= b < |s.bills| ==>
          && s'.bills[b].kind == s.bills[b].kind && s'.bills[b].order == s.bills[b].order
          && s'.bills[b].amount == s.bills[b].amount
          && (s'.bills[b].status.BillPending? ==> s.bills[b].status.BillPending?)
          && (s'.bills[b].status.BillPaid? ==> s.bills[b].status.BillPaid? || s.bills[b].status.BillPending?))
    && (forall b :: |s.bills| <= b < |s'.bills| ==> s'.bills[b].kind.Refund?)
    && (forall o :: 0 <= o < |s.orders| ==> s'.orders[o].originalTotal == s.orders[o].originalTotal)
  }

  lemma KeptCommitted(s: State, s': State, o: nat)
    requires BillsOk(s) && PaymentsKept(s, s') && o < |s.orders|
    ensures Sum(s'.bills, CommittedPayment(o)) <= Sum(s.bills, CommittedPayment(o))
  {
    var n := |s.bills|;
    assert s'.bills == s'.bills[..n] + s'.bills[n..];
    SumConcat(s'.bills[..n], s'.bills[n..], CommittedPayment(o));
    SumZero(s'.bills[n..], CommittedPayment(o));
    SumSplit(s'.bills[..n], s.bills, CommittedPayment(o), CommittedPayment(o));
  }

  /** A step that keeps the payments, the totals and the phases keeps the bills bounded. */
  lemma BoundedKept(s: State, s': State)
    requires BillsOk(s) && Bounded(s) && PaymentsKept(s, s')
    requires forall o :: 0 <= o < |s.orders| ==>
      && Within(s.bills, o, s'.orders[o])
      && (Reached(s'.orders[o].status) ==> Reached(s.orders[o].status))
      && !s'.orders[o].status.PendingRefund?
    ensures Bounded(s')
  {
    forall o | 0 <= o < |s'.orders| ensures Within(s'.bills, o, s'.orders[o]) {
      KeptCommitted(s, s', o);
    }
  }

  lemma PaidWithinCommitted(s: State, o: nat)
    requires BillsOk(s)
    ensures Sum(s.bills, PaidAmount(o)) <= Sum(s.bills, CommittedPayment(o))
  {
    SumSplit(s.bills, s.bills, PaidAmount(o), CommittedPayment(o));
  }

  lemma PaidWithinTotal(s: State, o: nat)
    requires BillsOk(s) && o < |s.orders| && MoneyOk(s, o, NONE) && Within(s.bills, o, s.orders[o])
    ensures s.orders[o].paid <= s.orders[o].total
  {
    PaidWithinCommitted(s, o);
  }

  // ---- steps ----

  lemma ChangeItemKeepsPayments(s: State, i: nat, o: nat, to: ItemStatus)
    requires ChangeItem(s, i, o, to).Commit?
    ensures PaymentsKept(s, ChangeItem(s, i, o, to).state)
  {
  }

  /** The bills stay within the total that a changed item leaves. */
  lemma EffectWithinTotal(s: State, i: nat, o: nat, to: ItemStatus)
    requires i < |s.items| && o < |s.orders| && Sum(s.bills, CommittedPayment(o)) <= s.orders[o].total
    requires to.ItemCanceled? ==> Sum(s.bills, CommittedPayment(o)) <= s.orders[o].total - s.items[i].price
    ensures var s1 := ItemEffect(s, i, o, to);
      Sum(s.bills, CommittedPayment(o)) == Sum(s1.bills, CommittedPayment(o)) <= s1.orders[o].total
  {
    if to.ReturnApproved? {
      var s1 := ItemEffect(s, i, o, to);
      BillAdded(s.bills, s1.bills[|s.bills|], o);
    }
  }

  /** Without a publisher an order whose bills are within its total reaches neither Paid nor PendingRefund. */
  lemma RecalculateWithinTotal(s: State, o: nat)
    requires InvX(s, o) && o < |s.orders| && !s.orders[o].status.PendingRefund?
    requires Sum(s.bills, CommittedPayment(o)) <= s.orders[o].total
    requires Recalculate(s, o, false).Commit?
    ensures var s' := Recalculate(s, o, false).state;
      && s'.bills == s.bills && !s'.orders[o].status.PendingRefund?
      && s'.orders == s.orders[o := s.orders[o].(status := s'.orders[o].status, itemsCount := s'.orders[o].itemsCount)]
      && (Reached(s'.orders[o].status) ==> Reached(s.orders[o].status))
  {
    RecalculateEvolves(s, o, false);
    PaidWithinCommitted(s, o);
    assert MoneyOk(s, o, o);
  }

  /** An order whose bills are within its total is not overpaid by a changed item. */
  lemma ChangeItemNotOverpaid(s: State, i: nat, o: nat, to: ItemStatus)
    requires Inv(s) && BoundedBills(s) && Target(to) && ChangeItem(s, i, o, to).Commit?
    requires !s.orders[o].status.PendingRefund?
    requires to.ItemCanceled? ==> Sum(s.bills, CommittedPayment(o)) <= s.orders[o].total - s.items[i].price
    ensures var s' := ChangeItem(s, i, o, to).state;
      && |s'.orders| == |s.orders| && (forall p :: 0 <= p < |s.orders| && p != o ==> s'.orders[p] == s.orders[p])
      && s'.orders[o].paid <= Sum(s.bills, CommittedPayment(o)) <= s'.orders[o].total
      && (Reached(s'.orders[o].status) ==> Reached(s.orders[o].status))
      && !s'.orders[o].status.PendingRefund?
  {
    assert Within(s.bills, o, s.orders[o]) && MoneyOk(s, o, NONE);
    PaidWithinCommitted(s, o);
    EffectKeeps(s, i, o, to);
    EffectWithinTotal(s, i, o, to);
    RecalculateWithinTotal(ItemEffect(s, i, o, to), o);
  }

  /** With its last seat an order for which nothing was paid is canceled: nothing is owed and nothing was paid. */
  lemma LastSeatCancels(s: State, i: nat, o: nat)
    requires Inv(s) && ChangeItem(s, i, o, ItemCanceled).Commit?
    requires LastSeat(s.items, i, o) && s.orders[o].paid == 0
    ensures var s' := ChangeItem(s, i, o, ItemCanceled).state;
      && s'.orders == s.orders[o := s'.orders[o]]
      && s'.orders[o].status.OrderCanceled? && s'.orders[o].total == s'.orders[o].paid == 0
  {
    var s1 := ItemEffect(s, i, o, ItemCanceled);
    EffectKeeps(s, i, o, ItemCanceled);
    assert MoneyOk(s, o, NONE) && MoneyOk(s1, o, o);
    assert Fits(s.items[i].status, s.orders[o].status);
    assert AllCanceled(s1.items, o);
    SumZero(s1.items, LivePrice(o));
  }

  lemma LastSeatBounded(s: State, i: nat, o: nat)
    requires Inv(s) && Bounded(s) && ChangeItem(s, i, o, ItemCanceled).Commit?
    requires LastSeat(s.items, i, o) && s.orders[o].paid == 0
    ensures Bounded(ChangeItem(s, i, o, ItemCanceled).state)
  {
    ChangeItemKeepsPayments(s, i, o, ItemCanceled);
    LastSeatCancels(s, i, o);
    BoundedKept(s, ChangeItem(s, i, o, ItemCanceled).state);
  }

  lemma ChangeItemBounded(s: State, i: nat, o: nat, to: ItemStatus)
    requires Inv(s) && Bounded(s) && Target(to) && ChangeItem(s, i, o, to).Commit?
    requires to.ItemCanceled? ==> Sum(s.bills, CommittedPayment(o)) <= s.orders[o].total - s.items[i].price
    ensures Bounded(ChangeItem(s, i, o, to).state)
  {
    ChangeItemKeepsPayments(s, i, o, to);
    ChangeItemNotOverpaid(s, i, o, to);
    BoundedKept(s, ChangeItem(s, i, o, to).state);
  }

  lemma SettleKeepsPayments(s: State, b: nat, payment: Option<nat>, ok: bool)
    requires b < |s.bills| && s.bills[b].status.BillPending? && (ok ==> s.bills[b].order < |s.orders|)
    ensures PaymentsKept(s, Settle(s, b, payment, ok))
  {
  }

  lemma HandlePaymentKeepsPayments(s: State, b: nat, payment: Option<nat>)
    requires b < |s.bills| && s.bills[b].status.BillPending? && s.bills[b].kind.Payment?
    requires HandlePayment(s, b, payment, true).Commit?
    ensures PaymentsKept(s, HandlePayment(s, b, payment, true).state)
  {
  }

  /** A pending payment that asks for something keeps what was paid below what is billed. */
  lemma PendingLeavesRoom(s: State, o: nat, c: nat)
    requires BillsOk(s) && c < |s.bills| && s.bills[c].kind.Payment? && s.bills[c].status.BillPending?
    requires s.bills[c].order == o && s.bills[c].amount > 0
    ensures Sum(s.bills, PaidAmount(o)) < Sum(s.bills, CommittedPayment(o))
  {
    SumAdd(s.bills, s.bills, s.bills, PaidAmount(o), CommittedPayment(o), StillPending(o));
    SumAtLeast(s.bills, StillPending(o), c);
  }

  function StillPending(o: nat): Bill -> int {
    (b: Bill) => if b.order == o && b.kind.Payment? && b.status.BillPending? then b.amount else 0
  }

  lemma SettledBillsOk(s: State, b: nat, payment: Option<nat>)
    requires BillsOk(s) && b < |s.bills| && s.bills[b].status.BillPending?
    ensures BillsOk(Settle(s, b, payment, true))
  {
  }

  /** When an order becomes Paid, whatever is still pending for it asks for nothing, so nothing is pending. */
  lemma PaidHasNoPending(s: State, b: nat, payment: Option<nat>, c: nat)
    requires BillsOk(s) && ProperBills(s) && b < |s.bills| && s.bills[b].status.BillPending? && s.bills[b].kind.Payment?
    requires MoneyOk(s, s.bills[b].order, NONE) && Within(s.bills, s.bills[b].order, s.orders[s.bills[b].order])
    requires c < |s.bills| && c != b && s.bills[c].order == s.bills[b].order
    requires s.bills[c].kind.Payment? && s.bills[c].status.BillPending?
    requires !s.orders[s.bills[b].order].status.OrderCanceled?
    ensures var o, s1 := s.bills[b].order, Settle(s, b, payment, true); s1.orders[o].paid < s1.orders[o].total
  {
    var o, s1 := s.bills[b].order, Settle(s, b, payment, true);
    PaidMoney(s, b, payment, o);
    SettleKeepsPayments(s, b, payment, true);
    KeptCommitted(s, s1, o);
    SettledBillsOk(s, b, payment);
    PendingLeavesRoom(s1, o, c);
  }

  /** An order that is not overpaid becomes Paid only when it is paid in full. */
  lemma PaidOnlyInFull(s: State, o: nat)
    requires o < |s.orders| && s.orders[o].paid <= s.orders[o].total
    requires !Reached(s.orders[o].status) && !s.orders[o].status.PendingRefund? && Recalculate(s, o, true).Commit?
    ensures var s' := Recalculate(s, o, true).state;
      && !s'.orders[o].status.PendingRefund?
      && (Reached(s'.orders[o].status) ==> s.orders[o].total == s.orders[o].paid)
  {
  }

  /** A payment within the bounds leaves the order Unpaid, PartiallyPaid or Paid, as the amounts say. */
  lemma PaymentNotOverpaid(s: State, b: nat, payment: Option<nat>)
    requires Pays(s, b) && Bounded(s) && HandlePayment(s, b, payment, true).Commit?
    ensures var o, s', s1 := s.bills[b].order, HandlePayment(s, b, payment, true).state, Settle(s, b, payment, true);
      && s'.orders[o].paid <= s'.orders[o].total == s.orders[o].total && !s'.orders[o].status.PendingRefund?
      && (Reached(s'.orders[o].status) ==> s1.orders[o].total == s1.orders[o].paid)
  {
    var o, s1 := s.bills[b].order, Settle(s, b, payment, true);
    assert Within(s.bills, o, s.orders[o]);
    PaidKeeps(s, b, payment);
    SettleKeepsPayments(s, b, payment, true);
    KeptCommitted(s, s1, o);
    PaidWithinCommitted(s1, o);
    assert MoneyOk(s1, o, o);
    PaidOnlyInFull(s1, o);
    PaymentTotals(s, b, payment);
  }

  lemma PaymentSettled(s: State, b: nat, payment: Option<nat>)
    requires Pays(s, b) && Bounded(s) && HandlePayment(s, b, payment, true).Commit?
    ensures SettledOrders(HandlePayment(s, b, payment, true).state)
  {
    var o, s1, s' := s.bills[b].order, Settle(s, b, payment, true), HandlePayment(s, b, payment, true).state;
    PaymentNotOverpaid(s, b, payment);
    PaymentTotals(s, b, payment);
    PaymentKeepsBills(s, b, payment);
    forall c | 0 <= c < |s'.bills| && s'.bills[c].kind.Payment? && s'.bills[c].status.BillPending?
      ensures !Reached(s'.orders[s'.bills[c].order].status)
    {
      assert s'.bills[c] == s1.bills[c];
      if s.bills[c].order == o {
        assert MoneyOk(s, o, NONE) && Within(s.bills, o, s.orders[o]);
        PaidHasNoPending(s, b, payment, c);
      }
    }
  }

  /** After the settled bill, only a refund bill may have been added. */
  lemma PaymentKeepsBills(s: State, b: nat, payment: Option<nat>)
    requires b < |s.bills| && s.bills[b].status.BillPending? && s.bills[b].kind.Payment?
    requires HandlePayment(s, b, payment, true).Commit?
    ensures var s1, s' := Settle(s, b, payment, true), HandlePayment(s, b, payment, true).state;
      s1.bills <= s'.bills && forall c :: |s.bills| <= c < |s'.bills| ==> s'.bills[c].kind.Refund?
  {
  }

  lemma PaymentBounded(s: State, b: nat, payment: Option<nat>)
    requires Pays(s, b) && Bounded(s) && HandlePayment(s, b, payment, true).Commit?
    ensures Bounded(HandlePayment(s, b, payment, true).state)
  {
    var o, s1, s' := s.bills[b].order, Settle(s, b, payment, true), HandlePayment(s, b, payment, true).state;
    HandlePaymentKeepsPayments(s, b, payment);
    PaymentSettled(s, b, payment);
    PaymentTotals(s, b, payment);
    PaymentNotOverpaid(s, b, payment);
    forall p | 0 <= p < |s'.orders| ensures Within(s'.bills, p, s'.orders[p]) {
      assert Within(s.bills, p, s.orders[p]);
      KeptCommitted(s, s', p);
    }
  }

  lemma PaymentTotals(s: State, b: nat, payment: Option<nat>)
    requires b < |s.bills| && s.bills[b].status.BillPending? && s.bills[b].kind.Payment?
    requires HandlePayment(s, b, payment, true).Commit?
    ensures var o, s' := s.bills[b].order, HandlePayment(s, b, payment, true).state;
      && |s'.orders| == |s.orders| && (forall p :: 0 <= p < |s.orders| && p != o ==> s'.orders[p] == s.orders[p])
      && o < |s.orders| && !s.orders[o].status.OrderCanceled?
      && s'.orders[o].total == s.orders[o].total && s'.orders[o].paid == s.orders[o].paid + s.bills[b].amount
  {
  }

  /** A settled refund moves its order among the late statuses and touches no other order. */
  lemma RefundKeepsOrders(s: State, b: nat, payment: Option<nat>, i: nat)
    requires Ready(s, b, i) && HandlePayment(s, b, payment, true).Commit?
    ensures var s' := HandlePayment(s, b, payment, true).state;
      && |s'.orders| == |s.orders|
      && forall o :: 0 <= o < |s.orders| ==>
           && s'.orders[o].total == s.orders[o].total && s'.orders[o].originalTotal == s.orders[o].originalTotal
           && s'.orders[o].paid == s.orders[o].paid
           && (s'.orders[o].status == s.orders[o].status || (Late(s.orders[o].status) && Late(s'.orders[o].status)))
  {
  }

  lemma RefundKeepsPayments(s: State, b: nat, payment: Option<nat>, i: nat)
    requires Ready(s, b, i) && HandlePayment(s, b, payment, true).Commit?
    ensures PaymentsKept(s, HandlePayment(s, b, payment, true).state)
  {
    RefundKeepsOrders(s, b, payment, i);
    assert HandlePayment(s, b, payment, true).state.bills == s.bills[b := SettledBill(s.bills[b], payment, true)];
  }

  lemma RefundBounded(s: State, b: nat, payment: Option<nat>, i: nat)
    requires BillsOk(s) && Bounded(s) && Ready(s, b, i) && HandlePayment(s, b, payment, true).Commit?
    ensures Bounded(HandlePayment(s, b, payment, true).state)
  {
    RefundKeepsPayments(s, b, payment, i);
    RefundKeepsOrders(s, b, payment, i);
    var s' := HandlePayment(s, b, payment, true).state;
    forall o | 0 <= o < |s.orders| ensures Within(s.bills, o, s'.orders[o]) {
      assert Within(s.bills, o, s.orders[o]);
    }
    BoundedKept(s, HandlePayment(s, b, payment, true).state);
  }

  lemma HandlePaymentBounded(s: State, b: nat, payment: Option<nat>, ok: bool)
    requires Inv(s) && Bounded(s) && HandlePayment(s, b, payment, ok).Commit?
    ensures Bounded(HandlePayment(s, b, payment, ok).state)
  {
    if s.bills[b].status.BillPending? {
      if !ok {
        BoundedKept(s, Settle(s, b, payment, false));
      } else if s.bills[b].kind.Payment? {
        PaymentBounded(s, b, payment);
      } else {
        RefundStarts(s, b, s.bills[b].item.value);
        RefundBounded(s, b, payment, s.bills[b].item.value);
      }
    }
  }

  /** Fulfilment leaves bills, totals and overpayment alone. */
  lemma GenerateStatus(s: State, o: nat, lookup: nat -> Lookup)
    requires Inv(s) && Bounded(s) && HandleGenerate(s, o, lookup).Commit? && Generate(s, o, lookup).Generated?
    ensures var s' := HandleGenerate(s, o, lookup).state;
      && s'.bills == s.bills && o < |s.orders| == |s'.orders| && !s'.orders[o].status.PendingRefund?
      && s.orders[o].paid <= Sum(s.bills, CommittedPayment(o)) <= s.orders[o].total
      && s'.orders == s.orders[o := s.orders[o].(status := s'.orders[o].status, itemsCount := s'.orders[o].itemsCount)]
      && (Reached(s'.orders[o].status) ==> Reached(s.orders[o].status))
  {
    var s1 := s.(tickets := Generate(s, o, lookup).tickets);
    GenerateWrites(s, o, lookup);
    TicketedKeeps(s, s1, o);
    FulfilledKeeps(s1, o);
    assert Within(s.bills, o, s.orders[o]) && MoneyOk(s, o, NONE);
    PaidWithinCommitted(s, o);
    RecalculateWithinTotal(s1.(items := BulkItems(s1.items, o, ItemPaid, Fulfilled)), o);
  }

  /** Only the status of one order changed, to one past its payment only if it was past it before. */
  lemma OneStatusKept(s: State, s': State, o: nat)
    requires BillsOk(s) && Bounded(s) && o < |s.orders| == |s'.orders| && s'.bills == s.bills
    requires s'.orders
          == s.orders[o := s.orders[o].(status := s'.orders[o].status, itemsCount := s'.orders[o].itemsCount)]
    requires s.orders[o].paid <= Sum(s.bills, CommittedPayment(o)) <= s.orders[o].total
    requires Reached(s'.orders[o].status) ==> Reached(s.orders[o].status)
    requires !s'.orders[o].status.PendingRefund?
    ensures Bounded(s')
  {
    forall p | 0 <= p < |s.orders| ensures Within(s.bills, p, s'.orders[p]) {
      assert Within(s.bills, p, s.orders[p]);
    }
    BoundedKept(s, s');
  }

  lemma GenerateBounded(s: State, o: nat, lookup: nat -> Lookup)
    requires Inv(s) && Bounded(s) && HandleGenerate(s, o, lookup).Commit?
    ensures Bounded(HandleGenerate(s, o, lookup).state)
  {
    if Generate(s, o, lookup).Generated? {
      var s' := HandleGenerate(s, o, lookup).state;
      GenerateStatus(s, o, lookup);
      OneStatusKept(s, s', o);
    }
  }

  lemma CreateBillCommitted(s: State, o: nat, amount: int)
    requires BillsOk(s) && RefundPhases(s) && BoundedBills(s) && CreateBill(s, o, amount).Commit?
    ensures BoundedBills(CreateBill(s, o, amount).state)
  {
    var s' := CreateBill(s, o, amount).state;
    CommittedAnyIsPayment(s, o);
    forall p | 0 <= p < |s'.orders| ensures Within(s'.bills, p, s'.orders[p]) {
      assert Within(s.bills, p, s.orders[p]);
      BillAdded(s.bills, s'.bills[|s.bills|], p);
    }
  }

  /** Only an order that costs something has room for another bill. */
  lemma CreateBillRoom(s: State, o: nat, amount: int)
    requires BillsOk(s) && RefundPhases(s) && ItemsOk(s) && Money(s, NONE)
    requires amount > 0 && CreateBill(s, o, amount).Commit?
    ensures s.orders[o].originalTotal > 0
  {
    CommittedAnyIsPayment(s, o);
    assert MoneyOk(s, o, NONE);
    TotalAtMostOriginal(s, o);
    SumNonNegative(s.bills, CommittedPayment(o));
  }

  lemma CreateBillProper(s: State, o: nat, amount: int)
    requires BillsOk(s) && ProperBills(s) && SettledOrders(s) && CreateBill(s, o, amount).Commit?
    requires amount > 0 && s.orders[o].originalTotal > 0
    ensures ProperBills(CreateBill(s, o, amount).state) && SettledOrders(CreateBill(s, o, amount).state)
  {
  }

  lemma CreateBillBounded(s: State, o: nat, amount: int)
    requires Inv(s) && Bounded(s) && amount > 0 && CreateBill(s, o, amount).Commit?
    ensures Bounded(CreateBill(s, o, amount).state)
  {
    CreateBillCommitted(s, o, amount);
    CreateBillRoom(s, o, amount);
    CreateBillProper(s, o, amount);
  }

  lemma AddOrderBounded(s: State, r: AddOrderRequest, now: int, serial: nat)
    requires Inv(s) && Bounded(s) && AddOrder(s, r, now, serial).Commit?
    ensures Bounded(AddOrder(s, r, now, serial).state)
  {
    var s' := AddOrder(s, r, now, serial).state;
    var added := Build(s.stocks, r.details, now, |s.orders|, |s.items|).value.items;
    AddOrderAdds(s, r, now, serial);
    AddsCommitted(s, s', added);
    SumNonNegative(added, Price());
    AddsProper(s, s', added);
    AddsSettled(s, s', added);
  }

  lemma AddsCommitted(s: State, s': State, added: seq<Item>)
    requires BillsOk(s) && BoundedBills(s) && Adds(s, s', added)
    ensures BoundedBills(s')
  {
    forall p | 0 <= p < |s'.orders| ensures Within(s'.bills, p, s'.orders[p]) {
      BillAdded(s.bills, s'.bills[|s.bills|], p);
      if p == |s.orders| {
        NoBills(s.bills, p);
      } else {
        assert s'.orders[p] == s.orders[p] && Within(s.bills, p, s.orders[p]);
      }
    }
  }

  lemma AddsProper(s: State, s': State, added: seq<Item>)
    requires BillsOk(s) && ProperBills(s) && Adds(s, s', added) && Sum(added, Price()) >= 0
    ensures ProperBills(s')
  {
    var o, b := |s.orders|, |s.bills|;
    assert forall p :: 0 <= p < o ==> s'.orders[p] == s.orders[p];
    assert forall c :: 0 <= c < b ==> s'.bills[c] == s.bills[c] && s.bills[c].order < o;
    assert s'.bills[b].order == o && s'.bills[b].amount == s'.orders[o].originalTotal;
  }

  lemma AddsSettled(s: State, s': State, added: seq<Item>)
    requires BillsOk(s) && SettledOrders(s) && Adds(s, s', added)
    ensures SettledOrders(s')
  {
    assert forall p :: 0 <= p < |s.orders| ==> s'.orders[p] == s.orders[p];
  }

  /** These steps add no payment, settle none as Paid and leave totals alone, or cancel what was unpaid. */
  predicate Quiet(step: Step) {
    step.DoCancelBill? || step.DoCancelOrder? || step.DoCreateRefundBill? || step.DoMarkUsed? || step.DoExpire?
  }

  lemma QuietKeepsPayments(s: State, step: Step)
    requires Quiet(step) && Apply(s, step).Commit?
    ensures PaymentsKept(s, Next(s, step))
    ensures forall o :: 0 <= o < |s.orders| ==>
              Next(s, step).orders[o].total == s.orders[o].total && Next(s, step).orders[o].paid == s.orders[o].paid
    ensures forall o :: 0 <= o < |s.orders| && !step.DoCreateRefundBill? ==>
              Next(s, step).orders[o].status == s.orders[o].status || Next(s, step).orders[o].status.OrderCanceled?
  {
  }

  lemma QuietStepBounded(s: State, step: Step)
    requires BillsOk(s) && Money(s, NONE) && Bounded(s) && Quiet(step) && Apply(s, step).Commit?
    requires step.DoCreateRefundBill? ==> Next(s, step).orders == s.orders
    ensures Bounded(Next(s, step))
  {
    QuietKeepsPayments(s, step);
    forall o | 0 <= o < |s.orders| ensures Within(s.bills, o, s.orders[o]) && s.orders[o].paid <= s.orders[o].total {
      assert MoneyOk(s, o, NONE);
      PaidWithinTotal(s, o);
    }
    BoundedKept(s, Next(s, step));
  }

  lemma CancelItemBounded(s: State, i: nat, o: nat)
    requires Inv(s) && Bounded(s) && ChangeItem(s, i, o, ItemCanceled).Commit? && BillGuard(s, DoCancelItem(i, o))
    ensures Bounded(ChangeItem(s, i, o, ItemCanceled).state)
  {
    if LastSeat(s.items, i, o) && s.orders[o].paid == 0 {
      LastSeatBounded(s, i, o);
    } else {
      ChangeItemBounded(s, i, o, ItemCanceled);
    }
  }

  /** Steps whose seat cancellations respect the bills keep them bounded. */
  lemma StepBounded(s: State, step: Step)
    requires Inv(s) && Bounded(s) && Admissible(step) && BillGuard(s, step)
    ensures Bounded(Next(s, step))
  {
    if Apply(s, step).Commit? {
      match step {
        case DoAddOrder(r, now, serial) => AddOrderBounded(s, r, now, serial);
        case DoCreateBill(o, amount) => CreateBillBounded(s, o, amount);
        case DoCancelBill(b) => QuietStepBounded(s, step);
        case DoCancelOrder(o) => QuietStepBounded(s, step);
        case DoCancelItem(i, o) => CancelItemBounded(s, i, o);
        case DoRequestReturn(i, o) => ChangeItemBounded(s, i, o, ReturnRequested);
        case DoApproveReturn(i, o) => ChangeItemBounded(s, i, o, ReturnApproved);
        case DoRejectReturn(i, o) => ChangeItemBounded(s, i, o, Fulfilled);
        case DoCreateRefundBill(i, amount) => RefundOrdersUnchanged(s, i, amount); QuietStepBounded(s, step);
        case DeliverPayment(b, payment, ok) => HandlePaymentBounded(s, b, payment, ok);
        case DeliverGenerate(o, lookup) => GenerateBounded(s, o, lookup);
        case DoMarkUsed(t, at) => QuietStepBounded(s, step);
        case DoExpire(now) => QuietStepBounded(s, step);
      }
    }
  }
}
