/** What a payment result does to its bill, and that a refund pays out what was asked for. */
module Settlement {
  import opened Options
  import opened Entities
  import opened Lifecycle
  import opened Invariants
  import opened BillSteps
  import opened MessageSteps
  import opened Runs
  import opened Outcomes

  // ---- results ----

  lemma RecalculateAddsBills(s: State, o: nat, hasPublisher: bool)
    requires o < |s.orders| && Recalculate(s, o, hasPublisher).Commit?
    ensures s.bills <= Recalculate(s, o, hasPublisher).state.bills
  {
  }

  lemma BillOrderSound(s: State, b: nat)
    requires Reachable(s) && b < |s.bills|
    ensures s.bills[b].order < |s.orders| && ReturnsOk(s, s.bills[b].order, NONE)
  {
    ReachableInv(s);
  }

  lemma PaymentDecided(s: State, b: nat, payment: Option<nat>)
    requires b < |s.bills| && s.bills[b].status.BillPending? && s.bills[b].kind.Payment?
    requires s.bills[b].order < |s.orders| && ReturnsOk(s, s.bills[b].order, NONE)
    ensures var status := s.orders[s.bills[b].order].status;
      HandlePayment(s, b, payment, true).Commit? <==> !status.OrderCanceled? && !status.OrderReturned?
  {
    var o, m := s.bills[b].order, Settle(s, b, payment, true);
    assert HasOpen(m.items, o) == HasOpen(s.items, o);
  }

  /** A pending payment is taken exactly while its order is neither Canceled nor returned as a whole. */
  lemma PaymentTakenIff(s: State, b: nat, payment: Option<nat>)
    requires Reachable(s) && b < |s.bills| && s.bills[b].status.BillPending? && s.bills[b].kind.Payment?
    ensures s.bills[b].order < |s.orders|
    ensures var status := s.orders[s.bills[b].order].status;
      Apply(s, DeliverPayment(b, payment, true)).Commit? <==> !status.OrderCanceled? && !status.OrderReturned?
  {
    BillOrderSound(s, b);
    PaymentDecided(s, b, payment);
  }

  /**
   * Any other result: for an unknown bill it fails, for a settled one it is skipped, a failure is always taken, and the
   * success of a refund that names no item never is.
   */
  lemma OtherResults(s: State, b: nat, payment: Option<nat>, ok: bool)
    ensures b >= |s.bills| ==> Apply(s, DeliverPayment(b, payment, ok)).Abort?
    ensures b < |s.bills| && !s.bills[b].status.BillPending? ==> Apply(s, DeliverPayment(b, payment, ok)) == Commit(s)
    ensures b < |s.bills| && s.bills[b].status.BillPending? && !ok ==> Apply(s, DeliverPayment(b, payment, ok)).Commit?
    ensures b < |s.bills| && s.bills[b].status.BillPending? && ok ==>
              (s.bills[b].kind.Refund? && s.bills[b].item.None? ==> Apply(s, DeliverPayment(b, payment, ok)).Abort?)
  {
  }

  /** The status a result gives its bill. */
  function ResultStatus(kind: BillKind, ok: bool): BillStatus {
    match kind
    case Payment => if ok then BillPaid else BillFailed
    case Refund => if ok then BillRefunded else BillFailed
  }

  /** The bill keeps the result and the payment it came from; other bills stay, and after a failure everything does. */
  ghost predicate Recorded(s: State, b: nat, payment: Option<nat>, ok: bool, s1: State)
    requires b < |s.bills|
  {
    && |s.bills| <= |s1.bills|
    && s1.bills[b] == s.bills[b].(status := ResultStatus(s.bills[b].kind, ok), payment := payment)
    && (forall c :: 0 <= c < |s.bills| && c != b ==> s1.bills[c] == s.bills[c])
    && (!ok ==> s1 == s.(bills := s1.bills) && |s1.bills| == |s.bills|)
  }

  lemma ResultRecorded(s: State, b: nat, payment: Option<nat>, ok: bool, s1: State)
    requires b < |s.bills| && s.bills[b].status.BillPending? && s.bills[b].payment.None?
    requires HandlePayment(s, b, payment, ok) == Commit(s1)
    ensures Recorded(s, b, payment, ok, s1)
  {
    var o, m := s.bills[b].order, Settle(s, b, payment, ok);
    if ok && s.bills[b].kind.Payment? {
      RecalculateAddsBills(m, o, true);
    } else if ok {
      RecalculateAddsBills(SetItem(m, s.bills[b].item.value, ItemReturned), o, false);
    }
  }

  /** A handled result is recorded in its bill, for good. */
  lemma ResultStands(s: State, b: nat, payment: Option<nat>, ok: bool, s1: State, s2: State)
    requires Reachable(s) && b < |s.bills| && s.bills[b].status.BillPending?
    requires Apply(s, DeliverPayment(b, payment, ok)) == Commit(s1) && Leads(s1, s2)
    ensures Recorded(s, b, payment, ok, s1)
    ensures b < |s2.bills| && s2.bills[b] == s1.bills[b]
  {
    ReachableInv(s);
    ResultRecorded(s, b, payment, ok, s1);
    HandlePaymentKeeps(s, b, payment, ok);
    var steps :| Goes(s1, steps, s2);
    RunIsLater(s1, steps);
  }

  // ---- refunds ----

  /** One new bill orders the refund of this item and this amount, and the payment service is told to pay it out. */
  ghost predicate RefundOrdered(s: State, i: nat, amount: int, s1: State)
    requires i < |s.items|
  {
    && |s1.bills| == |s.bills| + 1 && s.bills <= s1.bills
    && (var bill := s1.bills[|s.bills|];
        && bill.id == |s.bills| && bill.order == s.items[i].order && bill.item == Some(i) && bill.amount == amount
        && bill.kind.Refund? && bill.status.BillPending? && bill.hasMethod)
    && s1.outbox == s.outbox + [PaymentEvent(RefundAction, |s.bills|)]
  }

  /** A refund is ordered as it was asked for; its item is approved, and nothing else changes. */
  lemma RefundAsRequested(s: State, i: nat, amount: int, s1: State)
    requires Reachable(s) && Apply(s, DoCreateRefundBill(i, amount)) == Commit(s1)
    ensures i < |s.items| && RefundOrdered(s, i, amount, s1)
    ensures s1.items == s.items[i := s.items[i].(status := ReturnApproved)]
    ensures s1.orders == s.orders && s1.stocks == s.stocks && s1.tickets == s.tickets
  {
    ReachableInv(s);
    RefundOrdersUnchanged(s, i, amount);
  }

  /** The bill an order for a refund wrote keeps its order, item and amount in every later database. */
  lemma RefundBillStays(s: State, i: nat, amount: int, s1: State, s2: State)
    requires Inv(s) && CreateRefundBill(s, i, amount) == Commit(s1) && Leads(s1, s2)
    ensures |s.bills| < |s2.bills| && i < |s.items|
    ensures var bill := s2.bills[|s.bills|];
      bill.order == s.items[i].order && bill.item == Some(i) && bill.amount == amount && bill.kind.Refund?
  {
    CreateRefundBillKeeps(s, i, amount);
    var steps :| Goes(s1, steps, s2);
    RunIsLater(s1, steps);
  }

  lemma RefundReturnsItem(s: State, b: nat, payment: Option<nat>, i: nat, s1: State)
    requires b < |s.bills| && s.bills[b].status.BillPending? && s.bills[b].kind.Refund? && s.bills[b].item == Some(i)
    requires HandlePayment(s, b, payment, true) == Commit(s1)
    ensures i < |s.items| && s1.items == s.items[i := s.items[i].(status := ItemReturned)]
  {
    RecalculateItems(SetItem(Settle(s, b, payment, true), i, ItemReturned), s.bills[b].order);
  }

  /**
   * However much later its success is delivered, a refund adds exactly the amount that was asked for to what its order
   * got back, nothing to any other order, and returns its item.
   */
  lemma RefundPaysExactly(s: State, i: nat, amount: int, s1: State, s2: State, payment: Option<nat>, s3: State, o: nat)
    requires Reachable(s) && Apply(s, DoCreateRefundBill(i, amount)) == Commit(s1) && Leads(s1, s2)
    requires |s.bills| < |s2.bills| && s2.bills[|s.bills|].status.BillPending? && o < |s2.orders|
    requires Apply(s2, DeliverPayment(|s.bills|, payment, true)) == Commit(s3)
    ensures i < |s.items| && o < |s3.orders|
    ensures s3.orders[o].returned == s2.orders[o].returned + if o == s.items[i].order then amount else 0
    ensures s3.orders[o].paid == s2.orders[o].paid
    ensures i < |s3.items| && s3.items[i].status.ItemReturned?
  {
    ReachableInv(s);
    RefundBillStays(s, i, amount, s1, s2);
    LedgerMoves(s2, DeliverPayment(|s.bills|, payment, true), s3, o);
    RefundReturnsItem(s2, |s.bills|, payment, i, s3);
  }
}
