/** The bill guard is exact: against it an order can be overpaid, with it none can. */
module Overpayment {
  import opened Options
  import opened Sums
  import opened Entities
  import opened Lifecycle
  import opened Invariants
  import opened ItemSums
  import opened Recalculation
  import opened ItemSteps
  import opened MessageSteps
  import opened Evolution
  import opened Runs
  import opened Billing
  import opened GuardedRuns

  predicate Overpaid(s: State, o: nat) {
    o < |s.orders| && s.orders[o].paid > s.orders[o].total
  }

  // ---- delivering what is pending ----

  /** The order still takes payments, is not overpaid, and more was billed than it costs. */
  ghost predicate Overbilled(s: State, o: nat) {
    && Inv(s) && o < |s.orders| && Sum(s.bills, CommittedPayment(o)) > s.orders[o].total
    && (s.orders[o].status.Unpaid? || s.orders[o].status.PartiallyPaid? || s.orders[o].status.OrderPaid?)
    && (if s.orders[o].status.OrderPaid? then s.orders[o].paid == s.orders[o].total
        else s.orders[o].paid < s.orders[o].total)
  }

  /** Some payment of the order is pending and asks for something. */
  lemma PendingPayment(s: State, o: nat) returns (b: nat)
    requires BillsOk(s) && Sum(s.bills, PaidAmount(o)) < Sum(s.bills, CommittedPayment(o))
    ensures b < |s.bills| && s.bills[b].order == o && s.bills[b].kind.Payment? && s.bills[b].status.BillPending?
    ensures s.bills[b].amount > 0
  {
    SumAdd(s.bills, s.bills, s.bills, PaidAmount(o), CommittedPayment(o), StillPending(o));
    b := SumPositive(s.bills, StillPending(o));
  }

  /** A success for such an order is never turned away. */
  lemma OverbilledTakesPayment(s: State, o: nat, b: nat)
    requires Overbilled(s, o) && b < |s.bills| && s.bills[b].order == o && s.bills[b].status.BillPending?
    requires s.bills[b].kind.Payment?
    ensures HandlePayment(s, b, None, true).Commit?
  {
  }

  /** Recalculation adds at most a refund bill and leaves the order's amounts alone. */
  lemma RecalculateBills(s: State, o: nat, hasPublisher: bool)
    requires o < |s.orders| && Recalculate(s, o, hasPublisher).Commit?
    ensures var s' := Recalculate(s, o, hasPublisher).state;
      && |s'.orders| == |s.orders|
      && s'.orders[o].total == s.orders[o].total && s'.orders[o].paid == s.orders[o].paid
      && (s'.bills == s.bills
          || (|s'.bills| > 0 && s'.bills[|s'.bills| - 1].kind.Refund? && s'.bills[..|s'.bills| - 1] == s.bills))
  {
  }

  /** So it changes none of the amounts that decide about overpayment. */
  lemma RecalculateKeepsAmounts(s: State, o: nat, hasPublisher: bool)
    requires o < |s.orders| && Recalculate(s, o, hasPublisher).Commit?
    ensures var s' := Recalculate(s, o, hasPublisher).state;
      && |s'.orders| == |s.orders|
      && s'.orders[o].total == s.orders[o].total && s'.orders[o].paid == s.orders[o].paid
      && Sum(s'.bills, CommittedPayment(o)) == Sum(s.bills, CommittedPayment(o))
  {
    RecalculateBills(s, o, hasPublisher);
    var bills := Recalculate(s, o, hasPublisher).state.bills;
    if bills != s.bills {
      RefundAdded(bills, o);
    }
  }

  lemma RefundAdded(bills: seq<Bill>, o: nat)
    requires |bills| > 0 && bills[|bills| - 1].kind.Refund?
    ensures Sum(bills, CommittedPayment(o)) == Sum(bills[..|bills| - 1], CommittedPayment(o))
  {
  }

  /** A success moves the bill from pending to paid and credits its order, whose total stays. */
  lemma PaymentCredits(s: State, b: nat)
    requires b < |s.bills| && s.bills[b].status.BillPending? && s.bills[b].kind.Payment?
    requires HandlePayment(s, b, None, true).Commit?
    ensures var o, s' := s.bills[b].order, HandlePayment(s, b, None, true).state;
      && o < |s.orders| == |s'.orders| && s'.orders[o].total == s.orders[o].total
      && s'.orders[o].paid == s.orders[o].paid + s.bills[b].amount
      && Sum(s'.bills, CommittedPayment(o)) == Sum(s.bills, CommittedPayment(o))
  {
    var o, s1 := s.bills[b].order, Settle(s, b, None, true);
    BillMoves(s.bills, b, s1.bills[b], o);
    RecalculateKeepsAmounts(s1, o, true);
  }

  /** From an overbilled order a success leads to Paid when it pays in full, and otherwise not there. */
  lemma PaymentStatus(s: State, o: nat)
    requires InvX(s, o) && o < |s.orders| && Recalculate(s, o, true).Commit?
    requires s.orders[o].status.Unpaid? || s.orders[o].status.PartiallyPaid?
    requires 0 < s.orders[o].paid <= s.orders[o].total
    ensures var st := Recalculate(s, o, true).state.orders[o].status;
      if s.orders[o].paid == s.orders[o].total then st.OrderPaid? else st.Unpaid? || st.PartiallyPaid?
  {
    assert MoneyOk(s, o, o);
    LiveFromPrice(s, o);
  }

  /** Delivering it leaves the order overpaid, or overbilled with more paid. */
  lemma PaymentGoesOn(s: State, o: nat, b: nat)
    requires Overbilled(s, o) && b < |s.bills| && s.bills[b].order == o && s.bills[b].status.BillPending?
    requires s.bills[b].kind.Payment? && s.bills[b].amount > 0 && HandlePayment(s, b, None, true).Commit?
    ensures var s' := HandlePayment(s, b, None, true).state; Overpaid(s', o) || Overbilled(s', o)
  {
    var s1, s' := Settle(s, b, None, true), HandlePayment(s, b, None, true).state;
    PaymentCredits(s, b);
    if !Overpaid(s', o) {
      assert MoneyOk(s, o, NONE);
      SumNonNegative(s.bills, PaidAmount(o));
      PaidKeeps(s, b, None);
      PaymentStatus(s1, o);
      HandlePaymentKeeps(s, b, None, true);
    }
  }

  ghost predicate OnlyDeliveries(steps: seq<Step>) {
    forall n :: 0 <= n < |steps| ==> steps[n].DeliverPayment?
  }

  lemma DeliveryRuns(s0: State, before: seq<Step>, s: State, b: nat)
    requires s == Run(s0, before) && HandlePayment(s, b, None, true).Commit?
    ensures Run(s0, before + [DeliverPayment(b, None, true)]) == HandlePayment(s, b, None, true).state
  {
    RunMore(s0, before, DeliverPayment(b, None, true));
  }

  /** Delivering the pending payments one by one overpays an overbilled order. */
  lemma {:induction false} DeliveriesOverpay(s0: State, before: seq<Step>, s: State, o: nat) returns (steps: seq<Step>)
    requires OnlyDeliveries(before) && s == Run(s0, before) && Overbilled(s, o)
    ensures OnlyDeliveries(steps) && Overpaid(Run(s0, steps), o)
    decreases Sum(s.bills, CommittedPayment(o)) - s.orders[o].paid
  {
    assert MoneyOk(s, o, NONE);
    var b := PendingPayment(s, o);
    OverbilledTakesPayment(s, o, b);
    var s' := HandlePayment(s, b, None, true).state;
    PaymentCredits(s, b);
    PaymentGoesOn(s, o, b);
    DeliveryRuns(s0, before, s, b);
    steps := before + [DeliverPayment(b, None, true)];
    if !Overpaid(s', o) {
      steps := DeliveriesOverpay(s0, steps, s', o);
    }
  }

  // ---- the guard ----

  /** What the steps after the cancellation are allowed to be: anything whose own seat cancellations keep the guard. */
  predicate BillGuards(s: State, step: Step) {
    Admissible(step) && BillGuard(s, step)
  }

  ghost predicate OverpaysBy(s: State, steps: seq<Step>, o: nat, guard: (State, Step) -> bool) {
    RunMeets(s, steps, guard) && Overpaid(Run(s, steps), o)
  }

  /** Some run from s, all of whose steps meet the guard, overpays the order. */
  ghost predicate CanOverpay(s: State, o: nat, guard: (State, Step) -> bool) {
    exists steps :: OverpaysBy(s, steps, o, guard)
  }

  predicate Delivers(s: State, step: Step) {
    step.DeliverPayment?
  }

  lemma {:induction false} DeliveriesMeet(s: State, steps: seq<Step>)
    requires OnlyDeliveries(steps)
    ensures RunMeets(s, steps, Delivers)
  {
    if |steps| != 0 {
      DeliveriesMeet(s, steps[..|steps| - 1]);
    }
  }

  lemma {:induction false} GuardedStaysBounded(s: State, steps: seq<Step>)
    requires Inv(s) && Bounded(s) && RunMeets(s, steps, BillGuards)
    ensures Inv(Run(s, steps)) && Bounded(Run(s, steps))
  {
    if |steps| != 0 {
      var front, last := steps[..|steps| - 1], steps[|steps| - 1];
      GuardedStaysBounded(s, front);
      StepKeeps(Run(s, front), last);
      StepBounded(Run(s, front), last);
    }
  }

  lemma {:induction false} DeliveriesAreGuarded(s: State, steps: seq<Step>)
    requires RunMeets(s, steps, Delivers)
    ensures RunMeets(s, steps, BillGuards)
  {
    if |steps| != 0 {
      DeliveriesAreGuarded(s, steps[..|steps| - 1]);
    }
  }

  lemma BoundedCannotOverpay(s: State, o: nat)
    requires Inv(s) && Bounded(s)
    ensures !CanOverpay(s, o, BillGuards) && !CanOverpay(s, o, Delivers)
  {
    forall steps ensures !OverpaysBy(s, steps, o, BillGuards) && !OverpaysBy(s, steps, o, Delivers) {
      if RunMeets(s, steps, Delivers) {
        DeliveriesAreGuarded(s, steps);
      }
      if RunMeets(s, steps, BillGuards) {
        GuardedStaysBounded(s, steps);
        BoundedIsNotOverpaid(Run(s, steps));
      }
    }
  }

  /** A cancellation against the guard leaves the order overpaid, or overbilled and open to payments. */
  lemma UnguardedCancellation(s: State, i: nat, o: nat)
    requires Inv(s) && Bounded(s) && ChangeItem(s, i, o, ItemCanceled).Commit? && !BillGuard(s, DoCancelItem(i, o))
    ensures var s' := ChangeItem(s, i, o, ItemCanceled).state; Overpaid(s', o) || Overbilled(s', o)
  {
    var s1, s' := ItemEffect(s, i, o, ItemCanceled), ChangeItem(s, i, o, ItemCanceled).state;
    assert MoneyOk(s, o, NONE) && Fits(s.items[i].status, s.orders[o].status);
    EffectKeeps(s, i, o, ItemCanceled);
    RecalculateKeepsAmounts(s1, o, false);
    if !Overpaid(s', o) {
      ChangeItemKeeps(s, i, o, ItemCanceled);
      StillOpen(s, i, o);
    }
  }

  /** When every seat is canceled nothing is owed any more, so without the guard something was paid. */
  lemma LastSeatOverpays(s: State, i: nat, o: nat)
    requires Inv(s) && ChangeItem(s, i, o, ItemCanceled).Commit? && !BillGuard(s, DoCancelItem(i, o))
    requires AllCanceled(ItemEffect(s, i, o, ItemCanceled).items, o)
    ensures s.orders[o].paid > s.orders[o].total - s.items[i].price
  {
    var s1 := ItemEffect(s, i, o, ItemCanceled);
    EffectKeeps(s, i, o, ItemCanceled);
    assert MoneyOk(s, o, NONE) && MoneyOk(s1, o, o) && Fits(s.items[i].status, s.orders[o].status);
    SumNonNegative(s.bills, PaidAmount(o));
    SumZero(s1.items, LivePrice(o));
    forall j | 0 <= j < |s.items| && j != i && s.items[j].order == o ensures s.items[j].status.ItemCanceled? {
      assert s1.items[j] == s.items[j];
    }
  }

  lemma StillOpen(s: State, i: nat, o: nat)
    requires Inv(s) && Bounded(s) && ChangeItem(s, i, o, ItemCanceled).Commit? && !BillGuard(s, DoCancelItem(i, o))
    requires s.orders[o].paid <= s.orders[o].total - s.items[i].price
    ensures var s' := ChangeItem(s, i, o, ItemCanceled).state;
      && (s'.orders[o].status.Unpaid? || s'.orders[o].status.PartiallyPaid?)
      && s'.orders[o].paid < s'.orders[o].total
  {
    assert MoneyOk(s, o, NONE) && Fits(s.items[i].status, s.orders[o].status);
    if AllCanceled(ItemEffect(s, i, o, ItemCanceled).items, o) {
      LastSeatOverpays(s, i, o);
    }
  }

  lemma OverpayingDeliveries(s: State, o: nat) returns (steps: seq<Step>)
    requires Overpaid(s, o) || Overbilled(s, o)
    ensures OnlyDeliveries(steps) && Overpaid(Run(s, steps), o)
  {
    steps := [];
    if !Overpaid(s, o) {
      steps := DeliveriesOverpay(s, [], s, o);
    }
  }

  lemma ExactAt(s: State, i: nat, o: nat, s': State)
    requires Inv(s) && Bounded(s) && ChangeItem(s, i, o, ItemCanceled) == Commit(s')
    ensures CanOverpay(s', o, BillGuards) <==> !BillGuard(s, DoCancelItem(i, o))
    ensures CanOverpay(s', o, Delivers) <==> !BillGuard(s, DoCancelItem(i, o))
  {
    if BillGuard(s, DoCancelItem(i, o)) {
      ChangeItemKeeps(s, i, o, ItemCanceled);
      CancelItemBounded(s, i, o);
      BoundedCannotOverpay(s', o);
    } else {
      UnguardedCancellation(s, i, o);
      var steps := OverpayingDeliveries(s', o);
      DeliveriesMeet(s', steps);
      DeliveriesAreGuarded(s', steps);
      assert OverpaysBy(s', steps, o, BillGuards) && OverpaysBy(s', steps, o, Delivers);
    }
  }

  /**
   * The bill guard is exact. When a seat is canceled after a guarded run, further guarded steps can overpay its order
   * if and only if the guard did not hold at the cancellation; and if they can, deliveries of payment results
   * alone can.
   */
  lemma BillGuardIsExact(s0: State, s: State, i: nat, o: nat, s': State)
    requires ReachableUnder(s0, s, BillGuards) && ChangeItem(s, i, o, ItemCanceled) == Commit(s')
    ensures CanOverpay(s', o, BillGuards) <==> !BillGuard(s, DoCancelItem(i, o))
    ensures CanOverpay(s', o, Delivers) <==> !BillGuard(s, DoCancelItem(i, o))
  {
    var steps :| Follows(s0, steps, s, BillGuards);
    InitialCovered(s0);
    GuardedStaysBounded(s0, steps);
    ExactAt(s, i, o, s');
  }
}
