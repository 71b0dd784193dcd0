/** Whole runs whose steps respect the guards, and that each guard is exactly what its step needs. */
module GuardedRuns {
  import opened Options
  import opened Sums
  import opened Entities
  import opened Lifecycle
  import opened Invariants
  import opened ItemSteps
  import opened MessageSteps
  import opened Evolution
  import opened Coverage
  import opened Conservation
  import opened Billing

  /** Every step of the run meets the guard in the database it is taken in. */
  ghost predicate RunMeets(s: State, steps: seq<Step>, guard: (State, Step) -> bool) {
    |steps| == 0
    || (RunMeets(s, steps[..|steps| - 1], guard) && guard(Run(s, steps[..|steps| - 1]), steps[|steps| - 1]))
  }

  ghost predicate Follows(s0: State, steps: seq<Step>, s: State, guard: (State, Step) -> bool) {
    Initial(s0) && RunMeets(s0, steps, guard) && s == Run(s0, steps)
  }

  /** Some run from s0 whose steps all meet the guard leads to s. */
  ghost predicate ReachableUnder(s0: State, s: State, guard: (State, Step) -> bool) {
    exists steps :: Follows(s0, steps, s, guard)
  }

  /** Rejections of requested returns only, and no payment success for an order that is already Paid. */
  predicate StatusGuards(s: State, step: Step) {
    Admissible(step) && Guarded(s, step)
  }

  /** Also: whole orders are canceled only before any of their seats was. */
  predicate SeatGuards(s: State, step: Step) {
    StatusGuards(s, step) && CancelGuard(s, step)
  }

  /** What the callers decide: the payment guard is replaced by a bound on the bills when a seat is canceled. */
  predicate CallerGuards(s: State, step: Step) {
    Admissible(step) && RejectGuard(s, step) && CancelGuard(s, step) && BillGuard(s, step)
  }

  lemma InitialCovered(s: State)
    requires Initial(s)
    ensures Inv(s) && Covered(s) && Bounded(s)
  {
    InitialInv(s);
  }

  lemma {:induction false} StatusRun(s: State, steps: seq<Step>)
    requires Inv(s) && Covered(s) && RunMeets(s, steps, StatusGuards)
    ensures Inv(Run(s, steps)) && Covered(Run(s, steps))
  {
    if |steps| != 0 {
      var front, last := steps[..|steps| - 1], steps[|steps| - 1];
      StatusRun(s, front);
      StepKeeps(Run(s, front), last);
      StepCovers(Run(s, front), last);
    }
  }

  lemma {:induction false} SeatRunIsStatusRun(s: State, steps: seq<Step>)
    requires RunMeets(s, steps, SeatGuards)
    ensures RunMeets(s, steps, StatusGuards)
  {
    if |steps| != 0 {
      SeatRunIsStatusRun(s, steps[..|steps| - 1]);
    }
  }

  lemma {:induction false} SeatRun(s: State, steps: seq<Step>)
    requires Inv(s) && Covered(s) && RunMeets(s, steps, SeatGuards)
    ensures Conserves(s, Run(s, steps))
  {
    if |steps| != 0 {
      var front, last := steps[..|steps| - 1], steps[|steps| - 1];
      SeatRun(s, front);
      SeatRunIsStatusRun(s, front);
      StatusRun(s, front);
      StepConserves(Run(s, front), last);
    }
  }

  /** Callers who bound the bills never see a payment arrive for a Paid order. */
  lemma {:induction false} CallerRunIsSeatRun(s: State, steps: seq<Step>)
    requires Inv(s) && Bounded(s) && RunMeets(s, steps, CallerGuards)
    ensures RunMeets(s, steps, SeatGuards)
    ensures Inv(Run(s, steps)) && Bounded(Run(s, steps))
  {
    if |steps| != 0 {
      var front, last := steps[..|steps| - 1], steps[|steps| - 1];
      CallerRunIsSeatRun(s, front);
      BoundedGuardsPayments(Run(s, front), last);
      StepKeeps(Run(s, front), last);
      StepBounded(Run(s, front), last);
    }
  }

  // ---- theorems over runs ----

  /**
   * Stock conservation: from any opening stock, over any guarded run, what a stock still sells plus its held seats is
   * the opening quantity, so a stock is never oversold.
   */
  lemma SeatsAreConserved(s0: State, s: State)
    requires ReachableUnder(s0, s, SeatGuards)
    ensures |s.stocks| == |s0.stocks|
    ensures forall k :: 0 <= k < |s0.stocks| ==>
              && s.stocks[k].quantity + Sum(s.items, Holds(k)) == s0.stocks[k].quantity
              && 0 <= Sum(s.items, Holds(k)) <= s0.stocks[k].quantity
  {
    var steps :| Follows(s0, steps, s, SeatGuards);
    InitialCovered(s0);
    SeatRun(s0, steps);
    SeatRunIsStatusRun(s0, steps);
    StatusRun(s0, steps);
    forall k | 0 <= k < |s0.stocks|
      ensures StockTotal(s, k) == s0.stocks[k].quantity && 0 <= Sum(s.items, Holds(k)) <= s0.stocks[k].quantity
    {
      assert StockTotal(s, k) == StockTotal(s0, k);
      SumNonNegative(s.items, Holds(k));
    }
  }

  /** No order is overpaid, and no payment is pending for an order that is already Paid. */
  ghost predicate NothingOverpaid(s: State) {
    && (forall o :: 0 <= o < |s.orders| ==> s.orders[o].paid <= s.orders[o].total && !s.orders[o].status.PendingRefund?)
    && (forall b :: 0 <= b < |s.bills| && s.bills[b].kind.Payment? && s.bills[b].status.BillPending? ==>
          s.bills[b].order < |s.orders| && !Reached(s.orders[s.bills[b].order].status))
  }

  lemma BoundedIsNotOverpaid(s: State)
    requires Inv(s) && Bounded(s)
    ensures NothingOverpaid(s)
  {
    forall o | 0 <= o < |s.orders| ensures s.orders[o].paid <= s.orders[o].total {
      assert MoneyOk(s, o, NONE);
      PaidWithinTotal(s, o);
    }
  }

  /** The callers' own guards imply the others along every run, and nothing is ever overpaid. */
  lemma CallerGuardsSuffice(s0: State, s: State)
    requires ReachableUnder(s0, s, CallerGuards)
    ensures ReachableUnder(s0, s, SeatGuards) && NothingOverpaid(s)
  {
    var steps :| Follows(s0, steps, s, CallerGuards);
    InitialCovered(s0);
    CallerRunIsSeatRun(s0, steps);
    assert Follows(s0, steps, s, SeatGuards);
    BoundedIsNotOverpaid(s);
  }

  /** The order counts its live seats, has the status its items declare, and each item has its one ticket. */
  ghost predicate CompletedExactly(s: State, o: nat)
    requires o < |s.orders|
  {
    && s.orders[o].itemsCount == Sum(s.items, LiveOne(o))
    && s.orders[o].status == Declared(s.items, o)
    && forall i :: 0 <= i < |s.items| && s.items[i].order == o ==>
         exists t :: 0 <= t < |s.tickets| && TheTicket(s, t, i)
  }

  /**
   * Once an order is Completed or later: its items count is the number of live seats, its status is what the items
   * declare, and each of its items has exactly one ticket, for the item's own stock.
   */
  lemma CompletedOrdersAreExact(s0: State, s: State, o: nat)
    requires ReachableUnder(s0, s, StatusGuards)
    ensures o < |s.orders| && Late(s.orders[o].status) ==> CompletedExactly(s, o)
  {
    var steps :| Follows(s0, steps, s, StatusGuards);
    InitialCovered(s0);
    StatusRun(s0, steps);
    if o < |s.orders| && Late(s.orders[o].status) {
      CoveredIsExact(s, o);
    }
  }

  lemma CoveredIsExact(s: State, o: nat)
    requires TicketStocks(s) && OneTicketEach(s) && o < |s.orders| && Late(s.orders[o].status) && CoveredOrder(s, o)
    ensures CompletedExactly(s, o)
  {
    forall i | 0 <= i < |s.items| && s.items[i].order == o
      ensures exists t :: 0 <= t < |s.tickets| && TheTicket(s, t, i)
    {
      assert HasTicket(s, i);
      var t :| 0 <= t < |s.tickets| && s.tickets[t].item == i;
      assert TheTicket(s, t, i);
    }
  }

  /** Ticket t is the only ticket of item i, and for the item's stock. */
  ghost predicate TheTicket(s: State, t: int, i: int)
    requires 0 <= t < |s.tickets| && 0 <= i < |s.items|
  {
    s.tickets[t].item == i && s.tickets[t].stock == s.items[i].stock
    && forall t' :: 0 <= t' < |s.tickets| && s.tickets[t'].item == i ==> t' == t
  }

  lemma ReturnStepCommits(s: State, i: nat, o: nat, to: ItemStatus)
    requires Inv(s) && Covered(s) && i < |s.items| && s.items[i].order == o
    requires to.ReturnRequested? || to.ReturnApproved? || to.Fulfilled?
    ensures ChangeItem(s, i, o, to).Commit? <==> CanChange(s.items[i].status, to)
  {
    if CanChange(s.items[i].status, to) {
      assert Fits(s.items[i].status, s.orders[o].status) && CoveredOrder(s, o);
      if s.items[i].status.ItemPaid? {
        EffectKeeps(s, i, o, to);
        RejectedPaidCompletes(ItemEffect(s, i, o, to), o);
      } else {
        LateChangeCommits(s, i, o, to);
      }
    }
  }

  /** Requests, approvals and rejections of the seat commit for seats of these statuses only. */
  ghost predicate CommitByStatus(s: State, i: nat, o: nat, item: Item) {
    && (Apply(s, DoRequestReturn(i, o)).Commit? <==> item.status.Fulfilled?)
    && (Apply(s, DoApproveReturn(i, o)).Commit? <==> item.status.ReturnRequested?)
    && (Apply(s, DoRejectReturn(i, o)).Commit? <==> item.status.ReturnRequested? || item.status.ItemPaid?)
  }

  lemma ReturnStepsDecided(s: State, i: nat, o: nat)
    requires Inv(s) && Covered(s) && i < |s.items| && s.items[i].order == o
    ensures CommitByStatus(s, i, o, s.items[i])
  {
    ReturnStepCommits(s, i, o, ReturnRequested);
    ReturnStepCommits(s, i, o, ReturnApproved);
    ReturnStepCommits(s, i, o, Fulfilled);
  }

  /** In a guarded run requesting, approving and rejecting a return is decided by the item's status alone. */
  lemma ReturnStepsCommit(s0: State, s: State, i: nat, o: nat)
    requires ReachableUnder(s0, s, StatusGuards) && i < |s.items| && s.items[i].order == o
    ensures CommitByStatus(s, i, o, s.items[i])
  {
    var steps :| Follows(s0, steps, s, StatusGuards);
    InitialCovered(s0);
    StatusRun(s0, steps);
    ReturnStepsDecided(s, i, o);
  }

  lemma LateChangeCommits(s: State, i: nat, o: nat, to: ItemStatus)
    requires Changes(s, i, o, to) && Covered(s) && !to.ItemCanceled? && !s.items[i].status.ItemPaid?
    ensures ChangeItem(s, i, o, to).Commit?
  {
    assert Fits(s.items[i].status, s.orders[o].status) && CoveredOrder(s, o) && ReturnsOk(s, o, NONE);
    EffectCovers(s, i, o, to);
    assert !s.orders[o].status.OrderReturned? by {
      assert !AllReturned(s.items, o);
    }
    MachineIsDeclarative(ItemEffect(s, i, o, to), o, false);
  }

  lemma ReadyRefundCommits(s: State, b: nat, payment: Option<nat>, i: nat)
    requires ItemsOk(s) && Ready(s, b, i) && ReturnsOk(s, s.bills[b].order, NONE) && CoveredOrder(s, s.bills[b].order)
    ensures HandlePayment(s, b, payment, true).Commit?
  {
    RefundedItemsCovered(s, b, payment, i);
    MachineIsDeclarative(RefundApplied(s, b, payment, i), s.bills[b].order, false);
  }

  /** A successful refund of an item is never turned away: the counters cannot contradict each other. */
  lemma RefundsCommit(s: State, b: nat, payment: Option<nat>, i: nat)
    requires Refunds(s, b, i) && Covered(s)
    ensures HandlePayment(s, b, payment, true).Commit?
  {
    RefundStarts(s, b, i);
    assert CoveredOrder(s, s.bills[b].order) && ReturnsOk(s, s.bills[b].order, NONE);
    ReadyRefundCommits(s, b, payment, i);
  }

  // ---- each guard is exact ----

  /** A rejection keeps completed orders covered exactly when the return had been requested. */
  lemma RejectCoversIff(s: State, i: nat, o: nat)
    requires Inv(s) && Covered(s) && ChangeItem(s, i, o, Fulfilled).Commit?
    ensures Covered(ChangeItem(s, i, o, Fulfilled).state) <==> s.items[i].status.ReturnRequested?
  {
    if s.items[i].status.ReturnRequested? {
      ChangeItemCovers(s, i, o, Fulfilled);
    } else {
      var s' := ChangeItem(s, i, o, Fulfilled).state;
      assert Fits(s.items[i].status, s.orders[o].status);
      assert CoveredOrder(s, o);
      assert s.orders[o].status.OrderPaid?;
      EffectKeeps(s, i, o, Fulfilled);
      var s1 := ItemEffect(s, i, o, Fulfilled);
      RejectedPaidCompletes(s1, o);
      EarlyHasNoTicket(s, i);
      assert !HasTicket(s', i);
      assert s'.items[i].order == o;
      assert !CoveredOrder(s', o);
    }
  }

  lemma EarlyHasNoTicket(s: State, i: nat)
    requires ItemsOk(s) && TicketsOk(s) && TicketPhases(s, NONE)
    requires i < |s.items| && !Late(s.orders[s.items[i].order].status)
    ensures forall t :: 0 <= t < |s.tickets| ==> s.tickets[t].item != i
  {
    forall t | 0 <= t < |s.tickets| ensures s.tickets[t].item != i {
      assert Late(s.orders[s.items[s.tickets[t].item].order].status);
    }
  }

  lemma RejectedPaidCompletes(s: State, o: nat)
    requires ItemsOk(s) && ItemPhases(s, o) && o < |s.orders| && s.orders[o].status.OrderPaid?
    ensures Recalculate(s, o, false) == Commit(ToCompleted(s, o))
    ensures Recalculate(s, o, true) == Commit(ToCompleted(s, o))
  {
    forall i | 0 <= i < |s.items| && s.items[i].order == o ensures !s.items[i].status.PendingPayment? {
      assert Fits(s.items[i].status, s.orders[o].status) || s.items[i].status.Fulfilled?;
    }
  }

  /** A payment keeps completed orders covered exactly when its order was not already Paid. */
  lemma PaymentCoversIff(s: State, b: nat, payment: Option<nat>)
    requires Pays(s, b) && Covered(s) && HandlePayment(s, b, payment, true).Commit?
    ensures Covered(HandlePayment(s, b, payment, true).state) <==> !s.orders[s.bills[b].order].status.OrderPaid?
  {
    var o, s' := s.bills[b].order, HandlePayment(s, b, payment, true).state;
    if !s.orders[o].status.OrderPaid? {
      PaymentCovers(s, b, payment);
    } else {
      PaidKeeps(s, b, payment);
      RejectedPaidCompletes(Settle(s, b, payment, true), o);
      var i :| 0 <= i < |s.items| && s.items[i].order == o && !s.items[i].status.ItemCanceled?;
      assert Fits(s.items[i].status, s.orders[o].status);
      assert s'.items[i].status.ItemPaid?;
      assert !CoveredOrder(s', o);
    }
  }
}
