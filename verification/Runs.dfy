/** What holds in every database that any run of steps can reach, whatever the callers choose. */
module Runs {
  import opened Options
  import opened Sums
  import opened Entities
  import opened Lifecycle
  import opened Invariants
  import opened BillSteps
  import opened MessageSteps
  import opened Evolution

  ghost predicate AllAdmissible(steps: seq<Step>) {
    forall n :: 0 <= n < |steps| ==> Admissible(steps[n])
  }

  ghost predicate ReachedBy(s: State, s0: State, steps: seq<Step>) {
    Initial(s0) && AllAdmissible(steps) && s == Run(s0, steps)
  }

  ghost predicate Reachable(s: State) {
    exists s0, steps :: ReachedBy(s, s0, steps)
  }

  lemma RunMore(s: State, front: seq<Step>, last: Step)
    ensures Run(s, front + [last]) == Next(Run(s, front), last)
  {
    assert (front + [last])[..|front|] == front;
  }

  lemma {:induction false} RunKeeps(s: State, steps: seq<Step>)
    requires Inv(s) && AllAdmissible(steps)
    ensures Inv(Run(s, steps))
  {
    if |steps| != 0 {
      RunKeeps(s, steps[..|steps| - 1]);
      StepKeeps(Run(s, steps[..|steps| - 1]), steps[|steps| - 1]);
    }
  }

  lemma ReachableInv(s: State)
    requires Reachable(s)
    ensures Inv(s)
  {
    var s0, steps :| ReachedBy(s, s0, steps);
    InitialInv(s0);
    RunKeeps(s0, steps);
  }

  // ---- money ----

  /** The ledger of every order: what was paid and returned is what its bills say, never more than was ordered. */
  lemma LedgerIsExact(s: State, o: nat)
    requires Reachable(s) && o < |s.orders|
    ensures s.orders[o].paid == Sum(s.bills, PaidAmount(o))
    ensures s.orders[o].returned == Sum(s.bills, RefundedAmount(o))
    ensures Sum(s.bills, CommittedPayment(o)) <= s.orders[o].originalTotal
    ensures s.orders[o].paid <= s.orders[o].originalTotal
  {
    ReachableInv(s);
    assert MoneyOk(s, o, NONE);
    SumSplit(s.bills, s.bills, PaidAmount(o), CommittedPayment(o));
  }

  /** Total tracking: the first total is forever the price of all seats, the current one that of the live seats. */
  lemma TotalsTrackItems(s: State, o: nat)
    requires Reachable(s) && o < |s.orders|
    ensures s.orders[o].originalTotal == Sum(s.items, FullPrice(o))
    ensures !s.orders[o].status.OrderCanceled? ==>
              s.orders[o].total == s.orders[o].subtotal == Sum(s.items, LivePrice(o))
  {
    ReachableInv(s);
    assert MoneyOk(s, o, NONE);
  }

  /** Never refund more than was paid. */
  lemma NeverOverRefunded(s: State, o: nat)
    requires Reachable(s) && o < |s.orders| && Reached(s.orders[o].status)
    ensures s.orders[o].returned <= Sum(s.items, ReturnedPrice(o)) <= s.orders[o].total <= s.orders[o].paid
  {
    ReachableInv(s);
    assert MoneyOk(s, o, NONE);
    SumSplit(s.items, s.items, ReturnedPrice(o), LivePrice(o));
  }

  /** Before an order has reached Paid nothing of it has been refunded. */
  lemma NothingRefundedEarly(s: State, o: nat)
    requires Reachable(s) && o < |s.orders| && !Late(s.orders[o].status)
    ensures s.orders[o].returned == 0 && Sum(s.items, ReturnedOne(o)) == 0
  {
    ReachableInv(s);
    assert MoneyOk(s, o, NONE);
    SumZero(s.items, ReturnedOne(o));
  }

  // ---- returns ----

  /** An order is in progress exactly while one of its returns is requested or approved. */
  lemma ReturnInProgressExactly(s: State, o: nat)
    requires Reachable(s) && o < |s.orders|
    ensures s.orders[o].status.ReturnInProgress? <==> HasOpen(s.items, o)
  {
    ReachableInv(s);
    assert ReturnsOk(s, o, NONE);
  }

  /** CreateRefundBill writes ReturnInProgress unconditionally, over the same status. */
  lemma RefundBillKeepsOrders(s: State, i: nat, amount: int)
    requires Reachable(s)
    ensures Next(s, DoCreateRefundBill(i, amount)).orders == s.orders
  {
    ReachableInv(s);
    if CreateRefundBill(s, i, amount).Commit? {
      RefundOrdersUnchanged(s, i, amount);
    }
  }

  /**
   * One refund per item: a bill that names an item is the only one that ever does; the item is Returned exactly when
   * that bill was refunded, and waits as ReturnApproved otherwise; the order counts its Returned items.
   */
  lemma OneRefundPerItem(s: State, i: nat)
    requires Reachable(s) && i < |s.items|
    ensures forall b, b' ::
              0 <= b < |s.bills| && 0 <= b' < |s.bills| && s.bills[b].item == Some(i) == s.bills[b'].item ==> b == b'
    ensures s.items[i].status.ItemReturned? <==> exists b: nat :: RefundedBy(s, i, b)
    ensures forall b :: 0 <= b < |s.bills| && s.bills[b].item == Some(i) && !s.bills[b].status.BillRefunded? ==>
              s.items[i].status.ReturnApproved?
    ensures s.items[i].order < |s.orders|
    ensures s.orders[s.items[i].order].returnedItemsCount == Sum(s.items, ReturnedOne(s.items[i].order))
  {
    ReachableInv(s);
    assert ReturnsOk(s, s.items[i].order, NONE);
  }

  /** The duplicate-refund loop of CreateRefundBill never rejects anything: only status and amount decide. */
  lemma DuplicateGuardNeverFires(s: State, i: nat, amount: int)
    requires Reachable(s)
    ensures CreateRefundBill(s, i, amount).Commit?
       <==> i < |s.items| && s.items[i].status.ReturnRequested? && amount <= s.items[i].price
  {
    ReachableInv(s);
    if i < |s.items| && s.items[i].status.ReturnRequested? {
      RequestedHasNoRefund(s, i);
    }
  }

  // ---- phases ----

  /** What an order in status a can have become later. */
  predicate MayBecome(a: OrderStatus, b: OrderStatus) {
    match a
    case Unpaid => true
    case PartiallyPaid => !b.Unpaid? && !b.OrderCanceled?
    case PendingRefund => b.PendingRefund?
    case OrderPaid => Reached(b)
    case Completed => Late(b)
    case ReturnInProgress => Late(b)
    case PartiallyReturned => Late(b)
    case OrderReturned => b.OrderReturned?
    case OrderCanceled => b.OrderCanceled?
  }

  /** What every document keeps over any number of steps. */
  ghost predicate Later(s: State, s': State) {
    && |s.orders| <= |s'.orders| && |s.items| <= |s'.items| && |s.bills| <= |s'.bills| && |s.tickets| <= |s'.tickets|
    && (forall o :: 0 <= o < |s.orders| ==>
          && MayBecome(s.orders[o].status, s'.orders[o].status)
          && s'.orders[o].originalTotal == s.orders[o].originalTotal && s'.orders[o].event == s.orders[o].event
          && s'.orders[o].session == s.orders[o].session && s'.orders[o].serial == s.orders[o].serial)
    && (forall i :: 0 <= i < |s.items| ==> s'.items[i] == s.items[i].(status := s'.items[i].status))
    && (forall b :: 0 <= b < |s.bills| ==>
          && s'.bills[b] == s.bills[b].(status := s'.bills[b].status, payment := s'.bills[b].payment)
          && (s.bills[b].status.BillPending? || s'.bills[b] == s.bills[b]))
    && (forall t :: 0 <= t < |s.tickets| ==>
          && s'.tickets[t] == s.tickets[t].(status := s'.tickets[t].status, usedAt := s'.tickets[t].usedAt)
          && (s'.tickets[t].status.Valid? ==> s.tickets[t].status.Valid?)
          && (!s.tickets[t].status.Valid? ==> s'.tickets[t].usedAt == s.tickets[t].usedAt))
    && s.outbox <= s'.outbox
  }

  lemma LaterStep(s: State, m: State, s': State)
    requires Later(s, m) && Evolves(m, s')
    ensures Later(s, s')
  {
    forall o | 0 <= o < |s.orders| ensures MayBecome(s.orders[o].status, s'.orders[o].status) {
      assert MayBecome(s.orders[o].status, m.orders[o].status) && SameOrder(m.orders[o], s'.orders[o]);
    }
    assert forall b :: 0 <= b < |s.bills| ==> SameBill(m.bills[b], s'.bills[b]);
    assert forall i :: 0 <= i < |s.items| ==> SameItem(m.items[i], s'.items[i]);
    assert forall t :: 0 <= t < |s.tickets| ==> SameTicket(m.tickets[t], s'.tickets[t]);
  }

  /** Phases only move forward, over any run; Canceled, Returned and PendingRefund are never left. */
  lemma {:induction false} RunIsLater(s: State, steps: seq<Step>)
    requires Inv(s) && AllAdmissible(steps)
    ensures Later(s, Run(s, steps))
  {
    if |steps| != 0 {
      var front := steps[..|steps| - 1];
      RunIsLater(s, front);
      RunKeeps(s, front);
      StepKeeps(Run(s, front), steps[|steps| - 1]);
      LaterStep(s, Run(s, front), Run(s, steps));
    }
  }

  /** Exactly one generate-tickets message exists for an order that reached Paid, and none for another. */
  lemma OneGenerateMessage(s: State, o: nat)
    requires Reachable(s) && o < |s.orders|
    ensures GenerateTickets(o) in s.outbox <==> Reached(s.orders[o].status)
    ensures forall m, m' :: 0 <= m < m' < |s.outbox| && s.outbox[m] == GenerateTickets(o) ==>
              s.outbox[m'] != s.outbox[m]
  {
    ReachableInv(s);
  }

  // ---- redelivery ----

  ghost predicate Goes(s: State, steps: seq<Step>, s': State) {
    AllAdmissible(steps) && s' == Run(s, steps)
  }

  /** Some run leads from s to s'. */
  ghost predicate Leads(s: State, s': State) {
    exists steps :: Goes(s, steps, s')
  }

  /** A payment result that was handled once changes nothing when it is delivered again, however much later. */
  lemma PaymentHandledOnce(s: State, b: nat, payment: Option<nat>, ok: bool, s1: State, s': State,
                           payment': Option<nat>, ok': bool)
    requires Inv(s) && HandlePayment(s, b, payment, ok) == Commit(s1) && Leads(s1, s')
    ensures HandlePayment(s', b, payment', ok') == Commit(s')
  {
    var steps :| Goes(s1, steps, s');
    HandlePaymentKeeps(s, b, payment, ok);
    HandlePaymentEvolves(s, b, payment, ok);
    HandledIsSettled(s, b, payment, ok);
    RunIsLater(s1, steps);
  }

  lemma HandledIsSettled(s: State, b: nat, payment: Option<nat>, ok: bool)
    requires HandlePayment(s, b, payment, ok).Commit?
    ensures var s1 := HandlePayment(s, b, payment, ok).state; b < |s1.bills| && !s1.bills[b].status.BillPending?
  {
  }

  /** The order's tickets have been generated: it is past Paid and no item waits to be fulfilled. */
  ghost predicate TicketsDone(s: State, o: nat) {
    && o < |s.orders| && Late(s.orders[o].status)
    && forall i :: 0 <= i < |s.items| && s.items[i].order == o ==> !s.items[i].status.ItemPaid?
  }

  /**
   * Delivering the message of an order whose tickets exist changes nothing; it is acknowledged unless the whole order
   * was returned: then recalculation panics, and the consumer rejects the message.
   */
  lemma GeneratedIsDone(s: State, o: nat, lookup: nat -> Lookup)
    requires TicketsDone(s, o) && ReturnsOk(s, o, NONE)
    ensures HandleGenerate(s, o, lookup).Commit? <==> !s.orders[o].status.OrderReturned?
    ensures HandleGenerate(s, o, lookup).Commit? ==> HandleGenerate(s, o, lookup).state == s
  {
    var items' := BulkItems(s.items, o, ItemPaid, Fulfilled);
    assert items' == s.items;
    assert s.(tickets := s.tickets).(items := items') == s;
  }

  lemma GeneratedStays(s: State, step: Step, o: nat)
    requires Inv(s) && Admissible(step) && TicketsDone(s, o)
    ensures TicketsDone(Next(s, step), o)
  {
    var s' := Next(s, step);
    StepKeeps(s, step);
    assert SameOrder(s.orders[o], s'.orders[o]);
    forall i | 0 <= i < |s'.items| && s'.items[i].order == o ensures !s'.items[i].status.ItemPaid? {
      if i < |s.items| {
        assert SameItem(s.items[i], s'.items[i]);
      }
    }
  }

  lemma {:induction false} GeneratedRun(s: State, steps: seq<Step>, o: nat)
    requires Inv(s) && AllAdmissible(steps) && TicketsDone(s, o)
    ensures TicketsDone(Run(s, steps), o)
  {
    if |steps| != 0 {
      var front := steps[..|steps| - 1];
      GeneratedRun(s, front, o);
      RunKeeps(s, front);
      GeneratedStays(Run(s, front), steps[|steps| - 1], o);
    }
  }

  /** A delivery of o's message committed s1 and left the order no longer Paid. */
  ghost predicate Handled(s: State, o: nat, lookup: nat -> Lookup, s1: State) {
    && GenerateTickets(o) in s.outbox && HandleGenerate(s, o, lookup) == Commit(s1)
    && o < |s1.orders| && !s1.orders[o].status.OrderPaid?
  }

  lemma NoneLeftPaid(s: State, o: nat, lookup: nat -> Lookup)
    requires Generate(s, o, lookup).Generated? && HandleGenerate(s, o, lookup).Commit?
    ensures HandleGenerate(s, o, lookup).state.items == BulkItems(s.items, o, ItemPaid, Fulfilled)
  {
  }

  lemma HandledIsGenerated(s: State, o: nat, lookup: nat -> Lookup, s1: State)
    requires Inv(s) && Handled(s, o, lookup, s1)
    ensures Inv(s1) && TicketsDone(s1, o)
  {
    var m :| 0 <= m < |s.outbox| && s.outbox[m] == GenerateTickets(o);
    assert Reached(s.orders[o].status);
    HandleGenerateKeeps(s, o, lookup);
    HandleGenerateEvolves(s, o, lookup);
    assert SameOrder(s.orders[o], s1.orders[o]);
    if Generate(s, o, lookup).Generated? {
      NoneLeftPaid(s, o, lookup);
    }
  }

  /** After such a delivery another one changes nothing, however much later and whatever the event service says. */
  lemma TicketsGeneratedOnce(s: State, o: nat, lookup: nat -> Lookup, s1: State, s': State, lookup': nat -> Lookup)
    requires Inv(s) && Handled(s, o, lookup, s1) && Leads(s1, s')
    ensures HandleGenerate(s', o, lookup').Commit? ==> HandleGenerate(s', o, lookup').state == s'
  {
    var steps :| Goes(s1, steps, s');
    HandledIsGenerated(s, o, lookup, s1);
    GeneratedRun(s1, steps, o);
    RunKeeps(s1, steps);
    assert ReturnsOk(s', o, NONE);
    GeneratedIsDone(s', o, lookup');
  }

  /** When every session is found, handling a Paid order commits, completes it, and every item has its ticket. */
  lemma GenerationSucceeds(s: State, o: nat, lookup: nat -> Lookup)
    requires Inv(s) && o < |s.orders| && s.orders[o].status.OrderPaid?
    requires FirstFailure(ItemsOf(s.items, o), lookup).None?
    ensures HandleGenerate(s, o, lookup).Commit?
    ensures var s' := HandleGenerate(s, o, lookup).state;
      && |s'.orders| == |s.orders| && s'.orders[o].status.Completed?
      && s'.tickets == s.tickets + TicketsFor(ItemsOf(s.items, o), s.orders[o].serial, lookup)
  {
    CountFindsNothing(s, o);
  }

  /** No item ever has two tickets, and a ticket is void exactly when its item was returned. */
  lemma OneTicketPerItem(s: State)
    requires Reachable(s)
    ensures forall t, t' :: 0 <= t < t' < |s.tickets| ==> s.tickets[t].item != s.tickets[t'].item
    ensures forall t :: 0 <= t < |s.tickets| ==>
      s.tickets[t].item < |s.items|
      && (s.items[s.tickets[t].item].status.ItemReturned? <==> s.tickets[t].status.Invalidated?)
  {
    ReachableInv(s);
  }
}
