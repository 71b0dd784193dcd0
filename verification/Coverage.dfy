/** The status machine against a declarative reading of the items. */
module Coverage {
  import opened Options
  import opened Sums
  import opened Entities
  import opened OrderBuilding
  import opened Lifecycle
  import opened Invariants
  import opened ItemSums
  import opened ItemSteps
  import opened BillSteps
  import opened MessageSteps
  import opened Evolution
  import opened Runs

  // Two guards on the callers make them agree, and give every seat of a completed order its one ticket.

  predicate NoneReturned(items: seq<Item>, o: nat) {
    forall i :: 0 <= i < |items| && items[i].order == o ==> !items[i].status.ItemReturned?
  }

  /** Every live seat of the order was returned. */
  predicate AllReturned(items: seq<Item>, o: nat) {
    forall i :: 0 <= i < |items| && items[i].order == o ==>
      items[i].status.ItemReturned? || items[i].status.ItemCanceled?
  }

  /** The status a completed order should have, read off its items alone. */
  function Declared(items: seq<Item>, o: nat): OrderStatus {
    if HasOpen(items, o) then ReturnInProgress
    else if NoneReturned(items, o) then Completed
    else if AllReturned(items, o) then OrderReturned
    else PartiallyReturned
  }

  ghost predicate HasTicket(s: State, i: nat) {
    exists t :: 0 <= t < |s.tickets| && s.tickets[t].item == i
  }

  ghost predicate CoveredOrder(s: State, o: nat)
    requires o < |s.orders|
  {
    Late(s.orders[o].status) ==>
      && s.orders[o].itemsCount == Sum(s.items, LiveOne(o))
      && s.orders[o].status == Declared(s.items, o)
      && forall i :: 0 <= i < |s.items| && s.items[i].order == o ==> !s.items[i].status.ItemPaid? && HasTicket(s, i)
  }

  ghost predicate TicketStocks(s: State) {
    forall t :: 0 <= t < |s.tickets| ==>
      s.tickets[t].item < |s.items| && s.tickets[t].stock == s.items[s.tickets[t].item].stock
  }

  ghost predicate Covered(s: State) {
    TicketStocks(s) && forall o :: 0 <= o < |s.orders| ==> CoveredOrder(s, o)
  }

  // ---- guards ----

  /** A rejection is of a requested return, not of a seat that is merely paid. */
  predicate RejectGuard(s: State, step: Step) {
    step.DoRejectReturn? && step.item < |s.items| ==> s.items[step.item].status.ReturnRequested?
  }

  /** No payment succeeds for an order that is already Paid and waits for its tickets. */
  predicate PaymentGuard(s: State, step: Step) {
    step.DeliverPayment? && step.ok && step.bill < |s.bills| && s.bills[step.bill].status.BillPending?
    && s.bills[step.bill].kind.Payment? && s.bills[step.bill].order < |s.orders| ==>
      !s.orders[s.bills[step.bill].order].status.OrderPaid?
  }

  predicate Guarded(s: State, step: Step) {
    RejectGuard(s, step) && PaymentGuard(s, step)
  }

  // ---- counters against items ----

  /** The two counters say what the items say: zero is none returned, equality is all returned. */
  lemma CountersReadItems(s: State, o: nat)
    requires ItemsOk(s) && o < |s.orders|
    ensures Sum(s.items, ReturnedOne(o)) == 0 <==> NoneReturned(s.items, o)
    ensures Sum(s.items, ReturnedOne(o)) == Sum(s.items, LiveOne(o)) <==> AllReturned(s.items, o)
    ensures 0 <= Sum(s.items, ReturnedOne(o)) <= Sum(s.items, LiveOne(o))
  {
    SumNonNegative(s.items, ReturnedOne(o));
    SumSplit(s.items, s.items, ReturnedOne(o), LiveOne(o));
    if NoneReturned(s.items, o) {
      SumZero(s.items, ReturnedOne(o));
    } else {
      var i :| 0 <= i < |s.items| && s.items[i].order == o && s.items[i].status.ItemReturned?;
      SumAtLeast(s.items, ReturnedOne(o), i);
    }
    if AllReturned(s.items, o) {
      SumPointwise(s.items, s.items, ReturnedOne(o), LiveOne(o));
    } else {
      var i :| 0 <= i < |s.items| && s.items[i].order == o
               && !s.items[i].status.ItemReturned? && !s.items[i].status.ItemCanceled?;
      assert ReturnedOne(o)(s.items[i]) != LiveOne(o)(s.items[i]);
    }
  }

  /**
   * The incremental machine computes the declared status, and its "data inconsistency" branch is dead: when the items
   * count is right and the old status was right before the items changed, recalculation commits what the items declare.
   */
  lemma MachineIsDeclarative(s: State, o: nat, hasPublisher: bool)
    requires ItemsOk(s) && o < |s.orders| && Late(s.orders[o].status) && ReturnsOk(s, o, o)
    requires s.orders[o].itemsCount == Sum(s.items, LiveOne(o))
    requires s.orders[o].status == Declared(s.items, o) || HasOpen(s.items, o) || s.orders[o].status.ReturnInProgress?
    ensures Recalculate(s, o, hasPublisher).Abort? <==> s.orders[o].status.OrderReturned?
    ensures Recalculate(s, o, hasPublisher).Commit? ==>
      Recalculate(s, o, hasPublisher).state == SetStatus(s, o, Declared(s.items, o))
  {
    CountersReadItems(s, o);
    assert s.orders[o := s.orders[o]] == s.orders;
  }

  // ---- frame ----

  /** A step on order o: other orders, their items and all tickets stay, new tickets are for their item's stock. */
  ghost predicate OnlyOrder(s: State, s': State, o: int) {
    && |s.orders| <= |s'.orders|
    && (forall p :: 0 <= p < |s.orders| && p != o ==>
          s'.orders[p].status == s.orders[p].status && s'.orders[p].itemsCount == s.orders[p].itemsCount)
    && (forall p :: |s.orders| <= p < |s'.orders| ==> !Late(s'.orders[p].status))
    && |s.items| <= |s'.items|
    && (forall i :: 0 <= i < |s.items| ==>
          && s'.items[i].order == s.items[i].order && s'.items[i].stock == s.items[i].stock
          && (s.items[i].order != o ==> s'.items[i] == s.items[i]))
    && (forall i :: |s.items| <= i < |s'.items| ==> s'.items[i].order >= |s.orders|)
    && |s.tickets| <= |s'.tickets|
    && (forall t :: 0 <= t < |s.tickets| ==>
          s'.tickets[t].item == s.tickets[t].item && s'.tickets[t].stock == s.tickets[t].stock)
    && (forall t :: |s.tickets| <= t < |s'.tickets| ==>
          s'.tickets[t].item < |s.items| && s'.tickets[t].stock == s.items[s'.tickets[t].item].stock)
  }

  lemma OtherSums(s: State, s': State, o: int, p: nat)
    requires OnlyOrder(s, s', o) && p != o && p < |s.orders|
    ensures Sum(s'.items, LiveOne(p)) == Sum(s.items, LiveOne(p))
  {
    var n := |s.items|;
    assert s'.items == s'.items[..n] + s'.items[n..];
    SumConcat(s'.items[..n], s'.items[n..], LiveOne(p));
    SumPointwise(s'.items[..n], s.items, LiveOne(p), LiveOne(p));
    SumZero(s'.items[n..], LiveOne(p));
  }

  lemma OtherDeclared(s: State, s': State, o: int, p: nat)
    requires OnlyOrder(s, s', o) && p != o && p < |s.orders|
    ensures Declared(s'.items, p) == Declared(s.items, p)
  {
    if HasOpen(s.items, p) {
      var j :| 0 <= j < |s.items| && s.items[j].order == p && Open(s.items[j].status);
      assert s'.items[j] == s.items[j];
    }
    if HasOpen(s'.items, p) {
      var j :| 0 <= j < |s'.items| && s'.items[j].order == p && Open(s'.items[j].status);
      assert s'.items[j] == s.items[j];
    }
    assert forall i :: 0 <= i < |s.items| && s.items[i].order == p ==> s'.items[i] == s.items[i];
  }

  lemma OtherTickets(s: State, s': State, o: int, i: nat)
    requires OnlyOrder(s, s', o) && HasTicket(s, i)
    ensures HasTicket(s', i)
  {
    var t :| 0 <= t < |s.tickets| && s.tickets[t].item == i;
    assert s'.tickets[t].item == i;
  }

  /** Covering is local: after a step on order o only order o has to be looked at. */
  lemma CoverageIsLocal(s: State, s': State, o: int)
    requires Covered(s) && OnlyOrder(s, s', o)
    requires 0 <= o < |s.orders| ==> CoveredOrder(s', o)
    ensures Covered(s')
  {
    forall p | 0 <= p < |s'.orders| ensures CoveredOrder(s', p) {
      if p < |s.orders| && p != o && Late(s.orders[p].status) {
        assert CoveredOrder(s, p);
        OtherSums(s, s', o, p);
        OtherDeclared(s, s', o, p);
        forall i | 0 <= i < |s'.items| && s'.items[i].order == p ensures HasTicket(s', i) {
          OtherTickets(s, s', o, i);
        }
      }
    }
    forall t | 0 <= t < |s'.tickets|
      ensures s'.tickets[t].item < |s'.items| && s'.tickets[t].stock == s'.items[s'.tickets[t].item].stock
    {
      if t < |s.tickets| {
        assert s.tickets[t].stock == s.items[s.tickets[t].item].stock;
      }
    }
  }

  /** A completed order whose items just changed: counters are right, and a changed status is announced by a return. */
  ghost predicate Counted(s: State, o: nat) {
    && ItemsOk(s) && o < |s.orders| && Late(s.orders[o].status) && ReturnsOk(s, o, o)
    && s.orders[o].itemsCount == Sum(s.items, LiveOne(o))
    && (s.orders[o].status == Declared(s.items, o) || HasOpen(s.items, o) || s.orders[o].status.ReturnInProgress?)
    && forall i :: 0 <= i < |s.items| && s.items[i].order == o ==> !s.items[i].status.ItemPaid? && HasTicket(s, i)
  }

  /** Recalculation covers it again. */
  lemma RecalculatedIsCovered(s: State, o: nat, hasPublisher: bool)
    requires Counted(s, o) && Recalculate(s, o, hasPublisher).Commit?
    ensures CoveredOrder(Recalculate(s, o, hasPublisher).state, o)
  {
    MachineIsDeclarative(s, o, hasPublisher);
    var s' := Recalculate(s, o, hasPublisher).state;
    assert s'.items == s.items && s'.tickets == s.tickets;
    forall i | 0 <= i < |s.items| && s.items[i].order == o ensures HasTicket(s', i) {
      assert HasTicket(s, i);
    }
  }

  // ---- steps ----

  lemma ChangeItemFrame(s: State, i: nat, o: nat, to: ItemStatus)
    requires ChangeItem(s, i, o, to).Commit?
    ensures OnlyOrder(s, ChangeItem(s, i, o, to).state, o)
  {
    RecalculateTouches(ItemEffect(s, i, o, to), o, false);
  }

  lemma ChangeItemCovers(s: State, i: nat, o: nat, to: ItemStatus)
    requires Inv(s) && Covered(s) && Target(to) && ChangeItem(s, i, o, to).Commit?
    requires to.Fulfilled? ==> s.items[i].status.ReturnRequested?
    ensures Covered(ChangeItem(s, i, o, to).state)
  {
    var s1, s' := ItemEffect(s, i, o, to), ChangeItem(s, i, o, to).state;
    ChangeItemFrame(s, i, o, to);
    EffectKeeps(s, i, o, to);
    RecalculateEvolves(s1, o, false);
    if Late(s'.orders[o].status) {
      assert Late(s.orders[o].status) by {
        assert OrderEdge(s1.orders[o].status, s'.orders[o].status);
      }
      EffectCovers(s, i, o, to);
      RecalculatedIsCovered(s1, o, false);
    }
    CoverageIsLocal(s, s', o);
  }

  /** A return that is requested, or was open, announces itself; the live seats and their tickets stay. */
  lemma EffectCounts(s: State, i: nat, o: nat, to: ItemStatus)
    requires ItemsOk(s) && i < |s.items| && s.items[i].order == o && o < |s.orders| && CoveredOrder(s, o)
    requires Late(s.orders[o].status) && ReturnsOk(s, o, NONE) && ItemsOk(ItemEffect(s, i, o, to))
    requires ReturnsOk(ItemEffect(s, i, o, to), o, o)
    requires to.ReturnRequested? || (Open(s.items[i].status) && (to.ReturnApproved? || to.Fulfilled?))
    requires CanChange(s.items[i].status, to)
    ensures Counted(ItemEffect(s, i, o, to), o)
  {
    var s1 := ItemEffect(s, i, o, to);
    ItemMoves(s.items, i, to, o);
    if to.ReturnRequested? {
      assert Open(s1.items[i].status);
    } else {
      assert Open(s.items[i].status);
    }
    forall j | 0 <= j < |s1.items| && s1.items[j].order == o ensures HasTicket(s1, j) && !s1.items[j].status.ItemPaid? {
      assert s.items[j].order == o;
      assert HasTicket(s, j);
    }
  }

  lemma EffectCovers(s: State, i: nat, o: nat, to: ItemStatus)
    requires Changes(s, i, o, to) && Covered(s) && o < |s.orders| && Late(s.orders[o].status)
    requires to.Fulfilled? ==> s.items[i].status.ReturnRequested?
    ensures Counted(ItemEffect(s, i, o, to), o)
  {
    assert CoveredOrder(s, o) && ReturnsOk(s, o, NONE) && Fits(s.items[i].status, s.orders[o].status);
    EffectRefs(s, i, o, to);
    EffectReturns(s, i, o, to, o);
    EffectCounts(s, i, o, to);
  }

  lemma PaymentFrame(s: State, b: nat, payment: Option<nat>)
    requires b < |s.bills| && s.bills[b].status.BillPending? && s.bills[b].kind.Payment?
    requires HandlePayment(s, b, payment, true).Commit?
    ensures OnlyOrder(s, HandlePayment(s, b, payment, true).state, s.bills[b].order)
  {
    RecalculateTouches(Settle(s, b, payment, true), s.bills[b].order, true);
  }

  lemma RecalculateTouches(s: State, o: nat, hasPublisher: bool)
    requires o < |s.orders| && Recalculate(s, o, hasPublisher).Commit?
    ensures OnlyOrder(s, Recalculate(s, o, hasPublisher).state, o)
  {
  }

  lemma PaymentCovers(s: State, b: nat, payment: Option<nat>)
    requires Pays(s, b) && Covered(s) && !s.orders[s.bills[b].order].status.OrderPaid?
    requires HandlePayment(s, b, payment, true).Commit?
    ensures Covered(HandlePayment(s, b, payment, true).state)
  {
    var o, s1, s' := s.bills[b].order, Settle(s, b, payment, true), HandlePayment(s, b, payment, true).state;
    PaymentFrame(s, b, payment);
    PaidKeeps(s, b, payment);
    RecalculateEvolves(s1, o, true);
    if Late(s'.orders[o].status) {
      assert Late(s.orders[o].status) by {
        assert OrderEdge(s1.orders[o].status, s'.orders[o].status);
      }
      assert CoveredOrder(s, o);
      forall i | 0 <= i < |s1.items| && s1.items[i].order == o ensures HasTicket(s1, i) {
        assert HasTicket(s, i);
      }
      assert ReturnsOk(s1, o, o);
      RecalculatedIsCovered(s1, o, true);
    }
    CoverageIsLocal(s, s', o);
  }

  lemma RefundFrame(s: State, b: nat, payment: Option<nat>, i: nat)
    requires Ready(s, b, i) && HandlePayment(s, b, payment, true).Commit?
    ensures OnlyOrder(s, HandlePayment(s, b, payment, true).state, s.bills[b].order)
  {
    var o, s1 := s.bills[b].order, RefundApplied(s, b, payment, i);
    RecalculateTouches(s1, o, false);
    VoidEvolves(Recalculate(s1, o, false).state, i);
  }

  lemma VoidCovers(s: State, i: nat, o: nat)
    requires o < |s.orders| && CoveredOrder(s, o)
    ensures CoveredOrder(VoidTicket(s, i), o)
  {
    var s' := VoidTicket(s, i);
    forall j | 0 <= j < |s.items| && HasTicket(s, j) ensures HasTicket(s', j) {
      var t :| 0 <= t < |s.tickets| && s.tickets[t].item == j;
      assert s'.tickets[t].item == j;
    }
  }

  lemma RefundedItemsCovered(s: State, b: nat, payment: Option<nat>, i: nat)
    requires ItemsOk(s) && Ready(s, b, i) && ReturnsOk(s, s.bills[b].order, NONE) && CoveredOrder(s, s.bills[b].order)
    ensures Counted(RefundApplied(s, b, payment, i), s.bills[b].order)
  {
    var o, s1 := s.bills[b].order, RefundApplied(s, b, payment, i);
    RefundReturns(s, b, payment, i, o);
    ItemMoves(s.items, i, ItemReturned, o);
    forall j | 0 <= j < |s1.items| && s1.items[j].order == o ensures HasTicket(s1, j) && !s1.items[j].status.ItemPaid? {
      assert s.items[j].order == o;
      assert HasTicket(s, j);
    }
  }

  lemma RefundedOrderCovered(s: State, b: nat, payment: Option<nat>, i: nat)
    requires Ready(s, b, i) && Counted(RefundApplied(s, b, payment, i), s.bills[b].order)
    requires HandlePayment(s, b, payment, true).Commit?
    ensures CoveredOrder(HandlePayment(s, b, payment, true).state, s.bills[b].order)
  {
    var o, s1 := s.bills[b].order, RefundApplied(s, b, payment, i);
    RecalculatedIsCovered(s1, o, false);
    VoidCovers(Recalculate(s1, o, false).state, i, o);
  }

  lemma RefundCovers(s: State, b: nat, payment: Option<nat>, i: nat)
    requires Refunds(s, b, i) && Covered(s) && HandlePayment(s, b, payment, true).Commit?
    ensures Covered(HandlePayment(s, b, payment, true).state)
  {
    RefundStarts(s, b, i);
    assert CoveredOrder(s, s.bills[b].order) && ReturnsOk(s, s.bills[b].order, NONE);
    RefundedItemsCovered(s, b, payment, i);
    RefundedOrderCovered(s, b, payment, i);
    RefundFrame(s, b, payment, i);
    CoverageIsLocal(s, HandlePayment(s, b, payment, true).state, s.bills[b].order);
  }

  /** The late order's message has nothing left to do. */
  lemma CoveredIsGenerated(s: State, o: nat)
    requires Covered(s) && o < |s.orders| && Late(s.orders[o].status)
    ensures TicketsDone(s, o)
  {
    assert CoveredOrder(s, o);
  }

  lemma GeneratedForItems(s: State, o: nat, lookup: nat -> Lookup, s1: State, i: nat)
    requires ItemsOk(s) && o < |s.orders| && i < |s.items| && s.items[i].order == o
    requires s1.tickets == s.tickets + TicketsFor(ItemsOf(s.items, o), s.orders[o].serial, lookup)
    ensures HasTicket(s1, i)
  {
    var list := ItemsOf(s.items, o);
    FilterMembers(s.items, InOrder(o));
    assert s.items[i] in list;
    var j :| 0 <= j < |list| && list[j] == s.items[i];
    assert s1.tickets[|s.tickets| + j] == TicketFor(list[j], s.orders[o].serial, lookup);
    assert s1.tickets[|s.tickets| + j].item == i;
  }

  lemma GeneratedTickets(s: State, o: nat, lookup: nat -> Lookup)
    requires Refs(s) && o < |s.orders|
    ensures var tickets := s.tickets + TicketsFor(ItemsOf(s.items, o), s.orders[o].serial, lookup);
      && (forall i :: 0 <= i < |s.items| && s.items[i].order == o ==> HasTicket(s.(tickets := tickets), i))
      && (forall t :: |s.tickets| <= t < |tickets| ==>
            tickets[t].item < |s.items| && tickets[t].stock == s.items[tickets[t].item].stock)
  {
    var list := ItemsOf(s.items, o);
    var made := TicketsFor(list, s.orders[o].serial, lookup);
    var s' := s.(tickets := s.tickets + made);
    ItemsOfAscend(s.items, o);
    assert forall j :: 0 <= j < |made| ==> made[j].item == list[j].id && made[j].stock == list[j].stock;
    forall t | |s.tickets| <= t < |s'.tickets|
      ensures s'.tickets[t].item < |s.items| && s'.tickets[t].stock == s.items[s'.tickets[t].item].stock
    {
      assert s'.tickets[t] == made[t - |s.tickets|];
    }
    forall i | 0 <= i < |s.items| && s.items[i].order == o ensures HasTicket(s', i) {
      GeneratedForItems(s, o, lookup, s', i);
    }
  }

  /** Fulfilling a Paid order counts exactly its live seats. */
  lemma FulfilledAreLive(s: State, o: nat)
    requires ItemsOk(s) && ItemPhases(s, NONE) && o < |s.orders| && s.orders[o].status.OrderPaid?
    ensures var items' := BulkItems(s.items, o, ItemPaid, Fulfilled);
      && Sum(items', FulfilledOne(o)) == Sum(items', LiveOne(o))
      && Declared(items', o) == Completed && NonePending(items', o)
  {
    var items' := BulkItems(s.items, o, ItemPaid, Fulfilled);
    forall i | 0 <= i < |items'| && items'[i].order == o
      ensures items'[i].status.Fulfilled? || items'[i].status.ItemCanceled?
    {
      assert Fits(s.items[i].status, s.orders[s.items[i].order].status);
    }
    SumPointwise(items', items', FulfilledOne(o), LiveOne(o));
  }

  lemma GenerateCoversPaid(s: State, o: nat, lookup: nat -> Lookup)
    requires Inv(s) && Covered(s) && o < |s.orders| && s.orders[o].status.OrderPaid?
    requires Generate(s, o, lookup).Generated? && HandleGenerate(s, o, lookup).Commit?
    ensures Covered(HandleGenerate(s, o, lookup).state)
  {
    var s' := HandleGenerate(s, o, lookup).state;
    var s1 := s.(tickets := Generate(s, o, lookup).tickets);
    GenerateWrites(s, o, lookup);
    GeneratedTickets(s, o, lookup);
    FulfilledAreLive(s, o);
    var items' := BulkItems(s.items, o, ItemPaid, Fulfilled);
    assert s' == ToCompleted(s1.(items := items'), o);
    forall i | 0 <= i < |s'.items| && s'.items[i].order == o
      ensures !s'.items[i].status.ItemPaid? && HasTicket(s', i)
    {
      assert s.items[i].order == o;
      assert HasTicket(s1, i);
    }
    assert CoveredOrder(s', o);
    assert forall t :: 0 <= t < |s.tickets| ==> s'.tickets[t] == s.tickets[t];
    assert OnlyOrder(s, s', o);
    CoverageIsLocal(s, s', o);
  }

  lemma MessageMeansReached(s: State, o: nat)
    requires MessagePhases(s) && GenerateTickets(o) in s.outbox
    ensures o < |s.orders| && Reached(s.orders[o].status)
  {
    var m :| 0 <= m < |s.outbox| && s.outbox[m] == GenerateTickets(o);
  }

  lemma GenerateCovers(s: State, o: nat, lookup: nat -> Lookup)
    requires Inv(s) && Covered(s) && GenerateTickets(o) in s.outbox && HandleGenerate(s, o, lookup).Commit?
    ensures Covered(HandleGenerate(s, o, lookup).state)
  {
    MessageMeansReached(s, o);
    if Late(s.orders[o].status) {
      CoveredIsGenerated(s, o);
      assert ReturnsOk(s, o, NONE);
      GeneratedIsDone(s, o, lookup);
    } else if Generate(s, o, lookup).Generated? {
      GenerateCoversPaid(s, o, lookup);
    }
  }

  lemma RefundBillOrderCovered(s: State, i: nat, amount: int)
    requires Covered(s) && CreateRefundBill(s, i, amount).Commit?
    requires CreateRefundBill(s, i, amount).state.orders == s.orders
    requires ReturnsOk(s, s.items[i].order, NONE)
    ensures CoveredOrder(CreateRefundBill(s, i, amount).state, s.items[i].order)
  {
    var s', o := CreateRefundBill(s, i, amount).state, s.items[i].order;
    assert CoveredOrder(s, o);
    assert Open(s.items[i].status) && Open(s'.items[i].status);
    ItemMoves(s.items, i, ReturnApproved, o);
    forall j | 0 <= j < |s'.items| && s'.items[j].order == o ensures HasTicket(s', j) && !s'.items[j].status.ItemPaid? {
      assert s.items[j].order == o;
      assert HasTicket(s, j);
    }
  }

  lemma CreateRefundBillCovers(s: State, i: nat, amount: int)
    requires Inv(s) && Covered(s) && CreateRefundBill(s, i, amount).Commit?
    ensures Covered(CreateRefundBill(s, i, amount).state)
  {
    RefundOrdersUnchanged(s, i, amount);
    assert ReturnsOk(s, s.items[i].order, NONE);
    RefundBillOrderCovered(s, i, amount);
    CoverageIsLocal(s, CreateRefundBill(s, i, amount).state, s.items[i].order);
  }

  lemma CancelOrderCovers(s: State, o: nat)
    requires Inv(s) && Covered(s) && CancelOrder(s, o).Commit?
    ensures Covered(CancelOrder(s, o).state)
  {
    CoverageIsLocal(s, CancelOrder(s, o).state, o);
  }

  lemma AddOrderCovers(s: State, r: AddOrderRequest, now: int, serial: nat)
    requires Inv(s) && Covered(s) && AddOrder(s, r, now, serial).Commit?
    ensures Covered(AddOrder(s, r, now, serial).state)
  {
    var s' := AddOrder(s, r, now, serial).state;
    var added := Build(s.stocks, r.details, now, |s.orders|, |s.items|).value.items;
    AddOrderAdds(s, r, now, serial);
    assert forall i :: |s.items| <= i < |s'.items| ==> s'.items[i] == added[i - |s.items|];
    assert s'.orders[..|s.orders|] == s.orders;
    CoverageIsLocal(s, s', NONE);
  }

  /** These steps change neither items nor order statuses. */
  lemma QuietStepCovers(s: State, step: Step)
    requires Covered(s) && Apply(s, step).Commit?
    requires step.DoCreateBill? || step.DoCancelBill? || step.DoMarkUsed? || step.DoExpire?
    ensures Covered(Next(s, step))
  {
    CoverageIsLocal(s, Next(s, step), NONE);
  }

  /** Guarded steps keep every completed order covered. */
  lemma StepCovers(s: State, step: Step)
    requires Inv(s) && Covered(s) && Admissible(step) && Guarded(s, step)
    ensures Covered(Next(s, step))
  {
    if Apply(s, step).Commit? {
      match step {
        case DoAddOrder(r, now, serial) => AddOrderCovers(s, r, now, serial);
        case DoCreateBill(o, amount) => QuietStepCovers(s, step);
        case DoCancelBill(b) => QuietStepCovers(s, step);
        case DoCancelOrder(o) => CancelOrderCovers(s, o);
        case DoCancelItem(i, o) => ChangeItemCovers(s, i, o, ItemCanceled);
        case DoRequestReturn(i, o) => ChangeItemCovers(s, i, o, ReturnRequested);
        case DoApproveReturn(i, o) => ChangeItemCovers(s, i, o, ReturnApproved);
        case DoRejectReturn(i, o) => ChangeItemCovers(s, i, o, Fulfilled);
        case DoCreateRefundBill(i, amount) => CreateRefundBillCovers(s, i, amount);
        case DeliverPayment(b, payment, ok) => HandlePaymentCovers(s, b, payment, ok);
        case DeliverGenerate(o, lookup) => GenerateCovers(s, o, lookup);
        case DoMarkUsed(t, at) => QuietStepCovers(s, step);
        case DoExpire(now) => QuietStepCovers(s, step);
      }
    }
  }

  lemma HandlePaymentCovers(s: State, b: nat, payment: Option<nat>, ok: bool)
    requires Inv(s) && Covered(s) && HandlePayment(s, b, payment, ok).Commit?
    requires PaymentGuard(s, DeliverPayment(b, payment, ok))
    ensures Covered(HandlePayment(s, b, payment, ok).state)
  {
    if s.bills[b].status.BillPending? {
      if !ok {
        CoverageIsLocal(s, HandlePayment(s, b, payment, ok).state, NONE);
      } else if s.bills[b].kind.Payment? {
        PaymentCovers(s, b, payment);
      } else {
        RefundCovers(s, b, payment, s.bills[b].item.value);
      }
    }
  }
}
