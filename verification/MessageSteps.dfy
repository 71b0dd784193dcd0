/**
 * Message handlers and ticket updates keep the invariant: payment results, ticket generation, check-in and expiry. A
 * handler is followed write by write: the settled bill and the credited order, the item it concerns, the recalculated
 * status, and at last the ticket; in between the order it works on is exempt from the clauses that the recalculation
 * restores.
 */
module MessageSteps {
  import opened Options
  import opened Sums
  import opened Entities
  import opened Lifecycle
  import opened Invariants
  import opened ItemSums
  import opened Recalculation
  import opened ItemSteps

  // ---- failed payments ----

  lemma FailureOrder(s: State, b: nat, payment: Option<nat>, p: nat)
    requires b < |s.bills| && s.bills[b].status.BillPending? && (s.bills[b].kind.Payment? ==> s.bills[b].amount >= 0)
    requires p < |s.orders| && MoneyOk(s, p, NONE) && ReturnsOk(s, p, NONE)
    ensures MoneyOk(Settle(s, b, payment, false), p, NONE) && ReturnsOk(Settle(s, b, payment, false), p, NONE)
  {
    BillMoves(s.bills, b, SettledBill(s.bills[b], payment, false), p);
  }

  lemma FailureKeeps(s: State, b: nat, payment: Option<nat>)
    requires Inv(s) && b < |s.bills| && s.bills[b].status.BillPending?
    ensures Inv(Settle(s, b, payment, false))
  {
    var s' := Settle(s, b, payment, false);
    forall p | 0 <= p < |s'.orders| ensures MoneyOk(s', p, NONE) && ReturnsOk(s', p, NONE) {
      FailureOrder(s, b, payment, p);
    }
    LinksKept(s, s');
  }

  // ---- successful payments ----

  ghost predicate Pays(s: State, b: nat) {
    Inv(s) && b < |s.bills| && s.bills[b].status.BillPending? && s.bills[b].kind.Payment?
  }

  lemma PaidMoney(s: State, b: nat, payment: Option<nat>, p: nat)
    requires b < |s.bills| && s.bills[b].status.BillPending? && s.bills[b].kind.Payment? && s.bills[b].amount >= 0
    requires s.bills[b].order < |s.orders| && p < |s.orders| && MoneyOk(s, p, NONE)
    ensures MoneyOk(Settle(s, b, payment, true), p, s.bills[b].order)
  {
    BillMoves(s.bills, b, SettledBill(s.bills[b], payment, true), p);
  }

  lemma PaidKeeps(s: State, b: nat, payment: Option<nat>)
    requires Pays(s, b)
    ensures InvX(Settle(s, b, payment, true), s.bills[b].order)
  {
    var s' := Settle(s, b, payment, true);
    assert Refs(s');
    forall p | 0 <= p < |s'.orders| ensures MoneyOk(s', p, s.bills[b].order) && ReturnsOk(s', p, s.bills[b].order) {
      PaidMoney(s, b, payment, p);
      assert ReturnsOk(s, p, NONE);
    }
    LinksKept(s, s');
  }

  // ---- successful refunds ----

  /** A pending refund bill of item i, whose success is being applied. */
  ghost predicate Refunds(s: State, b: nat, i: nat) {
    && Inv(s) && b < |s.bills| && s.bills[b].status.BillPending? && s.bills[b].kind.Refund?
    && s.bills[b].item == Some(i)
  }

  function RefundApplied(s: State, b: nat, payment: Option<nat>, i: nat): State
    requires b < |s.bills| && s.bills[b].order < |s.orders| && i < |s.items|
  {
    SetItem(Settle(s, b, payment, true), i, ItemReturned)
  }

  /** What such a bill finds: an approved return of an order in progress, for at most the item's price. */
  ghost predicate Ready(s: State, b: nat, i: nat) {
    && b < |s.bills| && s.bills[b].status.BillPending? && s.bills[b].kind.Refund? && s.bills[b].item == Some(i)
    && i < |s.items| && s.items[i].status.ReturnApproved? && s.items[i].order == s.bills[b].order < |s.orders|
    && s.orders[s.bills[b].order].status.ReturnInProgress? && s.bills[b].amount <= s.items[i].price
  }

  lemma RefundStarts(s: State, b: nat, i: nat)
    requires Refunds(s, b, i)
    ensures Ready(s, b, i)
  {
    assert Open(s.items[i].status);
    assert ReturnsOk(s, s.bills[b].order, NONE);
  }

  lemma RefundMoney(s: State, b: nat, payment: Option<nat>, i: nat, p: nat)
    requires Ready(s, b, i) && p < |s.orders| && MoneyOk(s, p, NONE)
    ensures MoneyOk(RefundApplied(s, b, payment, i), p, s.bills[b].order)
  {
    BillMoves(s.bills, b, SettledBill(s.bills[b], payment, true), p);
    ItemMoves(s.items, i, ItemReturned, p);
  }

  lemma RefundReturns(s: State, b: nat, payment: Option<nat>, i: nat, p: nat)
    requires Ready(s, b, i) && p < |s.orders| && ReturnsOk(s, p, NONE)
    ensures ReturnsOk(RefundApplied(s, b, payment, i), p, s.bills[b].order)
  {
    ItemMoves(s.items, i, ItemReturned, p);
    var s' := RefundApplied(s, b, payment, i);
    if p != s.bills[b].order && HasOpen(s.items, p) {
      var j :| 0 <= j < |s.items| && s.items[j].order == p && Open(s.items[j].status);
      assert s'.items[j] == s.items[j];
    }
  }

  lemma RefundRefsKept(s: State, b: nat, payment: Option<nat>, i: nat)
    requires Refs(s) && Ready(s, b, i)
    ensures Refs(RefundApplied(s, b, payment, i))
  {
  }

  lemma RefundPhasesKept(s: State, b: nat, payment: Option<nat>, i: nat)
    requires Refs(s) && Phases(s, NONE) && Ready(s, b, i)
    requires Refs(RefundApplied(s, b, payment, i))
    ensures Phases(RefundApplied(s, b, payment, i), s.bills[b].order)
  {
    var s' := RefundApplied(s, b, payment, i);
    forall p | 0 <= p < |s.orders| && SomeLive(s.items, p) ensures SomeLive(s'.items, p) {
      var j :| 0 <= j < |s.items| && s.items[j].order == p && !s.items[j].status.ItemCanceled?;
      assert s'.items[j].order == p && !s'.items[j].status.ItemCanceled?;
    }
  }

  lemma RefundLinksKept(s: State, b: nat, payment: Option<nat>, i: nat)
    requires Refs(s) && Links(s) && Ready(s, b, i) && Refs(RefundApplied(s, b, payment, i))
    ensures Links(RefundApplied(s, b, payment, i))
  {
    var s' := RefundApplied(s, b, payment, i);
    forall j | 0 <= j < |s'.items| && s'.items[j].status.ItemReturned? ensures exists c: nat :: RefundedBy(s', j, c) {
      if j == i {
        assert RefundedBy(s', j, b);
      } else {
        var c: nat :| RefundedBy(s, j, c);
        assert RefundedBy(s', j, c);
      }
    }
  }

  lemma RefundKeeps(s: State, b: nat, payment: Option<nat>, i: nat)
    requires Refunds(s, b, i)
    ensures i < |s.items| && InvX(RefundApplied(s, b, payment, i), s.bills[b].order)
    ensures ReturnedVoided(RefundApplied(s, b, payment, i), i)
  {
    RefundStarts(s, b, i);
    var s' := RefundApplied(s, b, payment, i);
    RefundRefsKept(s, b, payment, i);
    RefundPhasesKept(s, b, payment, i);
    forall p | 0 <= p < |s'.orders| ensures MoneyOk(s', p, s.bills[b].order) && ReturnsOk(s', p, s.bills[b].order) {
      RefundMoney(s, b, payment, i, p);
      RefundReturns(s, b, payment, i, p);
    }
    RefundLinksKept(s, b, payment, i);
  }

  lemma VoidTickets(s: State, i: nat)
    requires Refs(s) && TicketPhases(s, NONE) && OneTicketEach(s) && ReturnedVoided(s, i)
    requires i < |s.items| && s.items[i].status.ItemReturned?
    ensures var s' := VoidTicket(s, i);
      Refs(s') && TicketPhases(s', NONE) && OneTicketEach(s') && ReturnedVoided(s', NONE)
  {
    if FirstTicket(s.tickets, i).Some? {
      ReleasedOk(s, [SeatOf(s.tickets[FirstTicket(s.tickets, i).value])]);
    }
  }

  lemma VoidKeeps(s: State, i: nat)
    requires InvX(s, NONE) && ReturnedVoided(s, i) && i < |s.items| && s.items[i].status.ItemReturned?
    ensures Inv(VoidTicket(s, i))
  {
    VoidTickets(s, i);
    TicketsReplaced(s, VoidTicket(s, i), NONE, NONE);
  }

  lemma HandlePaymentKeeps(s: State, b: nat, payment: Option<nat>, ok: bool)
    requires Inv(s) && HandlePayment(s, b, payment, ok).Commit?
    ensures Inv(HandlePayment(s, b, payment, ok).state)
  {
    if s.bills[b].status.BillPending? {
      var bill := s.bills[b];
      if !ok {
        FailureKeeps(s, b, payment);
      } else if bill.kind.Payment? {
        var s1 := Settle(s, b, payment, true);
        PaidKeeps(s, b, payment);
        RecalculateKeeps(s1, bill.order, true);
        RecalculateFrame(s1, bill.order, true);
      } else {
        var i := bill.item.value;
        RefundStarts(s, b, i);
        RefundKeeps(s, b, payment, i);
        var s1 := RefundApplied(s, b, payment, i);
        RecalculateKeeps(s1, bill.order, false);
        RecalculateFrame(s1, bill.order, false);
        VoidKeeps(Recalculate(s1, bill.order, false).state, i);
      }
    }
  }

  // ---- ticket generation ----

  /** Tickets store a serial number, so the count query by order id never finds one. */
  lemma CountFindsNothing(s: State, o: nat)
    requires TicketsOk(s)
    ensures Sum(s.tickets, KeyIs(ObjectId(o))) == 0
  {
    SumZero(s.tickets, KeyIs(ObjectId(o)));
  }

  /** A list of the order's items, each once, in the order of the collection. */
  ghost predicate Ascends(items: seq<Item>, list: seq<Item>, o: nat) {
    && (forall j, j' :: 0 <= j < j' < |list| ==> list[j].id < list[j'].id)
    && (forall j :: 0 <= j < |list| ==> list[j].id < |items| && list[j] == items[list[j].id] && list[j].order == o)
  }

  lemma {:induction false} ItemsOfAscend(items: seq<Item>, o: nat)
    requires forall i :: 0 <= i < |items| ==> items[i].id == i
    ensures Ascends(items, ItemsOf(items, o), o)
  {
    if |items| != 0 {
      var n := |items| - 1;
      ItemsOfAscend(items[..n], o);
      var front := ItemsOf(items[..n], o);
      assert Ascends(items[..n], front, o);
      assert forall j :: 0 <= j < |front| ==> front[j].id < n && items[..n][front[j].id] == items[front[j].id];
    }
  }

  /** The database after ticket models were written for each of the order's items. */
  ghost predicate Ticketed(s: State, s': State, o: nat) {
    && |s.tickets| <= |s'.tickets| && s'.tickets[..|s.tickets|] == s.tickets
    && s' == s.(tickets := s'.tickets)
    && (forall t :: |s.tickets| <= t < |s'.tickets| ==>
          && s'.tickets[t].item < |s.items| && s.items[s'.tickets[t].item].order == o
          && s'.tickets[t].order.Serial? && s'.tickets[t].status.Valid?)
    && (forall t, t' :: |s.tickets| <= t < t' < |s'.tickets| ==> s'.tickets[t].item != s'.tickets[t'].item)
  }

  lemma TicketsForItems(s: State, o: nat, lookup: nat -> Lookup, serial: nat)
    requires Refs(s)
    ensures Ticketed(s, s.(tickets := s.tickets + TicketsFor(ItemsOf(s.items, o), serial, lookup)), o)
  {
    var list := ItemsOf(s.items, o);
    ItemsOfAscend(s.items, o);
    var made := TicketsFor(list, serial, lookup);
    assert forall j :: 0 <= j < |made| ==> made[j].item == list[j].id && made[j].order.Serial? && made[j].status.Valid?;
    var tickets := s.tickets + made;
    assert tickets[..|s.tickets|] == s.tickets;
    assert forall t :: |s.tickets| <= t < |tickets| ==> tickets[t] == made[t - |s.tickets|];
  }

  lemma GenerateWrites(s: State, o: nat, lookup: nat -> Lookup)
    requires Refs(s) && o < |s.orders| && Generate(s, o, lookup).Generated?
    ensures Ticketed(s, s.(tickets := Generate(s, o, lookup).tickets), o)
    ensures !s.orders[o].status.OrderPaid? ==> Generate(s, o, lookup).tickets == s.tickets
    ensures s.orders[o].status.OrderPaid? ==>
      Generate(s, o, lookup).tickets == s.tickets + TicketsFor(ItemsOf(s.items, o), s.orders[o].serial, lookup)
  {
    CountFindsNothing(s, o);
    TicketsForItems(s, o, lookup, s.orders[o].serial);
  }

  lemma TicketedTickets(s: State, s': State, o: nat)
    requires Refs(s) && TicketPhases(s, NONE) && OneTicketEach(s) && ReturnedVoided(s, NONE)
    requires o < |s.orders| && Ticketed(s, s', o) && (!s.orders[o].status.OrderPaid? ==> s'.tickets == s.tickets)
    ensures Refs(s') && TicketPhases(s', o)
  {
    assert forall t :: 0 <= t < |s.tickets| ==> s'.tickets[t] == s.tickets[t];
  }

  /** New tickets are for items of a Paid order, which had none. */
  lemma TicketedOnce(s: State, s': State, o: nat)
    requires Refs(s) && ItemPhases(s, NONE) && TicketPhases(s, NONE) && OneTicketEach(s) && ReturnedVoided(s, NONE)
    requires o < |s.orders| && Ticketed(s, s', o) && (!s.orders[o].status.OrderPaid? ==> s'.tickets == s.tickets)
    requires Refs(s')
    ensures OneTicketEach(s') && ReturnedVoided(s', NONE)
  {
    assert forall t :: 0 <= t < |s.tickets| ==> s'.tickets[t] == s.tickets[t];
  }

  lemma TicketedKeeps(s: State, s': State, o: nat)
    requires Inv(s) && o < |s.orders| && Ticketed(s, s', o)
    requires !s.orders[o].status.OrderPaid? ==> s'.tickets == s.tickets
    ensures InvX(s', o) && ReturnedVoided(s', NONE)
  {
    TicketedTickets(s, s', o);
    TicketedOnce(s, s', o);
    TicketsReplaced(s, s', NONE, o);
  }

  lemma FulfilledOrder(s: State, o: nat, p: nat)
    requires p < |s.orders| && MoneyOk(s, p, o) && ReturnsOk(s, p, o)
    ensures var s' := s.(items := BulkItems(s.items, o, ItemPaid, Fulfilled)); MoneyOk(s', p, o) && ReturnsOk(s', p, o)
  {
    RelabeledSums(s.items, BulkItems(s.items, o, ItemPaid, Fulfilled), p);
  }

  lemma FulfilledKeeps(s: State, o: nat)
    requires InvX(s, o) && o < |s.orders|
    ensures InvX(s.(items := BulkItems(s.items, o, ItemPaid, Fulfilled)), o)
  {
    var s' := s.(items := BulkItems(s.items, o, ItemPaid, Fulfilled));
    FulfilledPhases(s, o);
    forall p | 0 <= p < |s'.orders| ensures MoneyOk(s', p, o) && ReturnsOk(s', p, o) {
      FulfilledOrder(s, o, p);
    }
    LinksKept(s, s');
  }

  lemma FulfilledPhases(s: State, o: nat)
    requires Refs(s) && Phases(s, o) && o < |s.orders|
    ensures var s' := s.(items := BulkItems(s.items, o, ItemPaid, Fulfilled)); Refs(s') && Phases(s', o)
  {
    var s' := s.(items := BulkItems(s.items, o, ItemPaid, Fulfilled));
    forall p | 0 <= p < |s.orders| && SomeLive(s.items, p) ensures SomeLive(s'.items, p) {
      var j :| 0 <= j < |s.items| && s.items[j].order == p && !s.items[j].status.ItemCanceled?;
      assert s'.items[j].order == p && !s'.items[j].status.ItemCanceled?;
    }
  }

  lemma MarkFulfilledKeeps(s: State, o: nat)
    requires InvX(s, o) && ReturnedVoided(s, NONE) && MarkFulfilled(s, o).Commit?
    ensures Inv(MarkFulfilled(s, o).state)
  {
    var s1 := s.(items := BulkItems(s.items, o, ItemPaid, Fulfilled));
    FulfilledKeeps(s, o);
    RecalculateKeeps(s1, o, false);
    RecalculateFrame(s1, o, false);
  }

  lemma HandleGenerateKeeps(s: State, o: nat, lookup: nat -> Lookup)
    requires Inv(s) && HandleGenerate(s, o, lookup).Commit?
    ensures Inv(HandleGenerate(s, o, lookup).state)
  {
    if Generate(s, o, lookup).Generated? {
      var s1 := s.(tickets := Generate(s, o, lookup).tickets);
      GenerateWrites(s, o, lookup);
      TicketedKeeps(s, s1, o);
      MarkFulfilledKeeps(s1, o);
    }
  }

  // ---- ticket status ----

  /** Tickets keep what they are for, and whether they are void. */
  ghost predicate TicketsFrame(s: State, s': State) {
    && s' == s.(tickets := s'.tickets) && |s'.tickets| == |s.tickets|
    && forall t :: 0 <= t < |s.tickets| ==>
         && s'.tickets[t].item == s.tickets[t].item && s'.tickets[t].order == s.tickets[t].order
         && s'.tickets[t].stock == s.tickets[t].stock
         && (s.tickets[t].status.Invalidated? <==> s'.tickets[t].status.Invalidated?)
  }

  lemma TicketsFrameKeeps(s: State, s': State)
    requires Inv(s) && TicketsFrame(s, s')
    ensures Inv(s')
  {
    LedgerKept(s, s', NONE, NONE);
  }

  // ---- every step ----

  lemma InitialInv(s: State)
    requires Initial(s)
    ensures Inv(s)
  {
  }
}
