/**
 * Recalculating an order's status restores the invariant that the transaction suspended for that order. A new status is
 * right when everything the invariant says about an order of that status holds already; each branch of the
 * recalculation either picks such a status or makes it right by what else it writes.
 */
module Recalculation {
  import opened Sums
  import opened Entities
  import opened Lifecycle
  import opened Invariants
  import opened ItemSums

  /** A new status that every clause about the order agrees with. */
  ghost predicate StatusFits(s: State, o: nat, order': Order)
    requires o < |s.orders|
  {
    var order := s.orders[o];
    && order' == order.(status := order'.status, itemsCount := order'.itemsCount)
    && (forall i :: 0 <= i < |s.items| && s.items[i].order == o ==> Fits(s.items[i].status, order'.status))
    && Reached(order.status) == Reached(order'.status)
    && (order.status.PendingRefund? ==> order'.status.PendingRefund?)
    && (order.status.OrderPaid? || Late(order.status) ==> Late(order'.status))
    && (order.status.OrderCanceled? <==> false)
    && (order'.status.PartiallyPaid? ==>
          order.paid >= MINOR_PER_UNIT && order.paid != order.total && SomeLive(s.items, o))
    && (order'.status.PendingRefund? ==> order.total < order.paid)
    && (order'.status.Unpaid? ==>
          && (Empty(s.items, o) || SomeLive(s.items, o))
          && order.paid < MINOR_PER_UNIT && order.paid != order.total)
    && (order'.status.ReturnInProgress? <==> HasOpen(s.items, o))
    && (order'.status.PartiallyReturned? ==> order.returnedItemsCount < order'.itemsCount)
  }

  lemma StatusKeepsMoney(s: State, o: nat, order': Order)
    requires Money(s, o) && Returns(s, o) && o < |s.orders| && StatusFits(s, o, order')
    ensures var s' := s.(orders := s.orders[o := order']); Money(s', NONE) && Returns(s', NONE)
  {
    var s' := s.(orders := s.orders[o := order']);
    forall p | 0 <= p < |s'.orders| ensures MoneyOk(s', p, NONE) && ReturnsOk(s', p, NONE) {
      assert MoneyOk(s, p, o) && ReturnsOk(s, p, o);
    }
  }

  lemma StatusKeeps(s: State, o: nat, order': Order)
    requires InvX(s, o) && o < |s.orders| && StatusFits(s, o, order')
    ensures InvX(s.(orders := s.orders[o := order']), NONE)
  {
    StatusKeepsMoney(s, o, order');
    LinksKept(s, s.(orders := s.orders[o := order']));
  }

  predicate Early(st: OrderStatus) {
    st.Unpaid? || st.PartiallyPaid? || st.PendingRefund?
  }

  lemma ToPaidMoney(s: State, o: nat, p: nat)
    requires ItemsOk(s) && ItemPhases(s, o) && o < |s.orders| && p < |s.orders|
    requires Early(s.orders[o].status) && s.orders[o].total <= s.orders[o].paid
    requires MoneyOk(s, p, o) && ReturnsOk(s, p, o)
    ensures MoneyOk(ToPaid(s, o, true).state, p, NONE) && ReturnsOk(ToPaid(s, o, true).state, p, NONE)
  {
    RelabeledSums(s.items, ToPaid(s, o, true).state.items, p);
  }

  lemma ToPaidRefs(s: State, o: nat)
    requires Refs(s) && o < |s.orders|
    ensures Refs(ToPaid(s, o, true).state)
  {
  }

  lemma ToPaidMessages(s: State, o: nat)
    requires MessagePhases(s) && o < |s.orders| && Early(s.orders[o].status)
    ensures MessagePhases(ToPaid(s, o, true).state)
  {
  }

  lemma ToPaidLive(s: State, o: nat)
    requires LivePhases(s, o) && o < |s.orders| && SomeLive(s.items, o)
    ensures LivePhases(ToPaid(s, o, true).state, NONE)
  {
    var s' := ToPaid(s, o, true).state;
    forall p | 0 <= p < |s.orders| && SomeLive(s.items, p) ensures SomeLive(s'.items, p) {
      var j :| 0 <= j < |s.items| && s.items[j].order == p && !s.items[j].status.ItemCanceled?;
      assert s'.items[j].order == p && !s'.items[j].status.ItemCanceled?;
    }
  }

  lemma ToPaidPhases(s: State, o: nat)
    requires Refs(s) && Phases(s, o) && o < |s.orders| && Early(s.orders[o].status) && SomeLive(s.items, o)
    requires forall b :: 0 <= b < |s.bills| && s.bills[b].kind.Refund? ==> s.bills[b].order != o
    requires Refs(ToPaid(s, o, true).state)
    ensures Phases(ToPaid(s, o, true).state, NONE)
  {
    ToPaidMessages(s, o);
    ToPaidLive(s, o);
  }

  lemma ToPaidKeeps(s: State, o: nat)
    requires InvX(s, o) && o < |s.orders| && Early(s.orders[o].status)
    requires s.orders[o].total <= s.orders[o].paid && SomeLive(s.items, o)
    requires forall b :: 0 <= b < |s.bills| && s.bills[b].kind.Refund? ==> s.bills[b].order != o
    ensures InvX(ToPaid(s, o, true).state, NONE)
  {
    var s' := ToPaid(s, o, true).state;
    ToPaidRefs(s, o);
    ToPaidPhases(s, o);
    forall p | 0 <= p < |s'.orders| ensures MoneyOk(s', p, NONE) && ReturnsOk(s', p, NONE) {
      ToPaidMoney(s, o, p);
    }
    LinksKept(s, s');
  }

  lemma ToPendingRefundMoney(s: State, o: nat)
    requires ItemsOk(s) && ItemPhases(s, o) && Money(s, o) && Returns(s, o)
    requires o < |s.orders| && s.orders[o].status.PartiallyPaid? && s.orders[o].total < s.orders[o].paid
    ensures Money(ToPendingRefund(s, o), NONE) && Returns(ToPendingRefund(s, o), NONE)
  {
    var s' := ToPendingRefund(s, o);
    forall p | 0 <= p < |s'.orders| ensures MoneyOk(s', p, NONE) && ReturnsOk(s', p, NONE) {
      assert MoneyOk(s, p, o) && ReturnsOk(s, p, o);
      BillAdded(s.bills, s'.bills[|s.bills|], p);
    }
  }

  lemma ToPendingRefundKeeps(s: State, o: nat)
    requires InvX(s, o) && o < |s.orders| && s.orders[o].status.PartiallyPaid?
    requires s.orders[o].total < s.orders[o].paid
    ensures InvX(ToPendingRefund(s, o), NONE)
  {
    var s' := ToPendingRefund(s, o);
    assert Refs(s');
    ToPendingRefundMoney(s, o);
    LinksKept(s, s');
  }

  /** A positive price of live items comes from a live item. */
  lemma LiveFromPrice(s: State, o: nat)
    requires Sum(s.items, LivePrice(o)) > 0
    ensures SomeLive(s.items, o)
  {
    var i := SumPositive(s.items, LivePrice(o));
  }

  /** An unpaid order that is not paid in full stays unpaid, is partially paid, or is canceled with its last item. */
  lemma UnpaidFits(s: State, o: nat, order': Order)
    requires ItemsOk(s) && ItemPhases(s, o) && o < |s.orders| && s.orders[o].status.Unpaid? && ReturnsOk(s, o, o)
    requires order' == s.orders[o].(status := order'.status)
    requires
      || (order'.status.OrderCanceled? && AllCanceled(s.items, o))
      || (!AllCanceled(s.items, o) && s.orders[o].paid != s.orders[o].total
          && order'.status == if s.orders[o].paid >= MINOR_PER_UNIT then PartiallyPaid else Unpaid)
    ensures StatusFits(s, o, order')
  {
  }

  lemma RecalculateUnpaid(s: State, o: nat, hasPublisher: bool)
    requires InvX(s, o) && o < |s.orders| && s.orders[o].status.Unpaid?
    requires Recalculate(s, o, hasPublisher).Commit?
    ensures InvX(Recalculate(s, o, hasPublisher).state, NONE)
  {
    var order, s' := s.orders[o], Recalculate(s, o, hasPublisher).state;
    if !AllCanceled(s.items, o) && order.total == order.paid {
      ToPaidKeeps(s, o);
    } else {
      assert s.orders[o := order] == s.orders;
      assert s' == s.(orders := s.orders[o := s'.orders[o]]);
      UnpaidFits(s, o, s'.orders[o]);
      StatusKeeps(s, o, s'.orders[o]);
    }
  }

  lemma RecalculatePartiallyPaid(s: State, o: nat, hasPublisher: bool)
    requires InvX(s, o) && o < |s.orders| && s.orders[o].status.PartiallyPaid?
    requires Recalculate(s, o, hasPublisher).Commit?
    ensures InvX(Recalculate(s, o, hasPublisher).state, NONE)
  {
    var order := s.orders[o];
    assert MoneyOk(s, o, o) && ReturnsOk(s, o, o);
    if order.total == order.paid {
      LiveFromPrice(s, o);
      ToPaidKeeps(s, o);
    } else if order.total < order.paid {
      ToPendingRefundKeeps(s, o);
    } else {
      LiveFromPrice(s, o);
      StatusKeeps(s, o, order);
      assert s.orders[o := order] == s.orders;
    }
  }

  /** From Paid on, recalculation only rewrites the order itself, with a status its items and counters agree with. */
  lemma RecalculatedFits(s: State, o: nat, hasPublisher: bool)
    requires ItemsOk(s) && ItemPhases(s, o) && o < |s.orders| && !Early(s.orders[o].status)
    requires ReturnsOk(s, o, o) && (s.orders[o].status.OrderPaid? ==> SomeLive(s.items, o))
    requires Recalculate(s, o, hasPublisher).Commit?
    ensures var s' := Recalculate(s, o, hasPublisher).state;
      s' == s.(orders := s.orders[o := s'.orders[o]]) && StatusFits(s, o, s'.orders[o])
  {
    assert s.orders[o := s.orders[o]] == s.orders;
  }

  lemma RecalculatePendingRefund(s: State, o: nat, hasPublisher: bool)
    requires InvX(s, o) && o < |s.orders| && s.orders[o].status.PendingRefund?
    ensures Recalculate(s, o, hasPublisher) == Commit(s) && InvX(s, NONE)
  {
    assert MoneyOk(s, o, o) && ReturnsOk(s, o, o);
    StatusKeeps(s, o, s.orders[o]);
    assert s.orders[o := s.orders[o]] == s.orders;
  }

  /** Every status the recalculation commits agrees with the order's items, bills and counters. */
  lemma RecalculateKeeps(s: State, o: nat, hasPublisher: bool)
    requires InvX(s, o) && o < |s.orders| && Recalculate(s, o, hasPublisher).Commit?
    ensures InvX(Recalculate(s, o, hasPublisher).state, NONE)
  {
    if s.orders[o].status.Unpaid? {
      RecalculateUnpaid(s, o, hasPublisher);
    } else if s.orders[o].status.PartiallyPaid? {
      RecalculatePartiallyPaid(s, o, hasPublisher);
    } else if s.orders[o].status.PendingRefund? {
      RecalculatePendingRefund(s, o, hasPublisher);
    } else {
      RecalculatedFits(s, o, hasPublisher);
      StatusKeeps(s, o, Recalculate(s, o, hasPublisher).state.orders[o]);
    }
  }
}
