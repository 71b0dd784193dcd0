/**
 * Item status changes keep the invariant: cancel, request, approve and reject a return. The change itself suspends what
 * the invariant says about the status of its order; the recalculation that follows restores it.
 */
module ItemSteps {
  import opened Sums
  import opened Entities
  import opened Lifecycle
  import opened Invariants
  import opened ItemSums
  import opened Recalculation

  /** What recalculation never touches: stocks, tickets, prices, which items are canceled or returned. */
  lemma RecalculateFrame(s: State, o: nat, hasPublisher: bool)
    requires o < |s.orders| && Recalculate(s, o, hasPublisher).Commit?
    ensures var s' := Recalculate(s, o, hasPublisher).state;
      s'.stocks == s.stocks && s'.tickets == s.tickets && |s'.orders| == |s.orders| && Relabeled(s.items, s'.items)
  {
  }

  /** The four changes made on their own; Returned is part of a settled refund. */
  predicate Target(to: ItemStatus) {
    to.ItemCanceled? || to.ReturnRequested? || to.ReturnApproved? || to.Fulfilled?
  }

  ghost predicate Changes(s: State, i: nat, o: nat, to: ItemStatus) {
    Inv(s) && i < |s.items| && s.items[i].order == o && CanChange(s.items[i].status, to) && Target(to)
  }

  lemma ReleasedOk(s: State, list: seq<Item>)
    requires StocksOk(s)
    ensures StocksOk(s.(stocks := Released(s.stocks, list)))
  {
    forall k | 0 <= k < |s.stocks| ensures Released(s.stocks, list)[k].quantity >= 0 {
      SumNonNegative(list, OfStock(k));
    }
  }

  lemma EffectRefs(s: State, i: nat, o: nat, to: ItemStatus)
    requires Refs(s) && i < |s.items| && s.items[i].order == o
    ensures Refs(ItemEffect(s, i, o, to))
  {
    ReleasedOk(s, [s.items[i]]);
  }

  lemma EffectLive(s: State, i: nat, o: nat, to: ItemStatus)
    requires LivePhases(s, NONE) && i < |s.items| && s.items[i].order == o && o < |s.orders|
    requires to.ItemCanceled? ==> !s.orders[o].status.OrderPaid?
    ensures LivePhases(ItemEffect(s, i, o, to), o)
  {
    var s' := ItemEffect(s, i, o, to);
    assert s'.items[i].order == o;
    forall p | 0 <= p < |s'.orders| && p != o && SomeLive(s.items, p) ensures SomeLive(s'.items, p) {
      var j :| 0 <= j < |s.items| && s.items[j].order == p && !s.items[j].status.ItemCanceled?;
      assert s'.items[j] == s.items[j];
    }
    if SomeLive(s.items, o) && !to.ItemCanceled? {
      assert !s'.items[i].status.ItemCanceled?;
    }
  }

  lemma EffectPhases(s: State, i: nat, o: nat, to: ItemStatus)
    requires Refs(s) && Phases(s, NONE) && RefundLinks(s) && i < |s.items| && s.items[i].order == o
    requires CanChange(s.items[i].status, to) && Target(to) && Refs(ItemEffect(s, i, o, to))
    ensures Phases(ItemEffect(s, i, o, to), o)
  {
    EffectLive(s, i, o, to);
  }

  lemma EffectMoney(s: State, i: nat, o: nat, to: ItemStatus, p: nat)
    requires i < |s.items| && s.items[i].order == o && o < |s.orders| && CanChange(s.items[i].status, to) && Target(to)
    requires Fits(s.items[i].status, s.orders[o].status) && p < |s.orders| && MoneyOk(s, p, NONE)
    requires s.items[i].price >= 0
    ensures MoneyOk(ItemEffect(s, i, o, to), p, o)
  {
    var s' := ItemEffect(s, i, o, to);
    ItemMoves(s.items, i, to, p);
    if to.ReturnApproved? {
      BillAdded(s.bills, s'.bills[|s.bills|], p);
    }
  }

  lemma EffectReturns(s: State, i: nat, o: nat, to: ItemStatus, p: nat)
    requires i < |s.items| && s.items[i].order == o && o < |s.orders| && CanChange(s.items[i].status, to) && Target(to)
    requires Fits(s.items[i].status, s.orders[o].status) && p < |s.orders| && ReturnsOk(s, p, NONE)
    ensures ReturnsOk(ItemEffect(s, i, o, to), p, o)
  {
    var s' := ItemEffect(s, i, o, to);
    ItemMoves(s.items, i, to, p);
    if p != o && HasOpen(s.items, p) {
      var j :| 0 <= j < |s.items| && s.items[j].order == p && Open(s.items[j].status);
      assert s'.items[j] == s.items[j];
    }
  }

  lemma EffectKeeps(s: State, i: nat, o: nat, to: ItemStatus)
    requires Changes(s, i, o, to)
    ensures InvX(ItemEffect(s, i, o, to), o)
  {
    EffectRefs(s, i, o, to);
    EffectPhases(s, i, o, to);
    var s' := ItemEffect(s, i, o, to);
    forall p | 0 <= p < |s'.orders| ensures MoneyOk(s', p, o) && ReturnsOk(s', p, o) {
      EffectMoney(s, i, o, to, p);
      EffectReturns(s, i, o, to, p);
    }
    LinksKept(s, ItemEffect(s, i, o, to));
  }

  lemma ChangeItemKeeps(s: State, i: nat, o: nat, to: ItemStatus)
    requires Inv(s) && Target(to) && ChangeItem(s, i, o, to).Commit?
    ensures Inv(ChangeItem(s, i, o, to).state)
  {
    EffectKeeps(s, i, o, to);
    RecalculateKeeps(ItemEffect(s, i, o, to), o, false);
    RecalculateFrame(ItemEffect(s, i, o, to), o, false);
  }
}
