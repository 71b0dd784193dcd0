/** Seats are conserved: what a stock still sells plus the seats its items hold never changes. */
module Conservation {
  import opened Options
  import opened Sums
  import opened Entities
  import opened OrderBuilding
  import opened Lifecycle
  import opened Invariants
  import opened ItemSums
  import opened ItemSteps
  import opened BillSteps
  import opened MessageSteps
  import opened Coverage

  function StockTotal(s: State, k: nat): int
    requires k < |s.stocks|
  {
    s.stocks[k].quantity + Sum(s.items, Holds(k))
  }

  ghost predicate Conserves(s: State, s': State) {
    |s'.stocks| == |s.stocks| && forall k :: 0 <= k < |s.stocks| ==> StockTotal(s', k) == StockTotal(s, k)
  }

  /** Individually canceled seats of the order. */
  function CanceledOf(o: nat, k: nat): Item -> int {
    (i: Item) => if i.order == o && i.stock == k && i.status.ItemCanceled? then 1 else 0
  }

  function SeatsOf(o: nat, k: nat): Item -> int {
    (i: Item) => if i.order == o && i.stock == k then 1 else 0
  }

  predicate NoneCanceled(items: seq<Item>, o: nat) {
    forall i :: 0 <= i < |items| && items[i].order == o ==> !items[i].status.ItemCanceled?
  }

  /** An order is canceled only while none of its seats was canceled on its own. */
  predicate CancelGuard(s: State, step: Step) {
    step.DoCancelOrder? ==> NoneCanceled(s.items, step.order)
  }

  // ---- steps ----

  lemma RelabeledConserves(s: State, s': State)
    requires s'.stocks == s.stocks && Relabeled(s.items, s'.items)
    ensures Conserves(s, s')
  {
    forall k | 0 <= k < |s.stocks| ensures StockTotal(s', k) == StockTotal(s, k) {
      RelabeledHolds(s.items, s'.items, k);
    }
  }

  lemma AddOrderConserves(s: State, r: AddOrderRequest, now: int, serial: nat)
    requires StocksOk(s) && AddOrder(s, r, now, serial).Commit?
    ensures Conserves(s, AddOrder(s, r, now, serial).state)
  {
    var s' := AddOrder(s, r, now, serial).state;
    var added := Build(s.stocks, r.details, now, |s.orders|, |s.items|).value.items;
    AddOrderAdds(s, r, now, serial);
    forall k | 0 <= k < |s.stocks| ensures StockTotal(s', k) == StockTotal(s, k) {
      SumConcat(s.items, added, Holds(k));
      SumPointwise(added, added, Holds(k), OfStock(k));
    }
  }

  lemma SingleRelease(stocks: seq<Stock>, item: Item, k: nat)
    requires k < |stocks|
    ensures Released(stocks, [item])[k].quantity == stocks[k].quantity + if item.stock == k then 1 else 0
  {
    assert [item] == [] + [item];
    SumAppend([], item, OfStock(k));
  }

  lemma EffectConserves(s: State, i: nat, o: nat, to: ItemStatus)
    requires i < |s.items| && o < |s.orders| && CanChange(s.items[i].status, to) && Target(to)
    ensures Conserves(s, ItemEffect(s, i, o, to))
  {
    var s' := ItemEffect(s, i, o, to);
    forall k | 0 <= k < |s.stocks| ensures StockTotal(s', k) == StockTotal(s, k) {
      SumUpdate(s.items, i, s'.items[i], Holds(k));
      SingleRelease(s.stocks, s.items[i], k);
    }
  }

  lemma ChangeItemConserves(s: State, i: nat, o: nat, to: ItemStatus)
    requires Target(to) && ChangeItem(s, i, o, to).Commit?
    ensures Conserves(s, ChangeItem(s, i, o, to).state)
  {
    var s1 := ItemEffect(s, i, o, to);
    EffectConserves(s, i, o, to);
    RecalculateFrame(s1, o, false);
    RelabeledConserves(s1, ChangeItem(s, i, o, to).state);
  }

  /** Voiding releases all seats of the order: the individually canceled ones for a second time. */
  lemma CancelOrderMoves(s: State, o: nat, k: nat)
    requires ItemsOk(s) && ItemPhases(s, NONE) && CancelOrder(s, o).Commit? && k < |s.stocks|
    ensures StockTotal(CancelOrder(s, o).state, k) == StockTotal(s, k) + Sum(s.items, CanceledOf(o, k))
  {
    var s' := CancelOrder(s, o).state;
    SumFilter(s.items, InOrder(o), OfStock(k), SeatsOf(o, k));
    forall i | 0 <= i < |s.items|
      ensures SeatsOf(o, k)(s.items[i]) + Holds(k)(s'.items[i]) == Holds(k)(s.items[i]) + CanceledOf(o, k)(s.items[i])
    {
      assert Fits(s.items[i].status, s.orders[s.items[i].order].status);
    }
    var both := (i: Item) => Holds(k)(i) + CanceledOf(o, k)(i);
    SumAdd(s.items, s.items, s'.items, SeatsOf(o, k), both, Holds(k));
    SumAdd(s.items, s.items, s.items, Holds(k), both, CanceledOf(o, k));
  }

  /** Exactly when CancelOrder conserves seats: no seat of the order was canceled before. */
  lemma CancelOrderConservesIff(s: State, o: nat)
    requires Inv(s) && CancelOrder(s, o).Commit?
    ensures Conserves(s, CancelOrder(s, o).state) <==> NoneCanceled(s.items, o)
  {
    var s' := CancelOrder(s, o).state;
    if NoneCanceled(s.items, o) {
      forall k | 0 <= k < |s.stocks| ensures StockTotal(s', k) == StockTotal(s, k) {
        CancelOrderMoves(s, o, k);
        SumZero(s.items, CanceledOf(o, k));
      }
    } else {
      var i :| 0 <= i < |s.items| && s.items[i].order == o && s.items[i].status.ItemCanceled?;
      var k := s.items[i].stock;
      CancelOrderMoves(s, o, k);
      SumAtLeast(s.items, CanceledOf(o, k), i);
      assert StockTotal(s', k) != StockTotal(s, k);
    }
  }

  lemma PaymentConserves(s: State, b: nat, payment: Option<nat>)
    requires b < |s.bills| && s.bills[b].status.BillPending? && s.bills[b].kind.Payment?
    requires HandlePayment(s, b, payment, true).Commit?
    ensures Conserves(s, HandlePayment(s, b, payment, true).state)
  {
    RecalculateFrame(Settle(s, b, payment, true), s.bills[b].order, true);
    RelabeledConserves(s, HandlePayment(s, b, payment, true).state);
  }

  /** A refunded seat returns to its stock exactly when a ticket of that stock is found for it. */
  lemma RefundMoves(s: State, b: nat, payment: Option<nat>, i: nat, k: nat)
    requires Ready(s, b, i) && HandlePayment(s, b, payment, true).Commit? && k < |s.stocks|
    ensures var t := FirstTicket(s.tickets, i);
      StockTotal(HandlePayment(s, b, payment, true).state, k)
      == StockTotal(s, k) - (if s.items[i].stock == k then 1 else 0)
         + (if t.Some? && s.tickets[t.value].stock == k then 1 else 0)
  {
    var o, s1 := s.bills[b].order, RefundApplied(s, b, payment, i);
    var s2 := Recalculate(s1, o, false).state;
    RecalculateFrame(s1, o, false);
    RelabeledHolds(s1.items, s2.items, k);
    SumUpdate(s.items, i, s1.items[i], Holds(k));
    var t := FirstTicket(s.tickets, i);
    if t.Some? {
      SingleRelease(s2.stocks, SeatOf(s.tickets[t.value]), k);
    }
  }

  lemma RefundConserves(s: State, b: nat, payment: Option<nat>, i: nat)
    requires Ready(s, b, i) && Covered(s) && HandlePayment(s, b, payment, true).Commit?
    ensures Conserves(s, HandlePayment(s, b, payment, true).state)
  {
    assert CoveredOrder(s, s.items[i].order);
    assert HasTicket(s, i);
    var s' := HandlePayment(s, b, payment, true).state;
    RecalculateFrame(RefundApplied(s, b, payment, i), s.bills[b].order, false);
    forall k | 0 <= k < |s.stocks| ensures StockTotal(s', k) == StockTotal(s, k) {
      RefundMoves(s, b, payment, i, k);
    }
  }

  lemma HandlePaymentConserves(s: State, b: nat, payment: Option<nat>, ok: bool)
    requires Inv(s) && Covered(s) && HandlePayment(s, b, payment, ok).Commit?
    ensures Conserves(s, HandlePayment(s, b, payment, ok).state)
  {
    if s.bills[b].status.BillPending? && ok {
      if s.bills[b].kind.Payment? {
        PaymentConserves(s, b, payment);
      } else {
        RefundStarts(s, b, s.bills[b].item.value);
        RefundConserves(s, b, payment, s.bills[b].item.value);
      }
    }
  }

  lemma GenerateConserves(s: State, o: nat, lookup: nat -> Lookup)
    requires HandleGenerate(s, o, lookup).Commit?
    ensures Conserves(s, HandleGenerate(s, o, lookup).state)
  {
    if Generate(s, o, lookup).Generated? {
      var s1 := s.(tickets := Generate(s, o, lookup).tickets, items := BulkItems(s.items, o, ItemPaid, Fulfilled));
      RecalculateFrame(s1, o, false);
      RelabeledConserves(s1, HandleGenerate(s, o, lookup).state);
      RelabeledConserves(s, s1);
    }
  }

  lemma CreateRefundBillConserves(s: State, i: nat, amount: int)
    requires CreateRefundBill(s, i, amount).Commit?
    ensures Conserves(s, CreateRefundBill(s, i, amount).state)
  {
    RelabeledConserves(s, CreateRefundBill(s, i, amount).state);
  }

  /** Guarded steps conserve the seats of every stock. */
  lemma StepConserves(s: State, step: Step)
    requires Inv(s) && Covered(s) && Admissible(step) && CancelGuard(s, step)
    ensures Conserves(s, Next(s, step))
  {
    if Apply(s, step).Commit? {
      match step {
        case DoAddOrder(r, now, serial) => AddOrderConserves(s, r, now, serial);
        case DoCreateBill(o, amount) =>
        case DoCancelBill(b) =>
        case DoCancelOrder(o) => CancelOrderConservesIff(s, o);
        case DoCancelItem(i, o) => ChangeItemConserves(s, i, o, ItemCanceled);
        case DoRequestReturn(i, o) => ChangeItemConserves(s, i, o, ReturnRequested);
        case DoApproveReturn(i, o) => ChangeItemConserves(s, i, o, ReturnApproved);
        case DoRejectReturn(i, o) => ChangeItemConserves(s, i, o, Fulfilled);
        case DoCreateRefundBill(i, amount) => CreateRefundBillConserves(s, i, amount);
        case DeliverPayment(b, payment, ok) => HandlePaymentConserves(s, b, payment, ok);
        case DeliverGenerate(o, lookup) => GenerateConserves(s, o, lookup);
        case DoMarkUsed(t, at) =>
        case DoExpire(now) =>
      }
    }
  }
}
