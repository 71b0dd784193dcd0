/** What an order stores, and that orders, seats and stocks agree on event, session and price. */
module Placement {
  import opened Options
  import opened Sums
  import opened Entities
  import opened OrderBuilding
  import opened Lifecycle
  import opened Invariants
  import opened ItemSteps
  import opened MessageSteps
  import opened Evolution
  import opened Runs

  /** A seat belongs to its order's event and session, and costs what its stock asks for. */
  ghost predicate PlacedItem(s: State, item: Item) {
    && item.order < |s.orders| && item.stock < |s.stocks|
    && var order, stock := s.orders[item.order], s.stocks[item.stock];
       stock.event == order.event && stock.session == order.session == item.session && item.price == stock.price
  }

  ghost predicate Placed(s: State) {
    forall i :: 0 <= i < |s.items| ==> PlacedItem(s, s.items[i])
  }

  // ---- what only AddOrder changes ----

  /** No order is added, and a stock changes its quantity only. */
  ghost predicate KeepsPlaces(s: State, s': State) {
    && |s'.orders| == |s.orders| && |s'.stocks| == |s.stocks|
    && forall k :: 0 <= k < |s.stocks| ==> s'.stocks[k] == s.stocks[k].(quantity := s'.stocks[k].quantity)
  }

  lemma ChangeItemPlaces(s: State, i: nat, o: nat, to: ItemStatus)
    requires ChangeItem(s, i, o, to).Commit?
    ensures KeepsPlaces(s, ChangeItem(s, i, o, to).state)
  {
    RecalculateFrame(ItemEffect(s, i, o, to), o, false);
  }

  lemma PaymentPlaces(s: State, b: nat, payment: Option<nat>, ok: bool)
    requires HandlePayment(s, b, payment, ok).Commit?
    ensures KeepsPlaces(s, HandlePayment(s, b, payment, ok).state)
  {
    if s.bills[b].status.BillPending? && ok {
      var o, s1 := s.bills[b].order, Settle(s, b, payment, true);
      if s.bills[b].kind.Payment? {
        RecalculateFrame(s1, o, true);
      } else {
        RecalculateFrame(SetItem(s1, s.bills[b].item.value, ItemReturned), o, false);
      }
    }
  }

  lemma GeneratePlaces(s: State, o: nat, lookup: nat -> Lookup)
    requires HandleGenerate(s, o, lookup).Commit?
    ensures KeepsPlaces(s, HandleGenerate(s, o, lookup).state)
  {
    if Generate(s, o, lookup).Generated? {
      var s1 := s.(tickets := Generate(s, o, lookup).tickets, items := BulkItems(s.items, o, ItemPaid, Fulfilled));
      RecalculateFrame(s1, o, false);
    }
  }

  lemma StepKeepsPlaces(s: State, step: Step)
    requires !step.DoAddOrder?
    ensures KeepsPlaces(s, Next(s, step))
  {
    if Apply(s, step).Commit? {
      match step {
        case DoCancelItem(i, o) => ChangeItemPlaces(s, i, o, ItemCanceled);
        case DoRequestReturn(i, o) => ChangeItemPlaces(s, i, o, ReturnRequested);
        case DoApproveReturn(i, o) => ChangeItemPlaces(s, i, o, ReturnApproved);
        case DoRejectReturn(i, o) => ChangeItemPlaces(s, i, o, Fulfilled);
        case DeliverPayment(b, payment, ok) => PaymentPlaces(s, b, payment, ok);
        case DeliverGenerate(o, lookup) => GeneratePlaces(s, o, lookup);
        case _ =>
      }
    }
  }

  // ---- a new order ----

  /** The order a customer confirmed: its own event and session, the confirmed totals, and nothing paid or returned. */
  ghost predicate StoredAs(s: State, r: AddOrderRequest, serial: nat, order: Order) {
    && order.event == r.event && order.serial == serial && order.status.Unpaid?
    && order.subtotal == order.total == order.originalTotal == r.total == r.subtotal
    && order.paid == order.returned == 0 && order.itemsCount == order.returnedItemsCount == 0
    && forall d :: 0 <= d < |r.details| ==>
         && r.details[d].stock < |s.stocks|
         && s.stocks[r.details[d].stock].event == order.event && s.stocks[r.details[d].stock].session == order.session
  }

  /** New seats: as many of each stock as were asked for, pending, at their place, and taken from their stock. */
  ghost predicate SeatsTaken(s: State, r: AddOrderRequest, s1: State) {
    && s.items <= s1.items && |s1.stocks| == |s.stocks|
    && (forall i :: |s.items| <= i < |s1.items| ==>
          && s1.items[i].id == i && s1.items[i].order == |s.orders| && s1.items[i].status.PendingPayment?
          && PlacedItem(s1, s1.items[i]) && Requested(r.details, s1.items[i].stock))
    && (forall d :: 0 <= d < |r.details| ==>
          Sum(s1.items[|s.items|..], OfStock(r.details[d].stock)) == r.details[d].quantity)
    && (forall k :: 0 <= k < |s.stocks| ==>
          s1.stocks[k] == s.stocks[k].(quantity := s.stocks[k].quantity - Sum(s1.items[|s.items|..], OfStock(k))))
  }

  /** One payment bill asks for the whole total, and the payment service is told to collect it. */
  ghost predicate BilledInFull(s: State, r: AddOrderRequest, s1: State) {
    && |s1.bills| == |s.bills| + 1 && s.bills <= s1.bills
    && (var bill := s1.bills[|s.bills|];
        && bill.id == |s.bills| && bill.order == |s.orders| && bill.item.None? && bill.amount == r.total
        && bill.kind.Payment? && bill.status.BillPending? && bill.hasMethod && bill.payment.None?)
    && s1.outbox == s.outbox + [PaymentEvent(CreateAction, |s.bills|)]
  }

  /** A committed AddOrder stores the order that was asked for, with its seats and its bill, and nothing else. */
  lemma OrderIsAsConfirmed(s: State, r: AddOrderRequest, now: int, serial: nat, s1: State)
    requires Apply(s, DoAddOrder(r, now, serial)) == Commit(s1)
    ensures |s1.orders| == |s.orders| + 1 && s.orders <= s1.orders && s1.tickets == s.tickets
    ensures |r.details| > 0 && StoredAs(s, r, serial, s1.orders[|s.orders|])
    ensures SeatsTaken(s, r, s1) && BilledInFull(s, r, s1)
  {
    OrderStored(s, r, now, serial, s1);
    SeatsStored(s, r, now, serial, s1);
  }

  lemma OrderStored(s: State, r: AddOrderRequest, now: int, serial: nat, s1: State)
    requires AddOrder(s, r, now, serial) == Commit(s1)
    ensures |s1.orders| == |s.orders| + 1 && s.orders <= s1.orders && s1.tickets == s.tickets
    ensures |r.details| > 0 && StoredAs(s, r, serial, s1.orders[|s.orders|]) && BilledInFull(s, r, s1)
  {
    SessionOfLines(s, r, now);
  }

  lemma SeatsStored(s: State, r: AddOrderRequest, now: int, serial: nat, s1: State)
    requires AddOrder(s, r, now, serial) == Commit(s1)
    ensures SeatsTaken(s, r, s1)
  {
    BuildIsExact(s.stocks, r.details, now, |s.orders|, |s.items|);
    SeatsFrom(s, r, Build(s.stocks, r.details, now, |s.orders|, |s.items|).value, s1);
  }

  lemma SeatsFrom(s: State, r: AddOrderRequest, built: Built, s1: State)
    requires ServedExactly(s.stocks, r.details, built, |s.orders|, |s.items|)
    requires s1.items == s.items + built.items && s1.stocks == Reserved(s.stocks, built.items)
    requires |s1.orders| == |s.orders| + 1
    requires s1.orders[|s.orders|].event == built.event && s1.orders[|s.orders|].session == built.session
    ensures SeatsTaken(s, r, s1)
  {
    assert s1.items[|s.items|..] == built.items;
    forall i | |s.items| <= i < |s1.items|
      ensures s1.items[i].id == i && s1.items[i].order == |s.orders| && s1.items[i].status.PendingPayment?
      ensures PlacedItem(s1, s1.items[i]) && Requested(r.details, s1.items[i].stock)
    {
      SeatPlaced(s, r, built, s1, i - |s.items|);
    }
  }

  lemma SeatPlaced(s: State, r: AddOrderRequest, built: Built, s1: State, j: nat)
    requires ServedExactly(s.stocks, r.details, built, |s.orders|, |s.items|) && j < |built.items|
    requires s1.items == s.items + built.items && |s1.orders| == |s.orders| + 1
    requires s1.orders[|s.orders|].event == built.event && s1.orders[|s.orders|].session == built.session
    requires |s1.stocks| == |s.stocks|
    requires forall k :: 0 <= k < |s.stocks| ==> s1.stocks[k] == s.stocks[k].(quantity := s1.stocks[k].quantity)
    ensures var i := |s.items| + j;
      && s1.items[i].id == i && s1.items[i].order == |s.orders| && s1.items[i].status.PendingPayment?
      && PlacedItem(s1, s1.items[i]) && Requested(r.details, s1.items[i].stock)
  {
    assert s1.items[|s.items| + j] == built.items[j];
  }

  lemma SessionOfLines(s: State, r: AddOrderRequest, now: int)
    requires Build(s.stocks, r.details, now, |s.orders|, |s.items|).Some?
    ensures var built := Build(s.stocks, r.details, now, |s.orders|, |s.items|).value;
      forall d :: 0 <= d < |r.details| ==>
        && r.details[d].stock < |s.stocks|
        && s.stocks[r.details[d].stock].event == built.event && s.stocks[r.details[d].stock].session == built.session
  {
    CountCheck(s.stocks, r.details, now);
    var lines := Fetched(s.stocks, r.details, now, |s.stocks|);
    forall d | 0 <= d < |r.details|
      ensures r.details[d].stock < |s.stocks| && r.details[d].stock in lines
    {
      assert Requested(r.details, r.details[d].stock);
    }
  }

  /** The customer's figures: the event of the stocks, and what the lines cost. */
  predicate Confirms(stocks: seq<Stock>, r: AddOrderRequest)
    requires forall d :: 0 <= d < |r.details| ==> r.details[d].stock < |stocks|
  {
    && (forall d :: 0 <= d < |r.details| ==> stocks[r.details[d].stock].event == r.event)
    && r.subtotal == r.total == LinesPrice(stocks, r.details)
  }

  /** An order is taken exactly when the request is acceptable and the confirmed event and totals are right. */
  lemma AddOrderCommitsIff(s: State, r: AddOrderRequest, now: int, serial: nat)
    ensures Apply(s, DoAddOrder(r, now, serial)).Commit?
       <==> Acceptable(s.stocks, r.details, now) && Confirms(s.stocks, r)
  {
    AcceptsExactly(s.stocks, r.details, now, |s.orders|, |s.items|);
    if Build(s.stocks, r.details, now, |s.orders|, |s.items|).Some? {
      SessionOfLines(s, r, now);
      SubtotalIsLinesPrice(s.stocks, r.details, now, |s.orders|, |s.items|);
      AcceptedCanReserve(s.stocks, r.details, now, |s.orders|, |s.items|);
    }
  }

  // ---- over runs ----

  lemma AddOrderPlaces(s: State, r: AddOrderRequest, now: int, serial: nat)
    requires Placed(s) && AddOrder(s, r, now, serial).Commit?
    ensures Placed(AddOrder(s, r, now, serial).state)
  {
    var s1 := AddOrder(s, r, now, serial).state;
    OrderIsAsConfirmed(s, r, now, serial, s1);
    forall i | 0 <= i < |s1.items| ensures PlacedItem(s1, s1.items[i]) {
      if i < |s.items| {
        assert PlacedItem(s, s.items[i]) && s1.items[i] == s.items[i];
        assert s1.orders[s.items[i].order] == s.orders[s.items[i].order];
      }
    }
  }

  lemma StepPlaces(s: State, step: Step)
    requires Inv(s) && Placed(s) && Admissible(step)
    ensures Placed(Next(s, step))
  {
    if step.DoAddOrder? {
      if Apply(s, step).Commit? {
        AddOrderPlaces(s, step.request, step.now, step.serial);
      }
    } else {
      var s1 := Next(s, step);
      StepKeeps(s, step);
      StepKeepsPlaces(s, step);
      forall i | 0 <= i < |s1.items| ensures PlacedItem(s1, s1.items[i]) {
        assert i < |s.items| ==> PlacedItem(s, s.items[i]) && SameItem(s.items[i], s1.items[i]);
        assert SameOrder(s.orders[s1.items[i].order], s1.orders[s1.items[i].order]);
      }
    }
  }

  lemma {:induction false} RunPlaces(s: State, steps: seq<Step>)
    requires Inv(s) && Placed(s) && AllAdmissible(steps)
    ensures Placed(Run(s, steps))
  {
    if |steps| != 0 {
      var front := steps[..|steps| - 1];
      RunPlaces(s, front);
      RunKeeps(s, front);
      StepPlaces(Run(s, front), steps[|steps| - 1]);
    }
  }

  /** In every reachable database a seat's stock has the event and session of its order, and the seat that session. */
  lemma SeatsArePlaced(s: State, i: nat)
    requires Reachable(s) && i < |s.items|
    ensures PlacedItem(s, s.items[i])
  {
    var s0, steps :| ReachedBy(s, s0, steps);
    InitialInv(s0);
    RunPlaces(s0, steps);
  }
}
