/** The collections and the data-access methods over them, each proved against what it does to the whole database. */
module Repository {
  import opened Options
  import opened Sums
  import opened Entities
  import opened OrderBuilding
  import opened Lifecycle
  import opened Updates

  // ---- reservations ----

  /** One guarded decrement: it modifies the stock only when a seat is left. */
  predicate CanTake(stocks: seq<Stock>, item: Item) {
    item.stock < |stocks| && stocks[item.stock].quantity >= 1
  }

  function Taken(stocks: seq<Stock>, item: Item): seq<Stock>
    requires CanTake(stocks, item)
  {
    stocks[item.stock := stocks[item.stock].(quantity := stocks[item.stock].quantity - 1)]
  }

  lemma DemandGrows(list: seq<Item>, item: Item, k: nat)
    ensures Sum(list + [item], OfStock(k)) == Sum(list, OfStock(k)) + OfStock(k)(item)
    ensures Sum(list, OfStock(k)) >= 0
  {
    SumAppend(list, item, OfStock(k));
    SumNonNegative(list, OfStock(k));
  }

  /** After a prefix was reserved, one more decrement succeeds exactly when the longer list can be reserved. */
  lemma TakeOneMore(stocks: seq<Stock>, list: seq<Item>, item: Item)
    requires CanReserve(stocks, list)
    ensures CanTake(Reserved(stocks, list), item) <==> CanReserve(stocks, list + [item])
    ensures CanTake(Reserved(stocks, list), item) ==>
              Taken(Reserved(stocks, list), item) == Reserved(stocks, list + [item])
  {
    var more := list + [item];
    forall k | 0 <= k < |stocks|
      ensures Sum(more, OfStock(k)) == Sum(list, OfStock(k)) + OfStock(k)(item) && Sum(list, OfStock(k)) >= 0
    {
      DemandGrows(list, item, k);
    }
    assert more[|list|] == item;
    assert forall j :: 0 <= j < |list| ==> more[j] == list[j];
  }

  /** What cannot be reserved cannot be reserved as part of more either. */
  lemma CannotReserveMore(stocks: seq<Stock>, list: seq<Item>, item: Item)
    requires !CanReserve(stocks, list)
    ensures !CanReserve(stocks, list + [item])
  {
    var more := list + [item];
    assert forall j :: 0 <= j < |list| ==> more[j] == list[j];
    forall k | 0 <= k < |stocks|
      ensures Sum(more, OfStock(k)) >= Sum(list, OfStock(k)) >= 0
    {
      DemandGrows(list, item, k);
    }
  }

  /** Nothing to write: the update is not even sent. */
  predicate Unchanging(opts: seq<UpdateOption>) {
    SetFields(opts) == map[] && IncFields(opts) == map[]
  }

  // ---- the collections ----

  class Database {
    var stocks: seq<Stock>
    var orders: seq<Order>
    var items: seq<Item>
    var bills: seq<Bill>
    var tickets: seq<Ticket>
    var outbox: seq<Message>

    constructor (stocks: seq<Stock>)
      ensures View() == State(stocks, [], [], [], [], [])
    {
      this.stocks, orders, items, bills, tickets, outbox := stocks, [], [], [], [], [];
    }

    function View(): State
      reads this
    {
      State(stocks, orders, items, bills, tickets, outbox)
    }

    /** A transaction that aborts restores what it found. */
    method Restore(snapshot: State)
      modifies this
      ensures View() == snapshot
    {
      stocks, orders, items := snapshot.stocks, snapshot.orders, snapshot.items;
      bills, tickets, outbox := snapshot.bills, snapshot.tickets, snapshot.outbox;
    }

    // ---- orders ----

    method CreateOrder(order: Order)
      modifies this
      ensures View() == old(View()).(orders := old(orders) + [order])
    {
      orders := orders + [order];
    }

    method CreateOrderItems(list: seq<Item>)
      modifies this
      ensures View() == old(View()).(items := old(items) + list)
    {
      items := items + list;
    }

    method UpdateOrder(o: nat, opts: seq<UpdateOption>) returns (ok: bool)
      modifies this
      ensures ok <==> Unchanging(opts) || (o < |orders| && !Conflict(opts))
      ensures View() == if o < |old(orders)| && !Conflict(opts)
                        then old(View()).(orders := old(orders)[o := Patched(old(orders)[o], opts)])
                        else old(View())
    {
      var updates := new UpdateOptions();
      updates.ApplyAll(opts);
      if updates.setFields == map[] && updates.incFields == map[] {
        assert o < |orders| ==> orders[o := Patched(orders[o], opts)] == orders;
        return true;
      }
      if o >= |orders| || updates.setFields.Keys * updates.incFields.Keys != {} {
        return false;
      }
      orders := orders[o := UpdatedOrder(orders[o], updates.setFields, updates.incFields)];
      return true;
    }

    method UpdateOrderItemStatus(i: nat, status: ItemStatus) returns (ok: bool)
      modifies this
      ensures ok <==> i < |items|
      ensures View() == if i < |old(items)| then SetItem(old(View()), i, status) else old(View())
    {
      ok := i < |items|;
      if ok {
        items := items[i := items[i].(status := status)];
      }
    }

    method UpdateItemsStatusByOrder(o: nat, from: ItemStatus, to: ItemStatus)
      modifies this
      ensures View() == old(View()).(items := BulkItems(old(items), o, from, to))
    {
      var n := 0;
      while n < |items|
        invariant 0 <= n <= |items| == |old(items)|
        invariant View() == old(View()).(items := items)
        invariant forall i :: 0 <= i < n ==> items[i] == BulkItems(old(items), o, from, to)[i]
        invariant forall i :: n <= i < |items| ==> items[i] == old(items)[i]
      {
        if items[n].order == o && items[n].status == from {
          items := items[n := items[n].(status := to)];
        }
        n := n + 1;
      }
    }

    method GetOrderItemsByOrderID(o: nat) returns (list: seq<Item>)
      ensures list == ItemsOf(items, o)
    {
      list := [];
      for n := 0 to |items|
        invariant list == ItemsOf(items[..n], o)
      {
        assert items[..n + 1][..n] == items[..n];
        if items[n].order == o {
          list := list + [items[n]];
        }
      }
      assert items[..|items|] == items;
    }

    // ---- stock ----

    /** Each stock on sale whose id was asked for comes back once, however often it was asked for. */
    method GetValidTicketsByIDs(ids: seq<nat>, now: int, ghost details: seq<Detail>) returns (found: seq<nat>)
      requires forall k: nat {:trigger Requested(details, k)} :: k in ids <==> Requested(details, k)
      ensures found == Fetched(stocks, details, now, |stocks|)
    {
      found := [];
      for n := 0 to |stocks|
        invariant found == Fetched(stocks, details, now, n)
      {
        assert Requested(details, n) <==> n in ids;
        if n in ids && stocks[n].saleStart <= now <= stocks[n].saleEnd {
          found := found + [n];
        }
      }
    }

    /** ReserveTickets: one guarded decrement per item; all of them must have modified a stock. */
    method ReserveTickets(list: seq<Item>) returns (ok: bool)
      modifies this
      ensures ok <==> CanReserve(old(stocks), list)
      ensures ok ==> View() == old(View()).(stocks := Reserved(old(stocks), list))
      ensures View() == old(View()).(stocks := stocks) && |stocks| == |old(stocks)|
      ensures forall k :: 0 <= k < |stocks| ==>
                stocks[k].quantity <= old(stocks)[k].quantity
                && (old(stocks)[k].quantity >= 0 ==> stocks[k].quantity >= 0)
    {
      var modified := 0;
      assert Reserved(stocks, []) == stocks;
      for n := 0 to |list|
        invariant View() == old(View()).(stocks := stocks) && |stocks| == |old(stocks)|
        invariant 0 <= modified <= n
        invariant modified == n ==> CanReserve(old(stocks), list[..n]) && stocks == Reserved(old(stocks), list[..n])
        invariant modified < n ==> !CanReserve(old(stocks), list[..n])
        invariant forall k :: 0 <= k < |stocks| ==>
                    stocks[k].quantity <= old(stocks)[k].quantity
                    && (old(stocks)[k].quantity >= 0 ==> stocks[k].quantity >= 0)
      {
        assert list[..n + 1] == list[..n] + [list[n]];
        if modified == n {
          TakeOneMore(old(stocks), list[..n], list[n]);
        } else {
          CannotReserveMore(old(stocks), list[..n], list[n]);
        }
        if CanTake(stocks, list[n]) {
          stocks := Taken(stocks, list[n]);
          modified := modified + 1;
        }
      }
      assert list[..|list|] == list;
      ok := modified == |list|;
    }

    /** ReleaseTickets: one increment per item; an unknown stock is skipped. */
    method ReleaseTickets(list: seq<Item>)
      modifies this
      ensures View() == old(View()).(stocks := Released(old(stocks), list))
    {
      for n := 0 to |list|
        invariant View() == old(View()).(stocks := stocks)
        invariant stocks == Released(old(stocks), list[..n])
      {
        assert list[..n + 1] == list[..n] + [list[n]];
        forall k: nat | k < |stocks|
          ensures Sum(list[..n + 1], OfStock(k)) == Sum(list[..n], OfStock(k)) + OfStock(k)(list[n])
        {
          DemandGrows(list[..n], list[n], k);
        }
        var k := list[n].stock;
        if k < |stocks| {
          stocks := stocks[k := stocks[k].(quantity := stocks[k].quantity + 1)];
        }
      }
      assert list[..|list|] == list;
    }

    // ---- bills ----

    method CreateBill(bill: Bill)
      modifies this
      ensures View() == old(View()).(bills := old(bills) + [bill])
    {
      bills := bills + [bill];
    }

    method UpdateBill(b: nat, opts: seq<UpdateOption>) returns (ok: bool)
      modifies this
      ensures ok <==> Unchanging(opts) || (b < |bills| && !Conflict(opts))
      ensures View() == if b < |old(bills)| && !Conflict(opts)
                        then old(View()).(bills := old(bills)[b := PatchedBill(old(bills)[b], opts)])
                        else old(View())
    {
      var updates := new UpdateOptions();
      updates.ApplyAll(opts);
      if updates.setFields == map[] && updates.incFields == map[] {
        assert b < |bills| ==> bills[b := PatchedBill(bills[b], opts)] == bills;
        return true;
      }
      if b >= |bills| || updates.setFields.Keys * updates.incFields.Keys != {} {
        return false;
      }
      bills := bills[b := UpdatedBill(bills[b], updates.setFields)];
      return true;
    }

    method GetBillsByOrderID(o: nat) returns (list: seq<Bill>)
      ensures list == Filter(bills, BillOf(o))
    {
      list := [];
      for n := 0 to |bills|
        invariant list == Filter(bills[..n], BillOf(o))
      {
        assert bills[..n + 1][..n] == bills[..n];
        if bills[n].order == o {
          list := list + [bills[n]];
        }
      }
      assert bills[..|bills|] == bills;
    }

    method GetRefundsByOrderItemID(i: nat) returns (list: seq<Bill>)
      ensures list == Filter(bills, RefundBillOf(i))
    {
      list := [];
      for n := 0 to |bills|
        invariant list == Filter(bills[..n], RefundBillOf(i))
      {
        assert bills[..n + 1][..n] == bills[..n];
        if bills[n].item == Some(i) && bills[n].kind.Refund? {
          list := list + [bills[n]];
        }
      }
      assert bills[..|bills|] == bills;
    }

    // ---- tickets ----

    method CreateManyTickets(list: seq<Ticket>)
      modifies this
      ensures View() == old(View()).(tickets := old(tickets) + list)
    {
      tickets := tickets + list;
    }

    method CountTicketsByOrder(key: OrderKey) returns (count: int)
      ensures count == Sum(tickets, KeyIs(key))
    {
      count := 0;
      for n := 0 to |tickets|
        invariant count == Sum(tickets[..n], KeyIs(key))
      {
        assert tickets[..n + 1][..n] == tickets[..n];
        if tickets[n].order == key {
          count := count + 1;
        }
      }
      assert tickets[..|tickets|] == tickets;
    }

    method GetTicketByOrderItemID(i: nat) returns (t: Option<nat>)
      ensures t == FirstTicket(tickets, i)
    {
      for n := 0 to |tickets|
        invariant forall j :: 0 <= j < n ==> tickets[j].item != i
      {
        if tickets[n].item == i {
          return Some(n);
        }
      }
      return None;
    }

    method UpdateTicketStatus(t: nat, status: TicketStatus) returns (ok: bool)
      modifies this
      ensures ok <==> t < |tickets|
      ensures View() == if t < |old(tickets)|
                        then old(View()).(tickets := old(tickets)[t := old(tickets)[t].(status := status)])
                        else old(View())
    {
      ok := t < |tickets|;
      if ok {
        tickets := tickets[t := tickets[t].(status := status)];
      }
    }

    method MarkTicketAsUsed(t: nat, at: int) returns (ok: bool)
      modifies this
      ensures ok <==> MarkUsed(old(View()), t, at).Commit?
      ensures View() == if ok then MarkUsed(old(View()), t, at).state else old(View())
    {
      ok := t < |tickets| && tickets[t].status.Valid?;
      if ok {
        tickets := tickets[t := tickets[t].(status := Used, usedAt := Some(at))];
      }
    }

    method ExpireTickets(now: int) returns (count: nat)
      modifies this
      ensures View() == Expire(old(View()), now)
    {
      count := 0;
      var n := 0;
      while n < |tickets|
        invariant 0 <= n <= |tickets| == |old(tickets)|
        invariant View() == old(View()).(tickets := tickets)
        invariant forall t :: 0 <= t < n ==> tickets[t] == Expire(old(View()), now).tickets[t]
        invariant forall t :: n <= t < |tickets| ==> tickets[t] == old(tickets)[t]
      {
        if tickets[n].status.Valid? && tickets[n].validUntil < now {
          tickets := tickets[n := tickets[n].(status := Expired)];
          count := count + 1;
        }
        n := n + 1;
      }
    }

    // ---- outbox ----

    /** PublishPaymentEvent reads the bill's payment method; without one it panics. */
    method PublishPaymentEvent(action: PaymentAction, bill: Bill) returns (ok: bool)
      modifies this
      ensures ok <==> bill.hasMethod
      ensures View() == if ok then old(View()).(outbox := old(outbox) + [PaymentEvent(action, bill.id)])
                        else old(View())
    {
      ok := bill.hasMethod;
      if ok {
        outbox := outbox + [PaymentEvent(action, bill.id)];
      }
    }

    method PublishTicketGenerationTask(o: nat)
      modifies this
      ensures View() == old(View()).(outbox := old(outbox) + [GenerateTickets(o)])
    {
      outbox := outbox + [GenerateTickets(o)];
    }
  }

  function BillOf(o: nat): Bill -> bool {
    (b: Bill) => b.order == o
  }

  function RefundBillOf(i: nat): Bill -> bool {
    (b: Bill) => b.item == Some(i) && b.kind.Refund?
  }
}
