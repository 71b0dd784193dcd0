/** Service calls and message handlers, each one transaction. */
module Server {
  import opened Options
  import opened Entities
  import opened Lifecycle
  import opened Invariants
  import opened Evolution
  import opened Repository
  import Orders = OrderLogic
  import Bills = BillLogic
  import Tickets = TicketLogic
  import opened Runs
  import OpenOrders

  // Together they carry out exactly the lifecycle's steps, so whatever holds of its runs holds of this program.

  class Server {
    const db: Database
    const orders: Orders.OrderLogic
    const bills: Bills.BillLogic
    const tickets: Tickets.TicketLogic

    constructor (stocks: seq<Stock>)
      ensures Wired() && fresh(db) && db.View() == State(stocks, [], [], [], [], [])
    {
      var collections := new Database(stocks);
      db := collections;
      orders := new Orders.OrderLogic(collections);
      bills := new Bills.BillLogic(collections);
      tickets := new Tickets.TicketLogic(collections);
    }

    ghost predicate Wired() {
      orders.db == db && bills.db == db && tickets.db == db
    }

    /** BillStatusUpdateHandler.Handle inside its transaction. */
    method HandlePaymentResult(b: nat, payment: Option<nat>, success: bool) returns (ok: bool)
      requires Wired()
      modifies db
      ensures ok <==> HandlePayment(old(db.View()), b, payment, success).Commit?
      ensures ok ==> db.View() == HandlePayment(old(db.View()), b, payment, success).state
    {
      var r := bills.ProcessPaymentUpdate(b, payment, success);
      if !r.Processed? {
        return r.AlreadyProcessed?;
      }
      if !success {
        return true;
      }
      var bill := db.bills[b];
      if bill.kind.Refund? {
        if bill.item.None? {
          return false;
        }
        ok := orders.UpdateOrderItemStatus(bill.item.value, bill.order, ItemReturned);
        if ok {
          tickets.VoidTicketByOrderItem(bill.item.value);
        }
      } else {
        ok := orders.RecalculateOrderStatus(bill.order, true);
      }
    }

    /** TicketHandler.Handle inside its transaction: a permanent failure is acknowledged. */
    method HandleTicketGeneration(o: nat, lookup: nat -> Lookup) returns (ok: bool)
      requires Wired()
      modifies db
      ensures ok <==> HandleGenerate(old(db.View()), o, lookup).Commit?
      ensures ok ==> db.View() == HandleGenerate(old(db.View()), o, lookup).state
    {
      var failure := tickets.GenerateTicketsForOrder(o, lookup);
      if failure.Some? {
        return failure.value.NotFound?;
      }
      ok := orders.MarkOrderItemsAsFulfilled(o);
    }

    method Dispatch(step: Step) returns (ok: bool)
      requires Wired() && Orders.BillIds(db.bills)
      modifies db
      ensures ok <==> Apply(old(db.View()), step).Commit?
      ensures ok ==> db.View() == Apply(old(db.View()), step).state
    {
      match step
      case DoAddOrder(request, now, serial) => ok := orders.AddOrder(request, now, serial);
      case DoCreateBill(o, amount) => ok := bills.CreateBill(o, amount);
      case DoCancelBill(b) => ok := bills.CancelBill(b);
      case DoCancelOrder(o) => ok := orders.CancelOrder(o);
      case DoCancelItem(i, o) => ok := orders.UpdateOrderItemStatus(i, o, ItemCanceled);
      case DoRequestReturn(i, o) => ok := orders.UpdateOrderItemStatus(i, o, ReturnRequested);
      case DoApproveReturn(i, o) => ok := orders.UpdateOrderItemStatus(i, o, ReturnApproved);
      case DoRejectReturn(i, o) => ok := orders.UpdateOrderItemStatus(i, o, Fulfilled);
      case DoCreateRefundBill(i, amount) => ok := orders.CreateRefundBill(i, amount);
      case DeliverPayment(b, payment, success) => ok := HandlePaymentResult(b, payment, success);
      case DeliverGenerate(o, lookup) =>
        if GenerateTickets(o) in db.outbox {
          ok := HandleTicketGeneration(o, lookup);
        } else {
          ok := false;
        }
      case DoMarkUsed(t, at) => ok := db.MarkTicketAsUsed(t, at);
      case DoExpire(now) =>
        var count := db.ExpireTickets(now);
        ok := true;
    }

    /** WithTransaction: what an error or a panic leaves half done is undone. */
    method Transact(step: Step) returns (ok: bool)
      requires Wired() && Inv(db.View()) && Admissible(step)
      modifies db
      ensures ok <==> Apply(old(db.View()), step).Commit?
      ensures db.View() == Next(old(db.View()), step)
      ensures Inv(db.View())
    {
      var snapshot := db.View();
      StepKeeps(snapshot, step);
      ok := Dispatch(step);
      if !ok {
        db.Restore(snapshot);
      }
    }

    /** Any sequence of calls and deliveries is a run of the lifecycle, and reaches only reachable databases. */
    method Serve(steps: seq<Step>)
      requires Wired() && Inv(db.View()) && AllAdmissible(steps)
      modifies db
      ensures db.View() == Run(old(db.View()), steps)
      ensures Inv(db.View())
      ensures Initial(old(db.View())) ==> Reachable(db.View())
    {
      for n := 0 to |steps|
        invariant db.View() == Run(old(db.View()), steps[..n]) && Inv(db.View())
      {
        assert steps[..n + 1][..n] == steps[..n];
        var ok := Transact(steps[n]);
      }
      assert steps[..|steps|] == steps;
      assert Initial(old(db.View())) ==> ReachedBy(db.View(), old(db.View()), steps);
    }

    /** The query asks for one order of the event whose status is not a closed one. */
    method IsEventHasOpenOrders(event: nat) returns (open: bool)
      ensures open == OpenOrders.IsEventHasOpenOrders(db.View(), event)
    {
      for n := 0 to |db.orders|
        invariant forall o :: 0 <= o < n && db.orders[o].event == event ==> OpenOrders.Closed(db.orders[o].status)
      {
        var order := db.orders[n];
        if order.event == event && !OpenOrders.Closed(order.status) {
          return true;
        }
      }
      return false;
    }
  }
}
