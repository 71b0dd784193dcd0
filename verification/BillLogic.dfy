/** The bill operations over the database. */
module BillLogic {
  import opened Options
  import opened Sums
  import opened Entities
  import opened Lifecycle
  import Spec = Lifecycle
  import opened Updates
  import opened Repository
  import opened OrderLogic

  function Amount(): Bill -> int {
    (b: Bill) => if b.status.BillPaid? || b.status.BillPending? then b.amount else 0
  }

  /** Adding up over the order's bills is adding up over all bills with the order's weight. */
  lemma CommittedOverOrder(bills: seq<Bill>, o: nat)
    ensures Sum(Filter(bills, BillOf(o)), Amount()) == Sum(bills, CommittedAny(o))
  {
    SumFilter(bills, BillOf(o), Amount(), CommittedAny(o));
  }

  class BillLogic {
    const db: Database

    constructor (db: Database)
      ensures this.db == db
    {
      this.db := db;
    }

    /** The overpayment guard's loop. */
    method CommittedAmount(o: nat) returns (committed: int)
      ensures committed == Sum(db.bills, CommittedAny(o))
    {
      var list := db.GetBillsByOrderID(o);
      committed := 0;
      for n := 0 to |list|
        invariant committed == Sum(list[..n], Amount())
      {
        assert list[..n + 1][..n] == list[..n];
        if list[n].status.BillPaid? || list[n].status.BillPending? {
          committed := committed + list[n].amount;
        }
      }
      assert list[..|list|] == list;
      CommittedOverOrder(db.bills, o);
    }

    method CreateBill(o: nat, amount: int) returns (ok: bool)
      modifies db
      ensures ok <==> Spec.CreateBill(old(db.View()), o, amount).Commit?
      ensures ok ==> db.View() == Spec.CreateBill(old(db.View()), o, amount).state
    {
      if o >= |db.orders| {
        return false;
      }
      var order := db.orders[o];
      if !order.status.Unpaid? && !order.status.PartiallyPaid? {
        return false;
      }
      var committed := CommittedAmount(o);
      var owed := order.total - committed;
      if amount > owed {
        return false;
      }
      var bill := Bill(|db.bills|, o, None, amount, Payment, BillPending, true, None);
      db.CreateBill(bill);
      ok := db.PublishPaymentEvent(CreateAction, bill);
    }

    method CancelBill(b: nat) returns (ok: bool)
      requires BillIds(db.bills)
      modifies db
      ensures ok <==> Spec.CancelBill(old(db.View()), b).Commit?
      ensures ok ==> db.View() == Spec.CancelBill(old(db.View()), b).state
    {
      if b >= |db.bills| {
        return false;
      }
      var bill := db.bills[b];
      if !bill.status.BillPending? || bill.order >= |db.orders| {
        return false;
      }
      StatusUpdates(NoOrder(), bill, OrderPaid, BillCanceled, 0);
      ok := db.UpdateBill(b, [WithBillStatus(BillCanceled)]);
      ok := db.PublishPaymentEvent(CancelAction, bill);
    }

    /** The order's ledger after a success, and the status the bill gets. */
    method CreditOrder(bill: Bill) returns (status: BillStatus)
      requires bill.order < |db.orders|
      modifies db
      ensures status == SettledStatus(bill, true)
      ensures db.View() == old(db.View()).(
                orders := old(db.orders)[bill.order := Credited(old(db.orders)[bill.order], bill)])
    {
      MoneyUpdates(db.orders[bill.order], bill.amount);
      var ok;
      match bill.kind {
        case Payment =>
          status := BillPaid;
          ok := db.UpdateOrder(bill.order, [WithIncPaid(bill.amount)]);
        case Refund =>
          status := BillRefunded;
          ok := db.UpdateOrder(bill.order, [WithIncReturned(bill.amount), WithIncReturnedItemsCount(1)]);
      }
    }

    /** The result of a payment attempt: only a pending bill is settled, and a success needs the bill's order. */
    method ProcessPaymentUpdate(b: nat, payment: Option<nat>, success: bool) returns (r: PaymentUpdate)
      modifies db
      ensures r == UpdateResult(old(db.View()), b, success)
      ensures r.Processed? ==> db.View() == Settle(old(db.View()), b, payment, success)
      ensures r.AlreadyProcessed? ==> db.View() == old(db.View())
    {
      if b >= |db.bills| {
        return UpdateFailed;
      }
      var bill := db.bills[b];
      if !bill.status.BillPending? {
        return AlreadyProcessed;
      }
      var opts := if payment.Some? then [WithPaymentID(payment.value)] else [];
      var status := BillFailed;
      if success {
        if bill.order >= |db.orders| {
          return UpdateFailed;
        }
        status := CreditOrder(bill);
      }
      SettledUpdate(bill, status, payment);
      var ok := db.UpdateBill(b, opts + [WithBillStatus(status)]);
      return Processed;
    }
  }

  /** The error for a bill that was settled before lets the handler skip the message; any other one aborts. */
  datatype PaymentUpdate = Processed | AlreadyProcessed | UpdateFailed

  function UpdateResult(s: State, b: nat, success: bool): PaymentUpdate {
    if b >= |s.bills| then UpdateFailed
    else if !s.bills[b].status.BillPending? then AlreadyProcessed
    else if success && s.bills[b].order >= |s.orders| then UpdateFailed
    else Processed
  }
}
