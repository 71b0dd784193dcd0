/** The payment service hears of every bill exactly once for each thing it has to do about it. */
module Announcements {
  import opened Options
  import opened Sums
  import opened Entities
  import opened OrderBuilding
  import opened Lifecycle
  import opened Invariants
  import opened MessageSteps
  import opened Runs

  function Is(m: Message): Message -> int {
    (x: Message) => if x == m then 1 else 0
  }

  function Times(outbox: seq<Message>, m: Message): int {
    Sum(outbox, Is(m))
  }

  /** What there is to announce: payments to collect, canceled bills to call off, item refunds to pay out. */
  predicate Due(action: PaymentAction, bill: Bill) {
    match action
    case CreateAction => bill.kind.Payment?
    case CancelAction => bill.status.BillCanceled?
    case RefundAction => bill.kind.Refund? && bill.item.Some?
  }

  predicate Expected(bills: seq<Bill>, action: PaymentAction, b: nat) {
    b < |bills| && Due(action, bills[b])
  }

  ghost predicate AnnouncedOnce(s: State) {
    forall action, b: nat :: Times(s.outbox, PaymentEvent(action, b)) == if Expected(s.bills, action, b) then 1 else 0
  }

  lemma OneMessage(outbox: seq<Message>, x: Message, m: Message)
    ensures Times(outbox + [x], m) == Times(outbox, m) + if x == m then 1 else 0
  {
    SumAppend(outbox, x, Is(m));
  }

  /** A new bill is announced by its own message. */
  lemma NewBillAnnounced(s: State, s': State, bill: Bill, action: PaymentAction)
    requires AnnouncedOnce(s) && s'.bills == s.bills + [bill]
    requires s'.outbox == s.outbox + [PaymentEvent(action, |s.bills|)]
    requires forall a :: Due(a, bill) <==> a == action
    ensures AnnouncedOnce(s')
  {
    forall a, b: nat
      ensures Times(s'.outbox, PaymentEvent(a, b)) == if Expected(s'.bills, a, b) then 1 else 0
    {
      OneMessage(s.outbox, PaymentEvent(action, |s.bills|), PaymentEvent(a, b));
      assert Times(s.outbox, PaymentEvent(a, b)) == if Expected(s.bills, a, b) then 1 else 0;
    }
  }

  /** Nothing to announce: bills keep what is due, new ones have nothing due, and new messages are about tickets. */
  ghost predicate Silent(s: State, s': State) {
    && |s.bills| <= |s'.bills|
    && (forall b, a :: 0 <= b < |s.bills| ==> (Due(a, s'.bills[b]) <==> Due(a, s.bills[b])))
    && (forall b, a :: |s.bills| <= b < |s'.bills| ==> !Due(a, s'.bills[b]))
    && (s'.outbox == s.outbox || exists o :: s'.outbox == s.outbox + [GenerateTickets(o)])
  }

  lemma SilentKeeps(s: State, s': State)
    requires AnnouncedOnce(s) && Silent(s, s')
    ensures AnnouncedOnce(s')
  {
    forall a, b: nat
      ensures Times(s'.outbox, PaymentEvent(a, b)) == if Expected(s'.bills, a, b) then 1 else 0
    {
      assert Times(s.outbox, PaymentEvent(a, b)) == if Expected(s.bills, a, b) then 1 else 0;
      if s'.outbox != s.outbox {
        var o :| s'.outbox == s.outbox + [GenerateTickets(o)];
        OneMessage(s.outbox, GenerateTickets(o), PaymentEvent(a, b));
      }
    }
  }

  lemma SilentTwice(s: State, m: State, s': State)
    requires Silent(s, m) && Silent(m, s') && m.outbox == s.outbox
    ensures Silent(s, s')
  {
  }

  lemma RecalculateIsSilent(s: State, o: nat, hasPublisher: bool)
    requires o < |s.orders| && Recalculate(s, o, hasPublisher).Commit?
    ensures Silent(s, Recalculate(s, o, hasPublisher).state)
  {
  }

  lemma ChangeItemIsSilent(s: State, i: nat, o: nat, to: ItemStatus)
    requires ChangeItem(s, i, o, to).Commit?
    ensures Silent(s, ChangeItem(s, i, o, to).state)
  {
    RecalculateIsSilent(ItemEffect(s, i, o, to), o, false);
    SilentTwice(s, ItemEffect(s, i, o, to), ChangeItem(s, i, o, to).state);
  }

  lemma SettleIsSilent(s: State, b: nat, payment: Option<nat>, ok: bool)
    requires b < |s.bills| && s.bills[b].status.BillPending? && (ok ==> s.bills[b].order < |s.orders|)
    ensures Silent(s, Settle(s, b, payment, ok))
  {
  }

  lemma HandlePaymentIsSilent(s: State, b: nat, payment: Option<nat>, ok: bool)
    requires HandlePayment(s, b, payment, ok).Commit?
    ensures Silent(s, HandlePayment(s, b, payment, ok).state)
  {
    if s.bills[b].status.BillPending? {
      var s1, s' := Settle(s, b, payment, ok), HandlePayment(s, b, payment, ok).state;
      SettleIsSilent(s, b, payment, ok);
      if ok && s.bills[b].kind.Payment? {
        RecalculateIsSilent(s1, s.bills[b].order, true);
        SilentTwice(s, s1, s');
      } else if ok {
        ChangeItemIsSilent(s1, s.bills[b].item.value, s.bills[b].order, ItemReturned);
        SilentTwice(s, s1, s');
      }
    }
  }

  lemma HandleGenerateIsSilent(s: State, o: nat, lookup: nat -> Lookup)
    requires HandleGenerate(s, o, lookup).Commit?
    ensures Silent(s, HandleGenerate(s, o, lookup).state)
  {
    if Generate(s, o, lookup).Generated? {
      var s1 := s.(tickets := Generate(s, o, lookup).tickets, items := BulkItems(s.items, o, ItemPaid, Fulfilled));
      RecalculateIsSilent(s1, o, false);
      SilentTwice(s, s1, HandleGenerate(s, o, lookup).state);
    }
  }

  // ---- cancellation ----

  lemma CancelBillAnnounced(s: State, b: nat)
    requires AnnouncedOnce(s) && CancelBill(s, b).Commit?
    ensures AnnouncedOnce(CancelBill(s, b).state)
  {
    var s' := CancelBill(s, b).state;
    forall a, c: nat
      ensures Times(s'.outbox, PaymentEvent(a, c)) == if Expected(s'.bills, a, c) then 1 else 0
    {
      OneMessage(s.outbox, PaymentEvent(CancelAction, b), PaymentEvent(a, c));
      assert Times(s.outbox, PaymentEvent(a, c)) == if Expected(s.bills, a, c) then 1 else 0;
    }
  }

  /** The cancel messages of a voided order: one for each of its pending bills. */
  lemma {:induction false} CancelEventsOnce(bills: seq<Bill>, o: nat, a: PaymentAction, b: nat)
    requires forall c :: 0 <= c < |bills| ==> bills[c].id == c
    ensures Times(CancelEvents(Filter(bills, PendingOf(o))), PaymentEvent(a, b))
         == if a.CancelAction? && b < |bills| && PendingOf(o)(bills[b]) then 1 else 0
  {
    if |bills| == 0 {
      assert CancelEvents([]) == [];
    } else {
      var n := |bills| - 1;
      var front := Filter(bills[..n], PendingOf(o));
      CancelEventsOnce(bills[..n], o, a, b);
      if PendingOf(o)(bills[n]) {
        assert CancelEvents(front + [bills[n]]) == CancelEvents(front) + [PaymentEvent(CancelAction, n)];
        OneMessage(CancelEvents(front), PaymentEvent(CancelAction, n), PaymentEvent(a, b));
      }
    }
  }

  lemma CancelOrderAnnounced(s: State, o: nat)
    requires BillsOk(s) && AnnouncedOnce(s) && CancelOrder(s, o).Commit?
    ensures AnnouncedOnce(CancelOrder(s, o).state)
  {
    var s' := CancelOrder(s, o).state;
    var events := CancelEvents(Filter(s.bills, PendingOf(o)));
    forall a, b: nat
      ensures Times(s'.outbox, PaymentEvent(a, b)) == if Expected(s'.bills, a, b) then 1 else 0
    {
      SumConcat(s.outbox, events, Is(PaymentEvent(a, b)));
      CancelEventsOnce(s.bills, o, a, b);
      assert Times(s.outbox, PaymentEvent(a, b)) == if Expected(s.bills, a, b) then 1 else 0;
    }
  }

  // ---- runs ----

  lemma AddOrderAnnounced(s: State, r: AddOrderRequest, now: int, serial: nat)
    requires Inv(s) && AnnouncedOnce(s) && AddOrder(s, r, now, serial).Commit?
    ensures AnnouncedOnce(AddOrder(s, r, now, serial).state)
  {
    var s' := AddOrder(s, r, now, serial).state;
    NewBillAnnounced(s, s', s'.bills[|s.bills|], CreateAction);
  }

  lemma StepAnnounces(s: State, step: Step)
    requires Inv(s) && AnnouncedOnce(s) && Apply(s, step).Commit?
    ensures AnnouncedOnce(Next(s, step))
  {
    var s' := Next(s, step);
    match step {
      case DoAddOrder(r, now, serial) => AddOrderAnnounced(s, r, now, serial);
      case DoCreateBill(o, amount) => NewBillAnnounced(s, s', s'.bills[|s.bills|], CreateAction);
      case DoCancelBill(b) => CancelBillAnnounced(s, b);
      case DoCancelOrder(o) => CancelOrderAnnounced(s, o);
      case DoCancelItem(i, o) => ChangeItemIsSilent(s, i, o, ItemCanceled); SilentKeeps(s, s');
      case DoRequestReturn(i, o) => ChangeItemIsSilent(s, i, o, ReturnRequested); SilentKeeps(s, s');
      case DoApproveReturn(i, o) => ChangeItemIsSilent(s, i, o, ReturnApproved); SilentKeeps(s, s');
      case DoRejectReturn(i, o) => ChangeItemIsSilent(s, i, o, Fulfilled); SilentKeeps(s, s');
      case DoCreateRefundBill(i, amount) => NewBillAnnounced(s, s', s'.bills[|s.bills|], RefundAction);
      case DeliverPayment(b, payment, ok) => HandlePaymentIsSilent(s, b, payment, ok); SilentKeeps(s, s');
      case DeliverGenerate(o, lookup) => HandleGenerateIsSilent(s, o, lookup); SilentKeeps(s, s');
      case DoMarkUsed(t, at) => SilentKeeps(s, s');
      case DoExpire(now) => SilentKeeps(s, s');
    }
  }

  lemma {:induction false} RunAnnounces(s: State, steps: seq<Step>)
    requires Inv(s) && AnnouncedOnce(s) && AllAdmissible(steps)
    ensures AnnouncedOnce(Run(s, steps))
  {
    if |steps| != 0 {
      var front, last := steps[..|steps| - 1], steps[|steps| - 1];
      RunAnnounces(s, front);
      RunKeeps(s, front);
      if Apply(Run(s, front), last).Commit? {
        StepAnnounces(Run(s, front), last);
      }
    }
  }

  /**
   * In every reachable database each payment bill was announced once, each canceled bill was called off once, each
   * item refund was ordered once, and nothing else was ever announced.
   */
  lemma BillsAnnouncedOnce(s: State, action: PaymentAction, b: nat)
    requires Reachable(s)
    ensures Times(s.outbox, PaymentEvent(action, b)) == if Expected(s.bills, action, b) then 1 else 0
  {
    var s0, steps :| ReachedBy(s, s0, steps);
    InitialInv(s0);
    assert forall a, c: nat :: Times(s0.outbox, PaymentEvent(a, c)) == 0;
    RunAnnounces(s0, steps);
  }
}
