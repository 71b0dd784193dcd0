/** The "data inconsistency" branch of the recalculation is dead in every guarded run. */
module Consistency {
  import opened Options
  import opened Entities
  import opened Lifecycle
  import opened Invariants
  import opened ItemSteps
  import opened MessageSteps
  import opened Coverage
  import opened GuardedRuns

  /** What a step hands to the recalculation: the database so far, the order, and whether tickets can be published. */
  datatype Task = Task(state: State, order: nat, hasPublisher: bool)

  function ChangeTask(s: State, i: nat, o: nat, to: ItemStatus): Option<Task> {
    if i < |s.items| && s.items[i].order == o && o < |s.orders| && CanChange(s.items[i].status, to)
    then Some(Task(ItemEffect(s, i, o, to), o, false)) else None
  }

  function PaymentTask(s: State, b: nat, payment: Option<nat>, ok: bool): Option<Task> {
    if b >= |s.bills| || !s.bills[b].status.BillPending? || !ok || s.bills[b].order >= |s.orders| then None
    else
      var bill, s1 := s.bills[b], Settle(s, b, payment, true);
      if bill.kind.Payment? then Some(Task(s1, bill.order, true))
      else if bill.item.None? then None
      else ChangeTask(s1, bill.item.value, bill.order, ItemReturned)
  }

  function GenerateTask(s: State, o: nat, lookup: nat -> Lookup): Option<Task> {
    if GenerateTickets(o) in s.outbox && Generate(s, o, lookup).Generated? && o < |s.orders|
    then Some(Task(s.(tickets := Generate(s, o, lookup).tickets, items := BulkItems(s.items, o, ItemPaid, Fulfilled)),
                   o, false))
    else None
  }

  function TaskOf(s: State, step: Step): Option<Task> {
    match step
    case DoCancelItem(i, o) => ChangeTask(s, i, o, ItemCanceled)
    case DoRequestReturn(i, o) => ChangeTask(s, i, o, ReturnRequested)
    case DoApproveReturn(i, o) => ChangeTask(s, i, o, ReturnApproved)
    case DoRejectReturn(i, o) => ChangeTask(s, i, o, Fulfilled)
    case DeliverPayment(b, payment, ok) => PaymentTask(s, b, payment, ok)
    case DeliverGenerate(o, lookup) => GenerateTask(s, o, lookup)
    case _ => None
  }

  /** That is where such a step is decided: it aborts exactly when the recalculation does. */
  lemma RecalculationDecides(s: State, step: Step, task: Task)
    requires TaskOf(s, step) == Some(task)
    ensures task.order < |task.state.orders|
    ensures Apply(s, step).Abort? <==> Recalculate(task.state, task.order, task.hasPublisher).Abort?
  {
  }

  /** The branch that finds more returned items than items. */
  predicate Inconsistent(s: State, o: nat) {
    o < |s.orders| && s.orders[o].status.ReturnInProgress? && !HasOpen(s.items, o) && CloseReturn(s, o).Abort?
  }

  lemma CountedIsConsistent(s: State, o: nat)
    requires Counted(s, o)
    ensures !Inconsistent(s, o)
  {
    CountersReadItems(s, o);
  }

  lemma ChangeIsConsistent(s: State, i: nat, o: nat, to: ItemStatus, task: Task)
    requires Inv(s) && Covered(s) && Target(to) && ChangeTask(s, i, o, to) == Some(task)
    requires to.Fulfilled? ==> s.items[i].status.ReturnRequested?
    ensures !Inconsistent(task.state, o)
  {
    if s.orders[o].status.ReturnInProgress? {
      EffectCovers(s, i, o, to);
      CountedIsConsistent(task.state, o);
    }
  }

  /** A payment for an order in progress leaves its items and counters alone. */
  lemma PaymentIsConsistent(s: State, b: nat, payment: Option<nat>, task: Task)
    requires Inv(s) && Covered(s) && PaymentTask(s, b, payment, true) == Some(task)
    ensures !Inconsistent(task.state, task.order)
  {
    var o := s.bills[b].order;
    assert CoveredOrder(s, o) && ReturnsOk(s, o, NONE);
    if s.bills[b].kind.Payment? {
      CountersReadItems(s, o);
    } else {
      var i := s.bills[b].item.value;
      RefundStarts(s, b, i);
      RefundedItemsCovered(s, b, payment, i);
      CountedIsConsistent(task.state, o);
    }
  }

  /** For an order in progress there is nothing left to fulfil. */
  lemma GenerateIsConsistent(s: State, o: nat, lookup: nat -> Lookup, task: Task)
    requires Inv(s) && Covered(s) && GenerateTask(s, o, lookup) == Some(task)
    ensures !Inconsistent(task.state, o)
  {
    assert CoveredOrder(s, o) && ReturnsOk(s, o, NONE);
    if s.orders[o].status.ReturnInProgress? {
      assert BulkItems(s.items, o, ItemPaid, Fulfilled) == s.items;
      CountersReadItems(s, o);
    }
  }

  lemma StepIsConsistent(s: State, step: Step, task: Task)
    requires Inv(s) && Covered(s) && RejectGuard(s, step) && TaskOf(s, step) == Some(task)
    ensures !Inconsistent(task.state, task.order)
  {
    match step {
      case DoCancelItem(i, o) => ChangeIsConsistent(s, i, o, ItemCanceled, task);
      case DoRequestReturn(i, o) => ChangeIsConsistent(s, i, o, ReturnRequested, task);
      case DoApproveReturn(i, o) => ChangeIsConsistent(s, i, o, ReturnApproved, task);
      case DoRejectReturn(i, o) => ChangeIsConsistent(s, i, o, Fulfilled, task);
      case DeliverPayment(b, payment, ok) => PaymentIsConsistent(s, b, payment, task);
      case DeliverGenerate(o, lookup) => GenerateIsConsistent(s, o, lookup, task);
    }
  }

  /** In no guarded run does a guarded step ever reach the branch. */
  lemma NeverInconsistent(s0: State, s: State, step: Step, task: Task)
    requires ReachableUnder(s0, s, StatusGuards) && StatusGuards(s, step) && TaskOf(s, step) == Some(task)
    ensures !Inconsistent(task.state, task.order)
  {
    var steps :| Follows(s0, steps, s, StatusGuards);
    InitialCovered(s0);
    StatusRun(s0, steps);
    StepIsConsistent(s, step, task);
  }
}
