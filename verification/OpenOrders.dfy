/** IsEventHasOpenOrders: when the order-level query tells the truth about the items. */
module OpenOrders {
  import opened Sums
  import opened Entities
  import opened OrderBuilding
  import opened Lifecycle
  import opened Invariants
  import opened BillSteps
  import opened Evolution
  import opened Runs
  import opened Placement
  import opened Coverage
  import opened Billing
  import opened GuardedRuns

  /** The query excludes the statuses in which nothing is left to do. */
  predicate Closed(st: OrderStatus) {
    st.Completed? || st.OrderReturned? || st.OrderCanceled? || st.PartiallyReturned?
  }

  predicate IsEventHasOpenOrders(s: State, event: nat) {
    exists o :: 0 <= o < |s.orders| && s.orders[o].event == event && !Closed(s.orders[o].status)
  }

  /** A seat that still waits for money, for its ticket, or for the end of its return. */
  predicate OpenItem(st: ItemStatus) {
    st.PendingPayment? || st.ItemPaid? || Open(st)
  }

  /** Some seat of the event, by its ticket stock, is open. */
  ghost predicate HasOpenItem(s: State, event: nat) {
    exists i :: 0 <= i < |s.items| && s.items[i].stock < |s.stocks| && s.stocks[s.items[i].stock].event == event
                && OpenItem(s.items[i].status)
  }

  /** Orders the query reports although no seat is open: overpaid ones, and unpaid ones without any seat. */
  ghost predicate Unresolved(s: State, o: nat) {
    o < |s.orders| && (s.orders[o].status.PendingRefund? || (s.orders[o].status.Unpaid? && Empty(s.items, o)))
  }

  lemma OpenOrderHasOpenItem(s: State, o: nat)
    requires Inv(s) && Placed(s) && o < |s.orders| && !Closed(s.orders[o].status) && !Unresolved(s, o)
    ensures HasOpenItem(s, s.orders[o].event)
  {
    assert ReturnsOk(s, o, NONE);
    if s.orders[o].status.ReturnInProgress? {
      var i :| 0 <= i < |s.items| && s.items[i].order == o && Open(s.items[i].status);
      assert PlacedItem(s, s.items[i]) && OpenItem(s.items[i].status);
    } else {
      var i :| 0 <= i < |s.items| && s.items[i].order == o && !s.items[i].status.ItemCanceled?;
      assert Fits(s.items[i].status, s.orders[o].status);
      assert PlacedItem(s, s.items[i]) && OpenItem(s.items[i].status);
    }
  }

  lemma OpenItemHasOpenOrder(s: State, i: nat)
    requires Inv(s) && Covered(s) && i < |s.items| && OpenItem(s.items[i].status)
    ensures !Closed(s.orders[s.items[i].order].status)
  {
    var o := s.items[i].order;
    assert Fits(s.items[i].status, s.orders[o].status);
    assert CoveredOrder(s, o) && ReturnsOk(s, o, NONE);
  }

  lemma QueryExactly(s: State, event: nat)
    requires Inv(s) && Covered(s) && Placed(s)
    ensures IsEventHasOpenOrders(s, event)
       <==> HasOpenItem(s, event) || exists o: nat :: Unresolved(s, o) && s.orders[o].event == event
  {
    if IsEventHasOpenOrders(s, event) {
      var o :| 0 <= o < |s.orders| && s.orders[o].event == event && !Closed(s.orders[o].status);
      if !Unresolved(s, o) {
        OpenOrderHasOpenItem(s, o);
      }
    }
    if HasOpenItem(s, event) {
      var i :| 0 <= i < |s.items| && s.items[i].stock < |s.stocks| && s.stocks[s.items[i].stock].event == event
               && OpenItem(s.items[i].status);
      OpenItemHasOpenOrder(s, i);
      assert PlacedItem(s, s.items[i]);
    }
  }

  lemma {:induction false} GuardedIsAdmissible(s: State, steps: seq<Step>, guard: (State, Step) -> bool)
    requires RunMeets(s, steps, guard) && forall m, step :: guard(m, step) ==> Admissible(step)
    ensures AllAdmissible(steps)
  {
    if |steps| != 0 {
      GuardedIsAdmissible(s, steps[..|steps| - 1], guard);
    }
  }

  lemma GuardedIsPlaced(s0: State, steps: seq<Step>, guard: (State, Step) -> bool)
    requires Initial(s0) && RunMeets(s0, steps, guard) && forall m, step :: guard(m, step) ==> Admissible(step)
    ensures Placed(Run(s0, steps))
  {
    GuardedIsAdmissible(s0, steps, guard);
    InitialCovered(s0);
    RunPlaces(s0, steps);
  }

  /** The query is true exactly for events with an open seat or an unresolved order. */
  lemma OpenOrdersExactly(s0: State, s: State, event: nat)
    requires ReachableUnder(s0, s, StatusGuards)
    ensures IsEventHasOpenOrders(s, event)
       <==> HasOpenItem(s, event) || exists o: nat :: Unresolved(s, o) && s.orders[o].event == event
  {
    var steps :| Follows(s0, steps, s, StatusGuards);
    InitialCovered(s0);
    StatusRun(s0, steps);
    GuardedIsPlaced(s0, steps, StatusGuards);
    QueryExactly(s, event);
  }

  // ---- requests as the API validates them ----

  /** The API rejects a request line that asks for no seat. */
  predicate AsksForSeats(step: Step) {
    step.DoAddOrder? ==> forall d :: 0 <= d < |step.request.details| ==> step.request.details[d].quantity > 0
  }

  predicate ApiGuards(s: State, step: Step) {
    Admissible(step) && RejectGuard(s, step) && BillGuard(s, step) && AsksForSeats(step)
  }

  ghost predicate NoneEmpty(s: State) {
    forall o :: 0 <= o < |s.orders| ==> !Empty(s.items, o)
  }

  lemma BuiltHasSeats(stocks: seq<Stock>, details: seq<Detail>, now: int, o: nat, firstId: nat)
    requires Build(stocks, details, now, o, firstId).Some?
    requires forall d :: 0 <= d < |details| ==> details[d].quantity > 0
    ensures |Build(stocks, details, now, o, firstId).value.items| > 0
  {
    BuildIsExact(stocks, details, now, o, firstId);
    var added := Build(stocks, details, now, o, firstId).value.items;
    assert Sum(added, OfStock(details[0].stock)) == details[0].quantity;
  }

  lemma AddOrderSeats(s: State, r: AddOrderRequest, now: int, serial: nat)
    requires Inv(s) && AddOrder(s, r, now, serial).Commit? && AsksForSeats(DoAddOrder(r, now, serial))
    ensures !Empty(AddOrder(s, r, now, serial).state.items, |s.orders|)
    ensures |AddOrder(s, r, now, serial).state.orders| == |s.orders| + 1
  {
    var s' := AddOrder(s, r, now, serial).state;
    AddOrderAdds(s, r, now, serial);
    BuiltHasSeats(s.stocks, r.details, now, |s.orders|, |s.items|);
    var added := Build(s.stocks, r.details, now, |s.orders|, |s.items|).value.items;
    assert s'.items[|s.items|] == added[0];
  }

  lemma StepNoneEmpty(s: State, step: Step)
    requires Inv(s) && NoneEmpty(s) && Admissible(step) && AsksForSeats(step)
    ensures NoneEmpty(Next(s, step))
  {
    var s' := Next(s, step);
    StepKeeps(s, step);
    forall o | 0 <= o < |s'.orders| ensures !Empty(s'.items, o) {
      if o < |s.orders| {
        assert !Empty(s.items, o);
        var i :| 0 <= i < |s.items| && s.items[i].order == o;
        assert SameItem(s.items[i], s'.items[i]);
      } else if step.DoAddOrder? {
        AddOrderSeats(s, step.request, step.now, step.serial);
      } else {
        StepKeepsPlaces(s, step);
      }
    }
  }

  lemma {:induction false} ApiRun(s: State, steps: seq<Step>)
    requires Inv(s) && Covered(s) && Bounded(s) && NoneEmpty(s) && RunMeets(s, steps, ApiGuards)
    ensures var s' := Run(s, steps); Inv(s') && Covered(s') && Bounded(s') && NoneEmpty(s')
  {
    if |steps| != 0 {
      var front, last := steps[..|steps| - 1], steps[|steps| - 1];
      ApiRun(s, front);
      BoundedGuardsPayments(Run(s, front), last);
      StepKeeps(Run(s, front), last);
      StepCovers(Run(s, front), last);
      StepBounded(Run(s, front), last);
      StepNoneEmpty(Run(s, front), last);
    }
  }

  lemma NothingUnresolved(s: State, event: nat)
    requires Inv(s) && Covered(s) && Placed(s) && Bounded(s) && NoneEmpty(s)
    ensures IsEventHasOpenOrders(s, event) <==> HasOpenItem(s, event)
  {
    QueryExactly(s, event);
    forall o: nat | o < |s.orders| ensures !Unresolved(s, o) {
      assert !Empty(s.items, o);
    }
  }

  lemma InitialNoneEmpty(s: State)
    requires Initial(s)
    ensures NoneEmpty(s)
  {
  }

  /** For callers who keep the guards, the order-level query is the item-level truth. */
  lemma QueryIsItemTruth(s0: State, s: State, event: nat)
    requires ReachableUnder(s0, s, ApiGuards)
    ensures IsEventHasOpenOrders(s, event) <==> HasOpenItem(s, event)
  {
    var steps :| Follows(s0, steps, s, ApiGuards);
    InitialCovered(s0);
    InitialNoneEmpty(s0);
    ApiRun(s0, steps);
    GuardedIsPlaced(s0, steps, ApiGuards);
    NothingUnresolved(s, event);
  }
}
