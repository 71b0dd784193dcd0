/** How writes to items and bills move the sums that the orders' counters track. */
module ItemSums {
  import opened Sums
  import opened Entities

  /** Same items with other statuses, but nothing became or ceased to be canceled or returned. */
  ghost predicate Relabeled(items: seq<Item>, items': seq<Item>) {
    && |items'| == |items|
    && forall i :: 0 <= i < |items| ==>
         && items'[i] == items[i].(status := items'[i].status)
         && items'[i].status.ItemCanceled? == items[i].status.ItemCanceled?
         && items'[i].status.ItemReturned? == items[i].status.ItemReturned?
  }

  ghost predicate SameSums(items: seq<Item>, items': seq<Item>, o: nat) {
    && Sum(items', FullPrice(o)) == Sum(items, FullPrice(o))
    && Sum(items', LivePrice(o)) == Sum(items, LivePrice(o))
    && Sum(items', ReturnedPrice(o)) == Sum(items, ReturnedPrice(o))
    && Sum(items', ReturnedOne(o)) == Sum(items, ReturnedOne(o))
    && Sum(items', LiveOne(o)) == Sum(items, LiveOne(o))
  }

  lemma RelabeledSums(items: seq<Item>, items': seq<Item>, o: nat)
    requires Relabeled(items, items')
    ensures SameSums(items, items', o)
  {
    SumPointwise(items', items, FullPrice(o), FullPrice(o));
    SumPointwise(items', items, LivePrice(o), LivePrice(o));
    SumPointwise(items', items, ReturnedPrice(o), ReturnedPrice(o));
    SumPointwise(items', items, ReturnedOne(o), ReturnedOne(o));
    SumPointwise(items', items, LiveOne(o), LiveOne(o));
  }

  lemma RelabeledHolds(items: seq<Item>, items': seq<Item>, k: nat)
    requires Relabeled(items, items')
    ensures Sum(items', Holds(k)) == Sum(items, Holds(k))
  {
    SumPointwise(items', items, Holds(k), Holds(k));
  }

  /** One item's status changes: each sum moves by that item's weight. */
  lemma ItemMoves(items: seq<Item>, i: nat, status: ItemStatus, o: nat)
    requires i < |items|
    ensures var x := items[i].(status := status);
      var items' := items[i := x];
      && Sum(items', FullPrice(o)) == Sum(items, FullPrice(o))
      && Sum(items', LivePrice(o)) == Sum(items, LivePrice(o)) - LivePrice(o)(items[i]) + LivePrice(o)(x)
      && Sum(items', ReturnedPrice(o))
         == Sum(items, ReturnedPrice(o)) - ReturnedPrice(o)(items[i]) + ReturnedPrice(o)(x)
      && Sum(items', ReturnedOne(o)) == Sum(items, ReturnedOne(o)) - ReturnedOne(o)(items[i]) + ReturnedOne(o)(x)
      && Sum(items', LiveOne(o)) == Sum(items, LiveOne(o)) - LiveOne(o)(items[i]) + LiveOne(o)(x)
  {
    var x := items[i].(status := status);
    SumUpdate(items, i, x, FullPrice(o));
    SumUpdate(items, i, x, LivePrice(o));
    SumUpdate(items, i, x, ReturnedPrice(o));
    SumUpdate(items, i, x, ReturnedOne(o));
    SumUpdate(items, i, x, LiveOne(o));
  }

  /** New items of one order add their weights to it and nothing to another order. */
  lemma ItemsAdded(items: seq<Item>, added: seq<Item>, o: nat)
    ensures var items' := items + added;
      && Sum(items', FullPrice(o)) == Sum(items, FullPrice(o)) + Sum(added, FullPrice(o))
      && Sum(items', LivePrice(o)) == Sum(items, LivePrice(o)) + Sum(added, LivePrice(o))
      && Sum(items', ReturnedPrice(o)) == Sum(items, ReturnedPrice(o)) + Sum(added, ReturnedPrice(o))
      && Sum(items', ReturnedOne(o)) == Sum(items, ReturnedOne(o)) + Sum(added, ReturnedOne(o))
      && Sum(items', LiveOne(o)) == Sum(items, LiveOne(o)) + Sum(added, LiveOne(o))
  {
    SumConcat(items, added, FullPrice(o));
    SumConcat(items, added, LivePrice(o));
    SumConcat(items, added, ReturnedPrice(o));
    SumConcat(items, added, ReturnedOne(o));
    SumConcat(items, added, LiveOne(o));
  }

  lemma NoItems(items: seq<Item>, o: nat)
    requires forall i :: 0 <= i < |items| ==> items[i].order != o
    ensures Sum(items, FullPrice(o)) == Sum(items, LivePrice(o)) == Sum(items, ReturnedPrice(o)) == 0
    ensures Sum(items, ReturnedOne(o)) == Sum(items, LiveOne(o)) == 0
  {
    SumZero(items, FullPrice(o));
    SumZero(items, LivePrice(o));
    SumZero(items, ReturnedPrice(o));
    SumZero(items, ReturnedOne(o));
    SumZero(items, LiveOne(o));
  }

  lemma BillMoves(bills: seq<Bill>, b: nat, x: Bill, o: nat)
    requires b < |bills|
    ensures var bills' := bills[b := x];
      && Sum(bills', PaidAmount(o)) == Sum(bills, PaidAmount(o)) - PaidAmount(o)(bills[b]) + PaidAmount(o)(x)
      && Sum(bills', RefundedAmount(o))
         == Sum(bills, RefundedAmount(o)) - RefundedAmount(o)(bills[b]) + RefundedAmount(o)(x)
      && Sum(bills', CommittedPayment(o))
         == Sum(bills, CommittedPayment(o)) - CommittedPayment(o)(bills[b]) + CommittedPayment(o)(x)
  {
    SumUpdate(bills, b, x, PaidAmount(o));
    SumUpdate(bills, b, x, RefundedAmount(o));
    SumUpdate(bills, b, x, CommittedPayment(o));
  }

  lemma BillAdded(bills: seq<Bill>, x: Bill, o: nat)
    ensures var bills' := bills + [x];
      && Sum(bills', PaidAmount(o)) == Sum(bills, PaidAmount(o)) + PaidAmount(o)(x)
      && Sum(bills', RefundedAmount(o)) == Sum(bills, RefundedAmount(o)) + RefundedAmount(o)(x)
      && Sum(bills', CommittedPayment(o)) == Sum(bills, CommittedPayment(o)) + CommittedPayment(o)(x)
  {
    SumAppend(bills, x, PaidAmount(o));
    SumAppend(bills, x, RefundedAmount(o));
    SumAppend(bills, x, CommittedPayment(o));
  }

  lemma NoBills(bills: seq<Bill>, o: nat)
    requires forall b :: 0 <= b < |bills| ==> bills[b].order != o
    ensures Sum(bills, PaidAmount(o)) == Sum(bills, RefundedAmount(o)) == Sum(bills, CommittedPayment(o)) == 0
  {
    SumZero(bills, PaidAmount(o));
    SumZero(bills, RefundedAmount(o));
    SumZero(bills, CommittedPayment(o));
  }
}
