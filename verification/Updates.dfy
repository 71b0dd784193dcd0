/** Update options: each writes one entry of the set fields or of the increment fields of an update. */
module Updates {
  import opened Options
  import opened Entities

  datatype Field =
    | StatusField | ItemsCountField | TotalField | SubtotalField
    | PaidField | ReturnedField | ReturnedItemsCountField | PaymentField
    | UpdatedByField | UpdatedAtField | RefundingPaymentField
  datatype Value =
    | OrderStatusValue(order: OrderStatus) | BillStatusValue(bill: BillStatus) | Number(number: int) | Id(id: nat)

  datatype UpdateOption =
    | WithStatus(status: OrderStatus)
    | WithBillStatus(billStatus: BillStatus)
    | WithItemsCount(count: int)
    | WithPaymentID(payment: nat)
    | WithRefundingPaymentID(payment: nat)
    | WithTotal(total: int)
    | WithUpdatedBy(user: nat)
    | WithUpdatedAt(at: int)
    | WithIncTotal(amount: int)
    | WithIncSubtotal(amount: int)
    | WithIncPaid(amount: int)
    | WithIncReturned(amount: int)
    | WithIncReturnedItemsCount(amount: int)

  /** What one option writes: into the set fields, or into the increments. */
  function SetBy(opt: UpdateOption): map<Field, Value> {
    match opt
    case WithStatus(status) => map[StatusField := OrderStatusValue(status)]
    case WithBillStatus(status) => map[StatusField := BillStatusValue(status)]
    case WithItemsCount(count) => map[ItemsCountField := Number(count)]
    case WithPaymentID(payment) => map[PaymentField := Id(payment)]
    case WithRefundingPaymentID(payment) => map[RefundingPaymentField := Id(payment)]
    case WithTotal(total) => map[TotalField := Number(total)]
    case WithUpdatedBy(user) => map[UpdatedByField := Id(user)]
    case WithUpdatedAt(at) => map[UpdatedAtField := Number(at)]
    case _ => map[]
  }

  function IncBy(opt: UpdateOption): map<Field, int> {
    match opt
    case WithIncTotal(amount) => map[TotalField := amount]
    case WithIncSubtotal(amount) => map[SubtotalField := amount]
    case WithIncPaid(amount) => map[PaidField := amount]
    case WithIncReturned(amount) => map[ReturnedField := amount]
    case WithIncReturnedItemsCount(amount) => map[ReturnedItemsCountField := amount]
    case _ => map[]
  }

  /** A later option overwrites what an earlier one wrote under the same key; increments do not add up. */
  function SetFields(opts: seq<UpdateOption>): map<Field, Value> {
    if |opts| == 0 then map[] else SetFields(opts[..|opts| - 1]) + SetBy(opts[|opts| - 1])
  }

  function IncFields(opts: seq<UpdateOption>): map<Field, int> {
    if |opts| == 0 then map[] else IncFields(opts[..|opts| - 1]) + IncBy(opts[|opts| - 1])
  }

  class UpdateOptions {
    var setFields: map<Field, Value>
    var incFields: map<Field, int>

    constructor ()
      ensures setFields == map[] && incFields == map[]
    {
      setFields, incFields := map[], map[];
    }

    method Apply(opt: UpdateOption)
      modifies this
      ensures setFields == old(setFields) + SetBy(opt) && incFields == old(incFields) + IncBy(opt)
    {
      match opt
      case WithStatus(status) => setFields := setFields[StatusField := OrderStatusValue(status)];
      case WithBillStatus(status) => setFields := setFields[StatusField := BillStatusValue(status)];
      case WithItemsCount(count) => setFields := setFields[ItemsCountField := Number(count)];
      case WithPaymentID(payment) => setFields := setFields[PaymentField := Id(payment)];
      case WithRefundingPaymentID(payment) => setFields := setFields[RefundingPaymentField := Id(payment)];
      case WithTotal(total) => setFields := setFields[TotalField := Number(total)];
      case WithUpdatedBy(user) => setFields := setFields[UpdatedByField := Id(user)];
      case WithUpdatedAt(at) => setFields := setFields[UpdatedAtField := Number(at)];
      case WithIncTotal(amount) => incFields := incFields[TotalField := amount];
      case WithIncSubtotal(amount) => incFields := incFields[SubtotalField := amount];
      case WithIncPaid(amount) => incFields := incFields[PaidField := amount];
      case WithIncReturned(amount) => incFields := incFields[ReturnedField := amount];
      case WithIncReturnedItemsCount(amount) => incFields := incFields[ReturnedItemsCountField := amount];
    }

    method ApplyAll(opts: seq<UpdateOption>)
      requires setFields == map[] && incFields == map[]
      modifies this
      ensures setFields == SetFields(opts) && incFields == IncFields(opts)
    {
      for n := 0 to |opts|
        invariant setFields == SetFields(opts[..n]) && incFields == IncFields(opts[..n])
      {
        assert opts[..n + 1][..n] == opts[..n];
        Apply(opts[n]);
      }
      assert opts[..|opts|] == opts;
    }
  }

  // ---- what an update does to a document ----

  function Inc(incs: map<Field, int>, field: Field): int {
    if field in incs then incs[field] else 0
  }

  /** The same field cannot be set and incremented in one update: the database refuses it. */
  predicate Conflict(opts: seq<UpdateOption>) {
    SetFields(opts).Keys * IncFields(opts).Keys != {}
  }

  function NumberSet(sets: map<Field, Value>, field: Field, before: int): int {
    if field in sets && sets[field].Number? then sets[field].number else before
  }

  function OrderStatusSet(sets: map<Field, Value>, before: OrderStatus): OrderStatus {
    if StatusField in sets && sets[StatusField].OrderStatusValue? then sets[StatusField].order else before
  }

  function BillStatusSet(sets: map<Field, Value>, before: BillStatus): BillStatus {
    if StatusField in sets && sets[StatusField].BillStatusValue? then sets[StatusField].bill else before
  }

  function UpdatedOrder(order: Order, sets: map<Field, Value>, incs: map<Field, int>): Order {
    order.(status := OrderStatusSet(sets, order.status),
           itemsCount := NumberSet(sets, ItemsCountField, order.itemsCount),
           total := NumberSet(sets, TotalField, order.total) + Inc(incs, TotalField),
           subtotal := order.subtotal + Inc(incs, SubtotalField),
           paid := order.paid + Inc(incs, PaidField),
           returned := order.returned + Inc(incs, ReturnedField),
           returnedItemsCount := order.returnedItemsCount + Inc(incs, ReturnedItemsCountField))
  }

  function UpdatedBill(bill: Bill, sets: map<Field, Value>): Bill {
    bill.(status := BillStatusSet(sets, bill.status),
          payment := if PaymentField in sets && sets[PaymentField].Id? then Some(sets[PaymentField].id)
                     else bill.payment)
  }

  function Patched(order: Order, opts: seq<UpdateOption>): Order {
    UpdatedOrder(order, SetFields(opts), IncFields(opts))
  }

  function PatchedBill(bill: Bill, opts: seq<UpdateOption>): Bill {
    UpdatedBill(bill, SetFields(opts))
  }

  // ---- the updates the program makes ----

  lemma OneOption(a: UpdateOption)
    ensures SetFields([a]) == SetBy(a) && IncFields([a]) == IncBy(a)
  {
    assert [a][..0] == [];
    assert SetFields([]) == map[] && IncFields([]) == map[];
  }

  lemma TwoOptions(a: UpdateOption, b: UpdateOption)
    ensures SetFields([a, b]) == SetBy(a) + SetBy(b) && IncFields([a, b]) == IncBy(a) + IncBy(b)
  {
    OneOption(a);
    assert [a, b][..1] == [a];
  }

  /** Options that write different entries may be given in either order. */
  lemma OptionsCommute(order: Order, bill: Bill, a: UpdateOption, b: UpdateOption)
    requires SetBy(a).Keys !! SetBy(b).Keys && IncBy(a).Keys !! IncBy(b).Keys
    ensures Patched(order, [a, b]) == Patched(order, [b, a]) && PatchedBill(bill, [a, b]) == PatchedBill(bill, [b, a])
  {
    TwoOptions(a, b);
    TwoOptions(b, a);
    assert SetBy(a) + SetBy(b) == SetBy(b) + SetBy(a);
    assert IncBy(a) + IncBy(b) == IncBy(b) + IncBy(a);
  }

  lemma StatusUpdates(order: Order, bill: Bill, status: OrderStatus, billStatus: BillStatus, count: int)
    ensures Patched(order, [WithStatus(status)]) == order.(status := status)
    ensures Patched(order, [WithStatus(status), WithItemsCount(count)]) == order.(status := status, itemsCount := count)
    ensures PatchedBill(bill, [WithBillStatus(billStatus)]) == bill.(status := billStatus)
    ensures !Conflict([WithStatus(status)]) && !Conflict([WithStatus(status), WithItemsCount(count)])
    ensures !Conflict([WithBillStatus(billStatus)])
  {
    OneOption(WithStatus(status));
    OneOption(WithBillStatus(billStatus));
    TwoOptions(WithStatus(status), WithItemsCount(count));
  }

  lemma MoneyUpdates(order: Order, amount: int)
    ensures Patched(order, [WithIncPaid(amount)]) == order.(paid := order.paid + amount)
    ensures Patched(order, [WithIncTotal(-amount), WithIncSubtotal(-amount)])
         == order.(total := order.total - amount, subtotal := order.subtotal - amount)
    ensures Patched(order, [WithIncReturned(amount), WithIncReturnedItemsCount(1)])
         == order.(returned := order.returned + amount, returnedItemsCount := order.returnedItemsCount + 1)
    ensures !Conflict([WithIncPaid(amount)]) && !Conflict([WithIncTotal(-amount), WithIncSubtotal(-amount)])
    ensures !Conflict([WithIncReturned(amount), WithIncReturnedItemsCount(1)])
  {
    OneOption(WithIncPaid(amount));
    TwoOptions(WithIncTotal(-amount), WithIncSubtotal(-amount));
    TwoOptions(WithIncReturned(amount), WithIncReturnedItemsCount(1));
  }

  /** A total can be set, but not set and moved in one update. */
  lemma TotalUpdates(order: Order, total: int, amount: int)
    ensures Patched(order, [WithTotal(total)]) == order.(total := total)
    ensures Conflict([WithTotal(total), WithIncTotal(amount)])
  {
    OneOption(WithTotal(total));
    TwoOptions(WithTotal(total), WithIncTotal(amount));
    var opts := [WithTotal(total), WithIncTotal(amount)];
    assert TotalField in SetFields(opts).Keys * IncFields(opts).Keys;
  }

  /** Who changed a document, and when, is kept beside the fields that are modelled here. */
  lemma OtherUpdates(order: Order, bill: Bill, user: nat, at: int, payment: nat)
    ensures Patched(order, [WithUpdatedBy(user), WithUpdatedAt(at)]) == order
    ensures PatchedBill(bill, [WithUpdatedAt(at), WithRefundingPaymentID(payment)]) == bill
  {
    TwoOptions(WithUpdatedBy(user), WithUpdatedAt(at));
    TwoOptions(WithUpdatedAt(at), WithRefundingPaymentID(payment));
  }

  function SettledOptions(status: BillStatus, payment: Option<nat>): seq<UpdateOption> {
    (if payment.Some? then [WithPaymentID(payment.value)] else []) + [WithBillStatus(status)]
  }

  lemma SettledUpdate(bill: Bill, status: BillStatus, payment: Option<nat>)
    ensures PatchedBill(bill, SettledOptions(status, payment))
         == bill.(status := status, payment := if payment.Some? then payment else bill.payment)
    ensures !Conflict(SettledOptions(status, payment))
  {
    OneOption(WithBillStatus(status));
    assert [] + [WithBillStatus(status)] == [WithBillStatus(status)];
    if payment.Some? {
      var a, b := WithPaymentID(payment.value), WithBillStatus(status);
      TwoOptions(a, b);
      assert [a] + [b] == [a, b];
    }
  }
}
