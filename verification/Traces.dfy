/** Short runs of the code as it is, each showing what happens when one guard is not kept. */
module Traces {
  import opened Options
  import opened Sums
  import opened Entities
  import opened OrderBuilding
  import opened Lifecycle
  import opened Runs

  /** One stock of five seats at one unit each. */
  function Shop(): State {
    State([Stock(0, 0, 100, 0, 10, 0, 10, 5)], [], [], [], [], [])
  }

  function TwoSeats(): Step {
    DoAddOrder(AddOrderRequest(0, 200, 200, [Detail(0, 2)]), 0, 7)
  }

  function Seat(id: nat, status: ItemStatus): Item {
    Item(id, 0, 0, 0, 100, status)
  }

  function FullBill(status: BillStatus): Bill {
    Bill(0, 0, None, 200, Payment, status, true, None)
  }

  function Ordered(): State {
    State([Stock(0, 0, 100, 0, 10, 0, 10, 3)],
          [Order(0, 0, 7, 200, 200, 200, Unpaid, 0, 0, 0, 0)],
          [Seat(0, PendingPayment), Seat(1, PendingPayment)],
          [FullBill(BillPending)], [], [PaymentEvent(CreateAction, 0)])
  }

  function Pair(status: ItemStatus): seq<Item> {
    [Seat(0, status), Seat(1, status)]
  }

  lemma FetchOne(stock: Stock, n: nat)
    requires OnSale(stock, 0)
    ensures Requested([Detail(0, n)], 0) && Fetched([stock], [Detail(0, n)], 0, 1) == [0]
  {
    var details := [Detail(0, n)];
    assert details[0].stock == 0;
    assert Fetched([stock], details, 0, 0) == [];
  }

  lemma UnrollOne()
    ensures Unrolled(Shop().stocks, [0], [Detail(0, 2)], 0, 0) == Pair(PendingPayment)
    ensures Subtotal(Shop().stocks, [0], [Detail(0, 2)]) == 200
  {
    var details := [Detail(0, 2)];
    assert QuantityOf(details, 0) == 2;
    assert [0][..0] == [];
    assert Units(Shop().stocks[0], 0, 2, 0, 0) == Pair(PendingPayment);
  }

  lemma BuildTwo()
    ensures Build(Shop().stocks, [Detail(0, 2)], 0, 0, 0) == Some(Built(Pair(PendingPayment), 200, 0, 0))
  {
    FetchOne(Shop().stocks[0], 2);
    UnrollOne();
    assert QuantityOf([Detail(0, 2)], 0) == 2;
  }

  lemma PairSums(status: ItemStatus)
    ensures Sum(Pair(status), OfStock(0)) == 2
  {
    var pair := Pair(status);
    assert pair[..1] == [Seat(0, status)] && pair[..1][..0] == [];
    assert Sum(pair[..1], OfStock(0)) == 1;
  }

  lemma OrderTwoSeats()
    ensures Next(Shop(), TwoSeats()) == Ordered()
  {
    BuildTwo();
    AcceptedCanReserve(Shop().stocks, [Detail(0, 2)], 0, 0, 0);
    PairSums(PendingPayment);
    assert Reserved(Shop().stocks, Pair(PendingPayment)) == Ordered().stocks;
  }

  lemma RunOne(s: State, a: Step)
    ensures Run(s, [a]) == Next(s, a)
  {
    assert [a][..0] == [];
  }

  lemma SumPair(a: Item, b: Item, weight: Item -> int)
    ensures Sum([a, b], weight) == weight(a) + weight(b)
  {
    assert [a, b] == [a] + [b] && [a] == [] + [a];
    SumAppend([a], b, weight);
    SumAppend([], a, weight);
  }

  lemma ItemsOfPair(a: Item, b: Item)
    requires a.order == b.order == 0
    ensures ItemsOf([a, b], 0) == [a, b]
  {
    assert [a, b] == [a] + [b] && [a] == [] + [a];
    FilterAppend([a], b, InOrder(0));
    FilterAppend([], a, InOrder(0));
  }

  lemma ReleaseOne(stock: Stock, item: Item)
    requires item.stock == 0
    ensures Released([stock], [item]) == [stock.(quantity := stock.quantity + 1)]
  {
    SumAppend([], item, OfStock(0));
    assert [] + [item] == [item];
  }

  // ---- canceling an order after one of its seats ----

  function OneCanceled(quantity: int): State {
    Ordered().(stocks := [Shop().stocks[0].(quantity := quantity)],
               orders := [Ordered().orders[0].(total := 100, subtotal := 100)],
               items := [Seat(0, ItemCanceled), Seat(1, PendingPayment)])
  }

  lemma CancelFirstSeat()
    ensures Next(Ordered(), DoCancelItem(0, 0)) == OneCanceled(4)
  {
    var s := Ordered();
    ReleaseOne(s.stocks[0], s.items[0]);
    var s1 := ItemEffect(s, 0, 0, ItemCanceled);
    assert s1 == OneCanceled(4);
    assert s1.items[1].order == 0 && !s1.items[1].status.ItemCanceled?;
  }

  lemma FullBillIsPending()
    ensures Filter([FullBill(BillPending)], PendingOf(0)) == [FullBill(BillPending)]
  {
    FilterAppend([], FullBill(BillPending), PendingOf(0));
    assert [] + [FullBill(BillPending)] == [FullBill(BillPending)];
  }

  lemma ReleaseBothSeats()
    ensures ItemsOf(OneCanceled(4).items, 0) == OneCanceled(4).items
    ensures Released(OneCanceled(4).stocks, OneCanceled(4).items)[0].quantity == 6
  {
    ItemsOfPair(Seat(0, ItemCanceled), Seat(1, PendingPayment));
    SumPair(Seat(0, ItemCanceled), Seat(1, PendingPayment), OfStock(0));
  }

  lemma CancelWholeOrder()
    ensures CancelOrder(OneCanceled(4), 0).Commit?
    ensures CancelOrder(OneCanceled(4), 0).state.stocks == Released(OneCanceled(4).stocks, OneCanceled(4).items)
    ensures CancelOrder(OneCanceled(4), 0).state.items == Pair(ItemCanceled)
    ensures |CancelOrder(OneCanceled(4), 0).state.orders| == 1
  {
    FullBillIsPending();
    ReleaseBothSeats();
  }

  function DoubleRelease(): seq<Step> {
    [TwoSeats(), DoCancelItem(0, 0), DoCancelOrder(0)]
  }

  /** Without the cancel guard a seat is released twice. */
  lemma SeatReleasedTwice()
    ensures var s := Run(Shop(), DoubleRelease());
      && s.items == Pair(ItemCanceled) && |s.orders| == 1 && s.stocks == SixLeft()
  {
    RunOne(Shop(), TwoSeats());
    OrderTwoSeats();
    RunMore(Shop(), [TwoSeats()], DoCancelItem(0, 0));
    CancelFirstSeat();
    RunMore(Shop(), [TwoSeats(), DoCancelItem(0, 0)], DoCancelOrder(0));
    CancelWholeOrder();
    ReleaseBothSeats();
    assert [TwoSeats()] + [DoCancelItem(0, 0)] == [TwoSeats(), DoCancelItem(0, 0)];
    assert [TwoSeats(), DoCancelItem(0, 0)] + [DoCancelOrder(0)] == DoubleRelease();
  }

  function SixSeats(): AddOrderRequest {
    AddOrderRequest(0, 600, 600, [Detail(0, 6)])
  }

  function SixLeft(): seq<Stock> {
    [Shop().stocks[0].(quantity := 6)]
  }

  lemma AcceptSix(order: nat, firstId: nat)
    ensures Build(SixLeft(), SixSeats().details, 0, order, firstId).Some?
    ensures Build(SixLeft(), SixSeats().details, 0, order, firstId).value.event == 0
  {
    AcceptsExactly(SixLeft(), SixSeats().details, 0, order, firstId);
    FetchOne(SixLeft()[0], 6);
  }

  lemma PriceOfSix(order: nat, firstId: nat)
    requires Build(SixLeft(), SixSeats().details, 0, order, firstId).Some?
    ensures Build(SixLeft(), SixSeats().details, 0, order, firstId).value.subtotal == 600
  {
    var details := SixSeats().details;
    FetchOne(SixLeft()[0], 6);
    assert QuantityOf(details, 0) == 6 && Subtotal(SixLeft(), [0][..0], details) == 0;
    assert Subtotal(SixLeft(), [0], details) == 600;
  }

  lemma SeatsOfSix(order: nat, firstId: nat)
    requires Build(SixLeft(), SixSeats().details, 0, order, firstId).Some?
    ensures Sum(Build(SixLeft(), SixSeats().details, 0, order, firstId).value.items, Holds(0)) == 6
  {
    var details := SixSeats().details;
    var items := Build(SixLeft(), details, 0, order, firstId).value.items;
    BuildIsExact(SixLeft(), details, 0, order, firstId);
    assert Sum(items, OfStock(details[0].stock)) == details[0].quantity;
    SumPointwise(items, items, Holds(0), OfStock(0));
  }

  lemma BuildSix(order: nat, firstId: nat) returns (b: Built)
    ensures Build(SixLeft(), SixSeats().details, 0, order, firstId) == Some(b)
    ensures b.event == 0 && b.subtotal == 600 && Sum(b.items, Holds(0)) == 6
  {
    AcceptSix(order, firstId);
    PriceOfSix(order, firstId);
    SeatsOfSix(order, firstId);
    b := Build(SixLeft(), SixSeats().details, 0, order, firstId).value;
  }

  /** An order for what was built, at its price, adds its seats. */
  lemma Sell(s: State, r: AddOrderRequest, now: int, serial: nat, b: Built)
    requires Build(s.stocks, r.details, now, |s.orders|, |s.items|) == Some(b)
    requires r.event == b.event && r.subtotal == r.total == b.subtotal
    ensures Next(s, DoAddOrder(r, now, serial)).items == s.items + b.items
  {
    AcceptedCanReserve(s.stocks, r.details, now, |s.orders|, |s.items|);
  }

  /** Sold where nothing was held before, the built seats are what is held. */
  lemma SellAfter(s0: State, steps: seq<Step>, s: State, r: AddOrderRequest, now: int, serial: nat, b: Built, k: nat)
    requires s == Run(s0, steps) && Build(s.stocks, r.details, now, |s.orders|, |s.items|) == Some(b)
    requires r.event == b.event && r.subtotal == r.total == b.subtotal && Sum(s.items, Holds(k)) == 0
    ensures Sum(Run(s0, steps + [DoAddOrder(r, now, serial)]).items, Holds(k)) == Sum(b.items, Holds(k))
  {
    RunMore(s0, steps, DoAddOrder(r, now, serial));
    Sell(s, r, now, serial, b);
    SumConcat(s.items, b.items, Holds(k));
  }

  /** So a stock that opened with five seats sells six. */
  lemma StockOversold()
    ensures var s := Run(Shop(), DoubleRelease() + [DoAddOrder(SixSeats(), 0, 8)]);
      Sum(s.items, Holds(0)) == 6 > Shop().stocks[0].quantity
  {
    var s := Run(Shop(), DoubleRelease());
    SeatReleasedTwice();
    SumPair(Seat(0, ItemCanceled), Seat(1, ItemCanceled), Holds(0));
    var b := BuildSix(|s.orders|, |s.items|);
    SellAfter(Shop(), DoubleRelease(), s, SixSeats(), 0, 8, b, 0);
  }

  // ---- rejecting a return that nobody requested ----

  function PaidInFull(): State {
    Ordered().(orders := [Ordered().orders[0].(status := OrderPaid, paid := 200)],
               items := Pair(ItemPaid),
               bills := [FullBill(BillPaid)],
               outbox := [PaymentEvent(CreateAction, 0), GenerateTickets(0)])
  }

  lemma PayInFull()
    ensures Next(Ordered(), DeliverPayment(0, None, true)) == PaidInFull()
  {
    var s1 := Settle(Ordered(), 0, None, true);
    assert s1.items[0].order == 0 && s1.items[0].status.PendingPayment?;
    assert BulkItems(s1.items, 0, PendingPayment, ItemPaid) == Pair(ItemPaid);
    assert ToPaid(s1, 0, true).state == PaidInFull();
  }

  function CompletedTooEarly(): State {
    PaidInFull().(orders := [PaidInFull().orders[0].(status := Completed, itemsCount := 1)],
                  items := [Seat(0, Fulfilled), Seat(1, ItemPaid)])
  }

  lemma RejectPaidSeat()
    ensures Next(PaidInFull(), DoRejectReturn(0, 0)) == CompletedTooEarly()
  {
    var s1 := ItemEffect(PaidInFull(), 0, 0, Fulfilled);
    assert s1.items == CompletedTooEarly().items;
    SumPair(s1.items[0], s1.items[1], FulfilledOne(0));
    assert NonePending(s1.items, 0);
  }

  /** Without the reject guard an order of two live seats completes without tickets, counting one item. */
  lemma CompletedWithoutTickets()
    ensures var s := Run(Shop(), [TwoSeats(), DeliverPayment(0, None, true), DoRejectReturn(0, 0)]);
      && |s.orders| == 1 && s.orders[0].status == Completed && s.orders[0].itemsCount == 1
      && Sum(s.items, LiveOne(0)) == 2 && s.tickets == []
  {
    RunOne(Shop(), TwoSeats());
    OrderTwoSeats();
    RunMore(Shop(), [TwoSeats()], DeliverPayment(0, None, true));
    PayInFull();
    RunMore(Shop(), [TwoSeats(), DeliverPayment(0, None, true)], DoRejectReturn(0, 0));
    RejectPaidSeat();
    SumPair(Seat(0, Fulfilled), Seat(1, ItemPaid), LiveOne(0));
    assert [TwoSeats()] + [DeliverPayment(0, None, true)] == [TwoSeats(), DeliverPayment(0, None, true)];
    assert [TwoSeats(), DeliverPayment(0, None, true)] + [DoRejectReturn(0, 0)]
        == [TwoSeats(), DeliverPayment(0, None, true), DoRejectReturn(0, 0)];
  }

  // ---- canceling a seat under bills that cover it ----

  function HalfBill(id: nat, status: BillStatus): Bill {
    Bill(id, 0, None, 100, Payment, status, true, None)
  }

  /** The order with its first bill canceled and two bills of one seat each. */
  function Halves(total: int, paid: int, status: OrderStatus, items: seq<Item>, quantity: int,
                  first: BillStatus, second: BillStatus, events: seq<Message>): State {
    State([Shop().stocks[0].(quantity := quantity)],
          [Order(0, 0, 7, total, total, 200, status, paid, 0, 0, 0)], items,
          [FullBill(BillCanceled), HalfBill(1, first), HalfBill(2, second)], [], events)
  }

  function HalvesEvents(): seq<Message> {
    [PaymentEvent(CreateAction, 0), PaymentEvent(CancelAction, 0), PaymentEvent(CreateAction, 1),
     PaymentEvent(CreateAction, 2)]
  }

  function Billed(): State {
    Halves(200, 0, Unpaid, Pair(PendingPayment), 3, BillPending, BillPending, HalvesEvents())
  }

  function OneBill(): State {
    Billed().(bills := Billed().bills[..1], outbox := HalvesEvents()[..2])
  }

  function TwoBills(): State {
    Billed().(bills := Billed().bills[..2], outbox := HalvesEvents()[..3])
  }

  lemma CommittedOf(bills: seq<Bill>, b: Bill)
    ensures Sum(bills + [b], CommittedAny(0)) == Sum(bills, CommittedAny(0)) + CommittedAny(0)(b)
    ensures Sum([], CommittedAny(0)) == 0
  {
    SumAppend(bills, b, CommittedAny(0));
  }

  lemma SplitTheBill()
    ensures Next(Ordered(), DoCancelBill(0)) == OneBill()
    ensures Next(OneBill(), DoCreateBill(0, 100)) == TwoBills()
    ensures Next(TwoBills(), DoCreateBill(0, 100)) == Billed()
  {
    CommittedOf([], FullBill(BillCanceled));
    CommittedOf([FullBill(BillCanceled)], HalfBill(1, BillPending));
    assert [] + [FullBill(BillCanceled)] == OneBill().bills;
    assert [FullBill(BillCanceled)] + [HalfBill(1, BillPending)] == TwoBills().bills;
  }

  function Reduced(): State {
    Halves(100, 0, Unpaid, [Seat(0, PendingPayment), Seat(1, ItemCanceled)], 4,
           BillPending, BillPending, HalvesEvents())
  }

  lemma CancelSecondSeat()
    ensures Next(Billed(), DoCancelItem(1, 0)) == Reduced()
  {
    var s := Billed();
    ReleaseOne(s.stocks[0], s.items[1]);
    assert ItemEffect(s, 1, 0, ItemCanceled) == Reduced();
    assert Reduced().items[0].order == 0 && !Reduced().items[0].status.ItemCanceled?;
  }

  function PaidOnce(): State {
    Halves(100, 100, OrderPaid, [Seat(0, ItemPaid), Seat(1, ItemCanceled)], 4, BillPaid, BillPending,
           HalvesEvents() + [GenerateTickets(0)])
  }

  lemma PayFirstHalf()
    ensures Next(Reduced(), DeliverPayment(1, None, true)) == PaidOnce()
  {
    var s1 := Settle(Reduced(), 1, None, true);
    assert s1.items[0].order == 0 && !s1.items[0].status.ItemCanceled?;
    assert BulkItems(s1.items, 0, PendingPayment, ItemPaid) == PaidOnce().items;
    assert ToPaid(s1, 0, true).state == PaidOnce();
  }

  function PaidTwice(): State {
    Halves(100, 200, Completed, [Seat(0, ItemPaid), Seat(1, ItemCanceled)], 4, BillPaid, BillPaid,
           HalvesEvents() + [GenerateTickets(0)])
  }

  lemma PaySecondHalf()
    ensures Next(PaidOnce(), DeliverPayment(2, None, true)) == PaidTwice()
  {
    var s1 := Settle(PaidOnce(), 2, None, true);
    SumPair(s1.items[0], s1.items[1], FulfilledOne(0));
    assert NonePending(s1.items, 0);
    assert ToCompleted(s1, 0) == PaidTwice();
  }

  function OverpayingSteps(): seq<Step> {
    [TwoSeats(), DoCancelBill(0), DoCreateBill(0, 100), DoCreateBill(0, 100), DoCancelItem(1, 0),
     DeliverPayment(1, None, true), DeliverPayment(2, None, true)]
  }

  lemma RunPrefix(s: State, steps: seq<Step>, n: nat)
    requires n < |steps|
    ensures Run(s, steps[..n + 1]) == Next(Run(s, steps[..n]), steps[n])
  {
    assert steps[..n + 1] == steps[..n] + [steps[n]];
    RunMore(s, steps[..n], steps[n]);
  }

  lemma OverpayingPrefixes()
    ensures Run(Shop(), OverpayingSteps()[..4]) == Billed()
  {
    var steps := OverpayingSteps();
    assert steps[..0] == [];
    RunPrefix(Shop(), steps, 0);
    RunPrefix(Shop(), steps, 1);
    RunPrefix(Shop(), steps, 2);
    RunPrefix(Shop(), steps, 3);
    OrderTwoSeats();
    SplitTheBill();
  }

  /**
   * Without the bill guard an order is paid for a seat that was canceled: it completes without a ticket and counts
   * no items.
   */
  lemma OverpaidAndTicketless()
    ensures Run(Shop(), OverpayingSteps()) == PaidTwice()
    ensures PaidTwice().orders[0].paid > PaidTwice().orders[0].total && PaidTwice().tickets == []
    ensures PaidTwice().orders[0].itemsCount == 0 && Sum(PaidTwice().items, LiveOne(0)) == 1
  {
    var steps := OverpayingSteps();
    OverpayingPrefixes();
    RunPrefix(Shop(), steps, 4);
    CancelSecondSeat();
    RunPrefix(Shop(), steps, 5);
    PayFirstHalf();
    RunPrefix(Shop(), steps, 6);
    PaySecondHalf();
    assert steps[..7] == steps;
    SumPair(Seat(0, ItemPaid), Seat(1, ItemCanceled), LiveOne(0));
  }
}
