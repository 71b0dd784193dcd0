/** validateAndBuildOrderItems: from a request to one pending item per seat. */
module OrderBuilding {
  import opened Options
  import opened Sums
  import opened Entities

  datatype Detail = Detail(stock: nat, quantity: nat)
  datatype AddOrderRequest = AddOrderRequest(event: nat, subtotal: int, total: int, details: seq<Detail>)

  predicate Requested(details: seq<Detail>, k: nat) {
    exists d :: 0 <= d < |details| && details[d].stock == k
  }

  predicate OnSale(stock: Stock, now: int) {
    stock.saleStart <= now <= stock.saleEnd
  }

  /** GetValidTicketsByIDs over the first n stocks: each stock on sale whose id is requested, once. */
  function Fetched(stocks: seq<Stock>, details: seq<Detail>, now: int, n: nat): (r: seq<nat>)
    requires n <= |stocks|
    ensures forall j :: 0 <= j < |r| ==> r[j] < n && Requested(details, r[j]) && OnSale(stocks[r[j]], now)
    ensures forall j, j' :: 0 <= j < j' < |r| ==> r[j] < r[j']
    ensures forall k :: 0 <= k < n && Requested(details, k) && OnSale(stocks[k], now) ==> k in r
  {
    if n == 0 then []
    else
      var front := Fetched(stocks, details, now, n - 1);
      if Requested(details, n - 1) && OnSale(stocks[n - 1], now) then front + [n - 1] else front
  }

  /** itemsByTicketID: a later entry for the same stock overwrites an earlier one. */
  function QuantityOf(details: seq<Detail>, k: nat): nat {
    if |details| == 0 then 0
    else if details[|details| - 1].stock == k then details[|details| - 1].quantity
    else QuantityOf(details[..|details| - 1], k)
  }

  function Units(stock: Stock, k: nat, quantity: nat, order: nat, firstId: nat): seq<Item> {
    seq(quantity, u requires 0 <= u < quantity =>
      Item(firstId + u, order, k, stock.session, stock.price, PendingPayment))
  }

  function Unrolled(stocks: seq<Stock>, lines: seq<nat>, details: seq<Detail>, order: nat, firstId: nat): seq<Item>
    requires forall j :: 0 <= j < |lines| ==> lines[j] < |stocks|
  {
    if |lines| == 0 then []
    else
      var n := |lines| - 1;
      var front := Unrolled(stocks, lines[..n], details, order, firstId);
      front + Units(stocks[lines[n]], lines[n], QuantityOf(details, lines[n]), order, firstId + |front|)
  }

  function Subtotal(stocks: seq<Stock>, lines: seq<nat>, details: seq<Detail>): int
    requires forall j :: 0 <= j < |lines| ==> lines[j] < |stocks|
  {
    if |lines| == 0 then 0
    else
      var n := |lines| - 1;
      Subtotal(stocks, lines[..n], details) + stocks[lines[n]].price * QuantityOf(details, lines[n])
  }

  /** The stock check and the per-order limits of one fetched stock. */
  predicate LineOk(stock: Stock, quantity: nat) {
    quantity <= stock.quantity && stock.minPerOrder <= quantity <= stock.maxPerOrder
  }

  predicate Accepts(stocks: seq<Stock>, details: seq<Detail>, now: int) {
    var lines := Fetched(stocks, details, now, |stocks|);
    && |details| != 0
    && |lines| == |details|
    && (forall j :: 0 <= j < |lines| ==>
          stocks[lines[j]].event == stocks[lines[0]].event && stocks[lines[j]].session == stocks[lines[0]].session)
    && (forall j :: 0 <= j < |lines| ==> LineOk(stocks[lines[j]], QuantityOf(details, lines[j])))
  }

  datatype Built = Built(items: seq<Item>, subtotal: int, event: nat, session: nat)

  function Build(stocks: seq<Stock>, details: seq<Detail>, now: int, order: nat, firstId: nat): Option<Built> {
    if !Accepts(stocks, details, now) then None
    else
      var lines := Fetched(stocks, details, now, |stocks|);
      Some(Built(Unrolled(stocks, lines, details, order, firstId), Subtotal(stocks, lines, details),
                 stocks[lines[0]].event, stocks[lines[0]].session))
  }

  function Price(): Item -> int {
    (i: Item) => i.price
  }

  // ---- what an accepted request builds ----

  predicate Distinct(details: seq<Detail>) {
    forall d, d' :: 0 <= d < d' < |details| ==> details[d].stock != details[d'].stock
  }

  function StockSet(details: seq<Detail>): set<nat> {
    set d | 0 <= d < |details| :: details[d].stock
  }

  lemma StockSetGrows(details: seq<Detail>)
    requires |details| > 0
    ensures var n := |details| - 1; StockSet(details) == StockSet(details[..n]) + {details[n].stock}
  {
    var n := |details| - 1;
    var front, k := details[..n], details[n].stock;
    forall x | x in StockSet(details) ensures x in StockSet(front) + {k} {
      var d :| 0 <= d < |details| && details[d].stock == x;
      assert d < n ==> front[d] == details[d];
    }
    forall x | x in StockSet(front) + {k} ensures x in StockSet(details) {
      if x != k {
        var d :| 0 <= d < n && front[d].stock == x;
        assert details[d].stock == x;
      } else {
        assert details[n].stock == x;
      }
    }
  }

  lemma DistinctGrows(details: seq<Detail>)
    requires |details| > 0
    ensures var n := |details| - 1;
      Distinct(details) <==> Distinct(details[..n]) && details[n].stock !in StockSet(details[..n])
  {
    var n := |details| - 1;
    var front, k := details[..n], details[n].stock;
    assert forall d :: 0 <= d < n ==> front[d] == details[d] && front[d].stock in StockSet(front);
    if k in StockSet(front) {
      var d :| 0 <= d < n && front[d].stock == k;
      assert details[d].stock == details[n].stock;
    }
  }

  lemma {:induction false} StockSetSize(details: seq<Detail>)
    ensures |StockSet(details)| <= |details|
    ensures |StockSet(details)| == |details| <==> Distinct(details)
  {
    if |details| == 0 {
      assert StockSet(details) == {};
    } else {
      StockSetSize(details[..|details| - 1]);
      StockSetGrows(details);
      DistinctGrows(details);
    }
  }

  function Elements(r: seq<nat>): set<nat> {
    set x | x in r
  }

  lemma {:induction false} IncreasingSetSize(r: seq<nat>)
    requires forall j, j' :: 0 <= j < j' < |r| ==> r[j] < r[j']
    ensures |Elements(r)| == |r|
  {
    if |r| != 0 {
      var n := |r| - 1;
      IncreasingSetSize(r[..n]);
      assert Elements(r) == Elements(r[..n]) + {r[n]};
      assert r[n] !in Elements(r[..n]);
    }
  }

  lemma SubsetOfSameSize(a: set<nat>, b: set<nat>)
    requires a <= b
    ensures |a| <= |b|
    ensures |a| == |b| ==> a == b
  {
    assert b == a + (b - a);
    assert |b| == |a| + |b - a|;
  }

  predicate AllOnSale(stocks: seq<Stock>, details: seq<Detail>, now: int) {
    forall d :: 0 <= d < |details| ==> details[d].stock < |stocks| && OnSale(stocks[details[d].stock], now)
  }

  lemma FetchedIsRequested(stocks: seq<Stock>, details: seq<Detail>, now: int)
    ensures var fetched := Elements(Fetched(stocks, details, now, |stocks|));
      fetched <= StockSet(details) && (fetched == StockSet(details) <==> AllOnSale(stocks, details, now))
  {
    var lines := Fetched(stocks, details, now, |stocks|);
    forall x | x in lines ensures x in StockSet(details) {
      assert Requested(details, x);
    }
    if Elements(lines) == StockSet(details) {
      forall d | 0 <= d < |details| ensures details[d].stock < |stocks| && OnSale(stocks[details[d].stock], now) {
        assert details[d].stock in StockSet(details);
        assert details[d].stock in lines;
      }
    }
    if AllOnSale(stocks, details, now) {
      forall x | x in StockSet(details) ensures x in Elements(lines) {
        assert Requested(details, x);
      }
    }
  }

  /** The count check alone: it passes exactly for distinct stocks that all exist and are on sale. */
  lemma CountCheck(stocks: seq<Stock>, details: seq<Detail>, now: int)
    ensures |Fetched(stocks, details, now, |stocks|)| == |details|
       <==> Distinct(details) && AllOnSale(stocks, details, now)
  {
    var lines := Fetched(stocks, details, now, |stocks|);
    IncreasingSetSize(lines);
    StockSetSize(details);
    FetchedIsRequested(stocks, details, now);
    SubsetOfSameSize(Elements(lines), StockSet(details));
  }

  /** With distinct stocks the lookup table holds every requested quantity. */
  lemma {:induction false} QuantityOfDistinct(details: seq<Detail>, d: nat)
    requires Distinct(details) && d < |details|
    ensures QuantityOf(details, details[d].stock) == details[d].quantity
  {
    var n := |details| - 1;
    if d < n {
      assert details[d].stock != details[n].stock;
      QuantityOfDistinct(details[..n], d);
    }
  }

  lemma {:induction false} UnitsSums(stock: Stock, k: nat, quantity: nat, order: nat, firstId: nat, k': nat)
    ensures Sum(Units(stock, k, quantity, order, firstId), OfStock(k')) == if k == k' then quantity else 0
    ensures Sum(Units(stock, k, quantity, order, firstId), Price()) == stock.price * quantity
  {
    var units := Units(stock, k, quantity, order, firstId);
    if quantity != 0 {
      UnitsSums(stock, k, quantity - 1, order, firstId, k');
      assert units[..quantity - 1] == Units(stock, k, quantity - 1, order, firstId);
      assert stock.price * quantity == stock.price * (quantity - 1) + stock.price;
    }
  }

  /** Each built item is a fresh pending seat of one of the lines, at that stock's price and session. */
  predicate FreshSeats(stocks: seq<Stock>, lines: seq<nat>, items: seq<Item>, order: nat, firstId: nat) {
    forall j :: 0 <= j < |items| ==>
      && items[j].id == firstId + j && items[j].order == order && items[j].status.PendingPayment?
      && items[j].stock < |stocks| && items[j].stock in lines
      && items[j].price == stocks[items[j].stock].price && items[j].session == stocks[items[j].stock].session
  }

  lemma {:induction false} UnrolledSeats(stocks: seq<Stock>, lines: seq<nat>, details: seq<Detail>, order: nat,
                                         firstId: nat)
    requires forall j :: 0 <= j < |lines| ==> lines[j] < |stocks|
    ensures FreshSeats(stocks, lines, Unrolled(stocks, lines, details, order, firstId), order, firstId)
  {
    if |lines| != 0 {
      UnrolledSeats(stocks, lines[..|lines| - 1], details, order, firstId);
    }
  }

  lemma {:induction false} UnrolledSums(stocks: seq<Stock>, lines: seq<nat>, details: seq<Detail>, order: nat,
                                        firstId: nat, k: nat)
    requires forall j :: 0 <= j < |lines| ==> lines[j] < |stocks|
    requires forall j, j' :: 0 <= j < j' < |lines| ==> lines[j] < lines[j']
    ensures Sum(Unrolled(stocks, lines, details, order, firstId), OfStock(k))
         == if k in lines then QuantityOf(details, k) else 0
    ensures Sum(Unrolled(stocks, lines, details, order, firstId), Price()) == Subtotal(stocks, lines, details)
  {
    if |lines| != 0 {
      var n := |lines| - 1;
      var front := Unrolled(stocks, lines[..n], details, order, firstId);
      var units := Units(stocks[lines[n]], lines[n], QuantityOf(details, lines[n]), order, firstId + |front|);
      UnrolledSums(stocks, lines[..n], details, order, firstId, k);
      UnitsSums(stocks[lines[n]], lines[n], QuantityOf(details, lines[n]), order, firstId + |front|, k);
      SumConcat(front, units, OfStock(k));
      SumConcat(front, units, Price());
      assert lines[n] !in lines[..n];
      assert k in lines <==> k in lines[..n] || k == lines[n];
    }
  }

  predicate ServedExactly(stocks: seq<Stock>, details: seq<Detail>, b: Built, order: nat, firstId: nat) {
    && (forall d :: 0 <= d < |details| ==> Sum(b.items, OfStock(details[d].stock)) == details[d].quantity)
    && (forall j :: 0 <= j < |b.items| ==>
          && b.items[j].id == firstId + j && b.items[j].order == order && b.items[j].status.PendingPayment?
          && Requested(details, b.items[j].stock) && b.items[j].stock < |stocks|
          && b.items[j].price == stocks[b.items[j].stock].price
          && stocks[b.items[j].stock].event == b.event
          && stocks[b.items[j].stock].session == b.session == b.items[j].session)
    && b.subtotal == Sum(b.items, Price())
  }

  /**
   * An accepted request is served exactly: distinct stocks on sale, for each its quantity of pending seats
   * at its price, no other seat, and the subtotal is what the seats cost.
   */
  lemma BuildIsExact(stocks: seq<Stock>, details: seq<Detail>, now: int, order: nat, firstId: nat)
    requires Build(stocks, details, now, order, firstId).Some?
    ensures Distinct(details) && AllOnSale(stocks, details, now)
    ensures ServedExactly(stocks, details, Build(stocks, details, now, order, firstId).value, order, firstId)
  {
    var lines := Fetched(stocks, details, now, |stocks|);
    var b := Build(stocks, details, now, order, firstId).value;
    CountCheck(stocks, details, now);
    UnrolledSeats(stocks, lines, details, order, firstId);
    UnrolledSums(stocks, lines, details, order, firstId, 0);
    forall d | 0 <= d < |details| ensures Sum(b.items, OfStock(details[d].stock)) == details[d].quantity {
      assert Requested(details, details[d].stock);
      UnrolledSums(stocks, lines, details, order, firstId, details[d].stock);
      QuantityOfDistinct(details, d);
    }
    forall j | 0 <= j < |b.items|
      ensures Requested(details, b.items[j].stock)
      ensures stocks[b.items[j].stock].event == b.event
      ensures stocks[b.items[j].stock].session == b.session == b.items[j].session
    {
      var l :| 0 <= l < |lines| && lines[l] == b.items[j].stock;
    }
  }

  /** What a request has to look like: distinct stocks on sale, of one session, each within its limits. */
  predicate Acceptable(stocks: seq<Stock>, details: seq<Detail>, now: int) {
    && |details| != 0 && Distinct(details) && details[0].stock < |stocks|
    && forall d :: 0 <= d < |details| ==>
         && details[d].stock < |stocks|
         && var stock, first, quantity := stocks[details[d].stock], stocks[details[0].stock], details[d].quantity;
            && stock.saleStart <= now <= stock.saleEnd
            && stock.event == first.event && stock.session == first.session
            && quantity <= stock.quantity && stock.minPerOrder <= quantity <= stock.maxPerOrder
  }

  lemma AcceptedIsAcceptable(stocks: seq<Stock>, details: seq<Detail>, now: int)
    requires Accepts(stocks, details, now) && Distinct(details) && AllOnSale(stocks, details, now)
    ensures Acceptable(stocks, details, now)
  {
    var lines := Fetched(stocks, details, now, |stocks|);
    var event, session := stocks[lines[0]].event, stocks[lines[0]].session;
    forall d | 0 <= d < |details|
      ensures stocks[details[d].stock].event == event && stocks[details[d].stock].session == session
      ensures LineOk(stocks[details[d].stock], details[d].quantity)
    {
      assert Requested(details, details[d].stock);
      var j :| 0 <= j < |lines| && lines[j] == details[d].stock;
      QuantityOfDistinct(details, d);
    }
  }

  lemma AcceptableIsAccepted(stocks: seq<Stock>, details: seq<Detail>, now: int)
    requires Acceptable(stocks, details, now)
    ensures Accepts(stocks, details, now)
  {
    var lines := Fetched(stocks, details, now, |stocks|);
    CountCheck(stocks, details, now);
    var first := stocks[details[0].stock];
    forall j | 0 <= j < |lines|
      ensures stocks[lines[j]].event == first.event && stocks[lines[j]].session == first.session
      ensures LineOk(stocks[lines[j]], QuantityOf(details, lines[j]))
    {
      var d :| 0 <= d < |details| && details[d].stock == lines[j];
      QuantityOfDistinct(details, d);
    }
  }

  /** Exactly those requests are accepted. */
  lemma AcceptsExactly(stocks: seq<Stock>, details: seq<Detail>, now: int, order: nat, firstId: nat)
    ensures Build(stocks, details, now, order, firstId).Some? <==> Acceptable(stocks, details, now)
  {
    if Accepts(stocks, details, now) {
      CountCheck(stocks, details, now);
      AcceptedIsAcceptable(stocks, details, now);
    }
    if Acceptable(stocks, details, now) {
      AcceptableIsAccepted(stocks, details, now);
    }
  }

  // ---- what a request costs ----

  /** The price of the requested seats, line by line. */
  function LinesPrice(stocks: seq<Stock>, details: seq<Detail>): int
    requires forall d :: 0 <= d < |details| ==> details[d].stock < |stocks|
  {
    if |details| == 0 then 0
    else
      var n := |details| - 1;
      LinesPrice(stocks, details[..n]) + stocks[details[n].stock].price * details[n].quantity
  }

  /** The same price, stock by stock. */
  function StocksPrice(stocks: seq<Stock>, details: seq<Detail>, n: nat): int
    requires n <= |stocks|
  {
    if n == 0 then 0
    else
      StocksPrice(stocks, details, n - 1)
      + if Requested(details, n - 1) then stocks[n - 1].price * QuantityOf(details, n - 1) else 0
  }

  lemma RequestedGrows(details: seq<Detail>, k: nat)
    requires |details| > 0
    ensures var n := |details| - 1; Requested(details, k) <==> Requested(details[..n], k) || details[n].stock == k
  {
    var n := |details| - 1;
    if Requested(details[..n], k) {
      var d :| 0 <= d < n && details[..n][d].stock == k;
      assert details[d].stock == k;
    }
  }

  lemma SubtotalAppend(stocks: seq<Stock>, front: seq<nat>, k: nat, lines: seq<nat>, details: seq<Detail>)
    requires lines == front + [k] && forall j :: 0 <= j < |lines| ==> lines[j] < |stocks|
    ensures k < |stocks| && forall j :: 0 <= j < |front| ==> front[j] < |stocks|
    ensures Subtotal(stocks, lines, details)
         == Subtotal(stocks, front, details) + stocks[k].price * QuantityOf(details, k)
  {
    assert lines[|front|] == k && lines[..|front|] == front;
    assert forall j :: 0 <= j < |front| ==> front[j] == lines[j];
  }

  lemma FetchedLine(stocks: seq<Stock>, details: seq<Detail>, now: int, n: nat)
    requires n < |stocks| && AllOnSale(stocks, details, now)
    ensures var lines := Fetched(stocks, details, now, n);
      Fetched(stocks, details, now, n + 1) == if Requested(details, n) then lines + [n] else lines
  {
  }

  lemma PriceOfOneMore(stocks: seq<Stock>, details: seq<Detail>, n: nat, front: seq<nat>, lines: seq<nat>)
    requires n < |stocks| && forall j :: 0 <= j < |front| ==> front[j] < |stocks|
    requires lines == if Requested(details, n) then front + [n] else front
    requires Subtotal(stocks, front, details) == StocksPrice(stocks, details, n)
    ensures forall j :: 0 <= j < |lines| ==> lines[j] < |stocks|
    ensures Subtotal(stocks, lines, details) == StocksPrice(stocks, details, n + 1)
  {
    if Requested(details, n) {
      SubtotalAppend(stocks, front, n, lines, details);
    }
  }

  lemma {:induction false} FetchedPrice(stocks: seq<Stock>, details: seq<Detail>, now: int, n: nat)
    requires n <= |stocks| && AllOnSale(stocks, details, now)
    ensures Subtotal(stocks, Fetched(stocks, details, now, n), details) == StocksPrice(stocks, details, n)
  {
    if n != 0 {
      FetchedPrice(stocks, details, now, n - 1);
      FetchedLine(stocks, details, now, n - 1);
      var front, lines := Fetched(stocks, details, now, n - 1), Fetched(stocks, details, now, n);
      PriceOfOneMore(stocks, details, n - 1, front, lines);
    }
  }

  /** A line for another stock adds its own price. */
  lemma {:induction false} OneMoreLine(stocks: seq<Stock>, details: seq<Detail>, n: nat)
    requires |details| > 0 && Distinct(details) && n <= |stocks|
    ensures var last := details[|details| - 1];
      StocksPrice(stocks, details, n) == StocksPrice(stocks, details[..|details| - 1], n)
                                         + if last.stock < n then stocks[last.stock].price * last.quantity else 0
  {
    if n != 0 {
      OneMoreLine(stocks, details, n - 1);
      RequestedGrows(details, n - 1);
    }
  }

  lemma {:induction false} NoLines(stocks: seq<Stock>, n: nat)
    requires n <= |stocks|
    ensures StocksPrice(stocks, [], n) == 0
  {
    if n != 0 {
      NoLines(stocks, n - 1);
    }
  }

  lemma {:induction false} LinesAreStocks(stocks: seq<Stock>, details: seq<Detail>)
    requires Distinct(details) && forall d :: 0 <= d < |details| ==> details[d].stock < |stocks|
    ensures StocksPrice(stocks, details, |stocks|) == LinesPrice(stocks, details)
  {
    if |details| == 0 {
      NoLines(stocks, |stocks|);
    } else {
      OneMoreLine(stocks, details, |stocks|);
      LinesAreStocks(stocks, details[..|details| - 1]);
    }
  }

  /** The subtotal of an accepted request is the sum of price times quantity over its lines, in whatever order. */
  lemma SubtotalIsLinesPrice(stocks: seq<Stock>, details: seq<Detail>, now: int, order: nat, firstId: nat)
    requires Build(stocks, details, now, order, firstId).Some?
    ensures AllOnSale(stocks, details, now)
    ensures Build(stocks, details, now, order, firstId).value.subtotal == LinesPrice(stocks, details)
  {
    CountCheck(stocks, details, now);
    FetchedPrice(stocks, details, now, |stocks|);
    LinesAreStocks(stocks, details);
  }

  lemma LineCovered(stocks: seq<Stock>, details: seq<Detail>, now: int, k: nat)
    requires Accepts(stocks, details, now) && k in Fetched(stocks, details, now, |stocks|)
    ensures k < |stocks| && QuantityOf(details, k) <= stocks[k].quantity
  {
    var lines := Fetched(stocks, details, now, |stocks|);
    var l :| 0 <= l < |lines| && lines[l] == k;
    assert LineOk(stocks[lines[l]], QuantityOf(details, lines[l]));
  }

  /** In the same transaction, a request that passed validation never fails to reserve. */
  lemma AcceptedCanReserve(stocks: seq<Stock>, details: seq<Detail>, now: int, order: nat, firstId: nat)
    requires Build(stocks, details, now, order, firstId).Some?
    ensures CanReserve(stocks, Build(stocks, details, now, order, firstId).value.items)
  {
    var lines := Fetched(stocks, details, now, |stocks|);
    UnrolledSeats(stocks, lines, details, order, firstId);
    var items := Unrolled(stocks, lines, details, order, firstId);
    forall k | 0 <= k < |stocks| ensures Sum(items, OfStock(k)) <= stocks[k].quantity || Sum(items, OfStock(k)) == 0 {
      UnrolledSums(stocks, lines, details, order, firstId, k);
      if k in lines {
        LineCovered(stocks, details, now, k);
      }
    }
  }
}
