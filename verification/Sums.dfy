/** Sums of weights over sequences of documents, and the queries that filter a collection. */
module Sums {

  function Sum<T>(xs: seq<T>, w: T -> int): int {
    if |xs| == 0 then 0 else Sum(xs[..|xs| - 1], w) + w(xs[|xs| - 1])
  }

  function Filter<T>(xs: seq<T>, p: T -> bool): seq<T> {
    if |xs| == 0 then []
    else
      var front := Filter(xs[..|xs| - 1], p);
      if p(xs[|xs| - 1]) then front + [xs[|xs| - 1]] else front
  }

  lemma {:induction false} SumAppend<T>(xs: seq<T>, x: T, w: T -> int)
    ensures Sum(xs + [x], w) == Sum(xs, w) + w(x)
  {
    assert (xs + [x])[..|xs|] == xs;
  }

  lemma {:induction false} SumConcat<T>(xs: seq<T>, ys: seq<T>, w: T -> int)
    ensures Sum(xs + ys, w) == Sum(xs, w) + Sum(ys, w)
  {
    if |ys| == 0 {
      assert xs + ys == xs;
    } else {
      var front, last := ys[..|ys| - 1], ys[|ys| - 1];
      assert xs + ys == (xs + front) + [last];
      SumAppend(xs + front, last, w);
      SumConcat(xs, front, w);
    }
  }

  lemma {:induction false} SumUpdate<T>(xs: seq<T>, i: nat, x: T, w: T -> int)
    requires i < |xs|
    ensures Sum(xs[i := x], w) == Sum(xs, w) - w(xs[i]) + w(x)
  {
    var n := |xs| - 1;
    if i == n {
      assert xs[i := x][..n] == xs[..n];
    } else {
      assert xs[i := x][..n] == xs[..n][i := x];
      SumUpdate(xs[..n], i, x, w);
    }
  }

  /** Two collections whose documents weigh the same, position by position, have the same sum. */
  lemma {:induction false} SumPointwise<T>(xs: seq<T>, ys: seq<T>, w: T -> int, v: T -> int)
    requires |xs| == |ys|
    requires forall i :: 0 <= i < |xs| ==> w(xs[i]) == v(ys[i])
    ensures Sum(xs, w) == Sum(ys, v)
  {
    if |xs| != 0 {
      var n := |xs| - 1;
      assert w(xs[n]) == v(ys[n]);
      SumPointwise(xs[..n], ys[..n], w, v);
    }
  }

  lemma {:induction false} SumZero<T>(xs: seq<T>, w: T -> int)
    requires forall i :: 0 <= i < |xs| ==> w(xs[i]) == 0
    ensures Sum(xs, w) == 0
  {
    if |xs| != 0 {
      SumZero(xs[..|xs| - 1], w);
    }
  }

  lemma {:induction false} SumSplit<T>(xs: seq<T>, ys: seq<T>, w: T -> int, v: T -> int)
    requires |xs| == |ys|
    requires forall i :: 0 <= i < |xs| ==> w(xs[i]) <= v(ys[i])
    ensures Sum(xs, w) <= Sum(ys, v)
    ensures Sum(xs, w) == Sum(ys, v) ==> forall i :: 0 <= i < |xs| ==> w(xs[i]) == v(ys[i])
  {
    if |xs| != 0 {
      var n := |xs| - 1;
      SumSplit(xs[..n], ys[..n], w, v);
      assert w(xs[n]) <= v(ys[n]);
      if Sum(xs, w) == Sum(ys, v) {
        forall i | 0 <= i < |xs| ensures w(xs[i]) == v(ys[i]) {
          if i < n {
            assert xs[..n][i] == xs[i] && ys[..n][i] == ys[i];
          }
        }
      }
    }
  }

  /** Adding a third weight: w(xs[i]) + u(zs[i]) == v(ys[i]) everywhere gives the same for the sums. */
  lemma {:induction false} SumAdd<T>(xs: seq<T>, ys: seq<T>, zs: seq<T>, w: T -> int, v: T -> int, u: T -> int)
    requires |xs| == |ys| == |zs|
    requires forall i :: 0 <= i < |xs| ==> w(xs[i]) + u(zs[i]) == v(ys[i])
    ensures Sum(xs, w) + Sum(zs, u) == Sum(ys, v)
  {
    if |xs| != 0 {
      var n := |xs| - 1;
      assert w(xs[n]) + u(zs[n]) == v(ys[n]);
      SumAdd(xs[..n], ys[..n], zs[..n], w, v, u);
    }
  }

  /** A positive sum has a document of positive weight. */
  lemma {:induction false} SumPositive<T>(xs: seq<T>, w: T -> int) returns (i: nat)
    requires Sum(xs, w) > 0
    ensures i < |xs| && w(xs[i]) > 0
  {
    i := |xs| - 1;
    if w(xs[i]) <= 0 {
      i := SumPositive(xs[..|xs| - 1], w);
    }
  }

  lemma {:induction false} SumNonNegative<T>(xs: seq<T>, w: T -> int)
    requires forall i :: 0 <= i < |xs| ==> w(xs[i]) >= 0
    ensures Sum(xs, w) >= 0
  {
    if |xs| != 0 {
      assert w(xs[|xs| - 1]) >= 0;
      SumNonNegative(xs[..|xs| - 1], w);
    }
  }

  /** With non-negative weights no single document outweighs the whole collection. */
  lemma {:induction false} SumAtLeast<T>(xs: seq<T>, w: T -> int, i: nat)
    requires i < |xs|
    requires forall j :: 0 <= j < |xs| ==> w(xs[j]) >= 0
    ensures w(xs[i]) <= Sum(xs, w)
  {
    var n := |xs| - 1;
    SumNonNegative(xs[..n], w);
    if i < n {
      assert xs[..n][i] == xs[i] && w(xs[n]) >= 0;
      SumAtLeast(xs[..n], w, i);
    }
  }

  /** Summing over a query result is summing over the collection with the query's condition. */
  lemma {:induction false} SumFilter<T>(xs: seq<T>, p: T -> bool, w: T -> int, v: T -> int)
    requires forall i :: 0 <= i < |xs| ==> v(xs[i]) == if p(xs[i]) then w(xs[i]) else 0
    ensures Sum(Filter(xs, p), w) == Sum(xs, v)
  {
    if |xs| != 0 {
      var n := |xs| - 1;
      SumFilter(xs[..n], p, w, v);
      assert v(xs[n]) == if p(xs[n]) then w(xs[n]) else 0;
      if p(xs[n]) {
        SumAppend(Filter(xs[..n], p), xs[n], w);
      }
    }
  }

  lemma {:induction false} FilterMembers<T>(xs: seq<T>, p: T -> bool)
    ensures forall x :: x in Filter(xs, p) <==> x in xs && p(x)
  {
    if |xs| != 0 {
      var n := |xs| - 1;
      FilterMembers(xs[..n], p);
      assert xs == xs[..n] + [xs[n]];
    }
  }

  lemma {:induction false} FilterAppend<T>(xs: seq<T>, x: T, p: T -> bool)
    ensures Filter(xs + [x], p) == if p(x) then Filter(xs, p) + [x] else Filter(xs, p)
  {
    assert (xs + [x])[..|xs|] == xs;
  }
}
