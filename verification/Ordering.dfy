/** Sorted lists without duplicates: `[...new Set(xs)].sort()`. */
module Ordering {
  predicate Ordered(xs: seq<int>) {
    forall i, j :: 0 <= i < j < |xs| ==> xs[i] < xs[j]
  }

  method Insert(xs: seq<int>, x: int) returns (ys: seq<int>)
    requires Ordered(xs) && x !in xs
    ensures Ordered(ys) && forall y :: y in ys <==> y in xs || y == x
  {
    hide Ordered;
    var i := 0;
    while i < |xs| && xs[i] < x
      invariant 0 <= i <= |xs| && forall j :: 0 <= j < i ==> xs[j] < x
    {
      i := i + 1;
    }
    ys := xs[..i] + [x] + xs[i..];
    InsertedOrder(xs, i, x);
    assert xs == xs[..i] + xs[i..];
  }

  lemma {:induction false} InsertedOrder(xs: seq<int>, i: nat, x: int)
    requires Ordered(xs) && i <= |xs|
    requires (forall j :: 0 <= j < i ==> xs[j] < x) && (i < |xs| ==> x < xs[i])
    ensures Ordered(xs[..i] + [x] + xs[i..])
  {
    var ys := xs[..i] + [x] + xs[i..];
    assert forall n :: 0 <= n < |ys| ==> ys[n] == if n < i then xs[n] else if n == i then x else xs[n - 1];
  }
}
