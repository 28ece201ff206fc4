/** Sums over finite maps: `Sum` adds integers (cash, quantities, claims), `RSum` reals (values and margins). */
module Sums {

  /** The entry of a Python `Counter` or `dict.get(k, 0)`. */
  function Get<K>(m: map<K, int>, k: K): int {
    if k in m then m[k] else 0
  }

  ghost function Sum<K>(m: map<K, int>): int
    decreases |m|
  {
    if m == map[] then 0
    else
      var k :| k in m;
      m[k] + Sum(m - {k})
  }

  lemma {:induction false} SumRemove<K>(m: map<K, int>, k: K)
    requires k in m
    ensures Sum(m) == m[k] + Sum(m - {k})
    decreases |m|
  {
    var j :| j in m && Sum(m) == m[j] + Sum(m - {j});
    if j != k {
      SumRemove(m - {j}, k);
      SumRemove(m - {k}, j);
      assert (m - {j}) - {k} == (m - {k}) - {j};
    }
  }

  lemma {:induction false} SumPut<K>(m: map<K, int>, k: K, v: int)
    ensures Sum(m[k := v]) == Sum(m) - Get(m, k) + v
  {
    SumRemove(m[k := v], k);
    assert m[k := v] - {k} == m - {k};
    if k in m {
      SumRemove(m, k);
    } else {
      assert m - {k} == m;
    }
  }

  lemma {:induction false} SumPutTwo<K>(m: map<K, int>, k: K, v: int, j: K, w: int)
    requires k in m && j in m && k != j
    ensures Sum(m[k := v][j := w]) == Sum(m) - m[k] - m[j] + v + w
  {
    SumPut(m, k, v);
    SumPut(m[k := v], j, w);
  }

  lemma {:induction false} SumMonotone<K>(a: map<K, int>, b: map<K, int>)
    requires a.Keys == b.Keys
    requires forall k :: k in a ==> a[k] <= b[k]
    ensures Sum(a) <= Sum(b)
    decreases |a|
  {
    if k :| k in a {
      SumRemove(a, k);
      SumRemove(b, k);
      SumMonotone(a - {k}, b - {k});
    } else {
      assert a == map[] && b == map[];
    }
  }

  lemma {:induction false} SumNonNegative<K>(m: map<K, int>)
    requires forall k :: k in m ==> 0 <= m[k]
    ensures 0 <= Sum(m)
    ensures forall k :: k in m ==> m[k] <= Sum(m)
  {
    SumZero(map k | k in m :: 0);
    SumMonotone(map k | k in m :: 0, m);
    forall k | k in m ensures m[k] <= Sum(m) {
      SumRemove(m, k);
      SumZero(map j | j in m - {k} :: 0);
      SumMonotone(map j | j in m - {k} :: 0, m - {k});
    }
  }

  lemma {:induction false} SumZero<K>(m: map<K, int>)
    requires forall k :: k in m ==> m[k] == 0
    ensures Sum(m) == 0
    decreases |m|
  {
    if k :| k in m {
      SumRemove(m, k);
      SumZero(m - {k});
    }
  }

  lemma {:induction false} SumAdd<K>(a: map<K, int>, b: map<K, int>, c: map<K, int>)
    requires a.Keys == b.Keys == c.Keys
    requires forall k :: k in a ==> c[k] == a[k] + b[k]
    ensures Sum(c) == Sum(a) + Sum(b)
    decreases |a|
  {
    if k :| k in a {
      SumRemove(a, k);
      SumRemove(b, k);
      SumRemove(c, k);
      SumAdd(a - {k}, b - {k}, c - {k});
    } else {
      assert a == map[] && b == map[] && c == map[];
    }
  }

  lemma {:induction false} Distribute(a: int, b: int, c: int)
    ensures (a + b) * c == a * c + b * c
  {
  }

  ghost function RSum<K>(m: map<K, real>): real
    decreases |m|
  {
    if m == map[] then 0.0
    else
      var k :| k in m;
      m[k] + RSum(m - {k})
  }

  lemma {:induction false} RSumRemove<K>(m: map<K, real>, k: K)
    requires k in m
    ensures RSum(m) == m[k] + RSum(m - {k})
    decreases |m|
  {
    var j :| j in m && RSum(m) == m[j] + RSum(m - {j});
    if j != k {
      RSumRemove(m - {j}, k);
      RSumRemove(m - {k}, j);
      assert (m - {j}) - {k} == (m - {k}) - {j};
    }
  }

  function Plus(a: real, b: real): real {
    a + b
  }

  /** A relation between reals that holds of 0, 0 and is kept by adding both sides. */
  ghost predicate Additive(rel: (real, real) -> bool) {
    && rel(0.0, 0.0)
    && forall a, x, b, y {:trigger Plus(a, b), Plus(x, y)} :: rel(a, x) && rel(b, y) ==> rel(Plus(a, b), Plus(x, y))
  }

  /** Termwise related maps have related sums. */
  lemma {:induction false} RSumRelated<K>(rel: (real, real) -> bool, m: map<K, real>, n: map<K, real>)
    requires Additive(rel)
    requires m.Keys == n.Keys
    requires forall k :: k in m ==> rel(m[k], n[k])
    ensures rel(RSum(m), RSum(n))
    decreases |m|
  {
    if k :| k in m {
      RSumRelated(rel, m - {k}, n - {k});
      RSumRemove(m, k);
      RSumRemove(n, k);
      assert rel(Plus(m[k], RSum(m - {k})), Plus(n[k], RSum(n - {k})));
    } else {
      assert m == map[] && n == map[];
    }
  }

  lemma {:induction false} RSumMonotone<K>(a: map<K, real>, b: map<K, real>)
    requires a.Keys == b.Keys
    requires forall k :: k in a ==> a[k] <= b[k]
    ensures RSum(a) <= RSum(b)
  {
    RSumRelated((x, y) => x <= y, a, b);
  }

  lemma {:induction false} RSumNonNegative<K>(m: map<K, real>)
    requires forall k :: k in m ==> 0.0 <= m[k]
    ensures 0.0 <= RSum(m)
  {
    RSumRelated((x, y) => 0.0 <= x, m, m);
  }

  ghost function Times(c: real): (real, real) -> bool {
    (x: real, y: real) => y == c * x
  }

  lemma {:induction false} TimesIsAdditive(c: real)
    ensures Additive(Times(c))
  {
    forall a, x, b, y | Times(c)(a, x) && Times(c)(b, y) ensures Times(c)(Plus(a, b), Plus(x, y)) {
      calc {
        Plus(x, y);
        c * a + c * b;
        c * (a + b);
        c * Plus(a, b);
      }
    }
  }

  lemma {:induction false} RSumScale<K>(m: map<K, real>, c: real, n: map<K, real>)
    requires m.Keys == n.Keys
    requires forall k :: k in m ==> Times(c)(m[k], n[k])
    ensures Times(c)(RSum(m), RSum(n))
  {
    TimesIsAdditive(c);
    RSumRelated(Times(c), m, n);
  }

  function GetR<K>(m: map<K, real>, k: K): real {
    if k in m then m[k] else 0.0
  }

  /** Pointwise addition, where a key missing from a part counts zero there. */
  lemma {:induction false} RSumParts<K>(m: map<K, real>, a: map<K, real>, b: map<K, real>)
    requires a.Keys <= m.Keys && b.Keys <= m.Keys
    requires forall k :: k in m ==> m[k] == GetR(a, k) + GetR(b, k)
    ensures RSum(m) == RSum(a) + RSum(b)
    decreases |m|
  {
    if k :| k in m {
      RSumRemove(m, k);
      RSumDrop(a, k);
      RSumDrop(b, k);
      RSumParts(m - {k}, a - {k}, b - {k});
    } else {
      assert a == map[] && b == map[] && m == map[];
    }
  }

  lemma {:induction false} RSumDrop<K>(m: map<K, real>, k: K)
    ensures RSum(m) == GetR(m, k) + RSum(m - {k})
  {
    if k in m {
      RSumRemove(m, k);
    } else {
      assert m - {k} == m;
    }
  }
}
