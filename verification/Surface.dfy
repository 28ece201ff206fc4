/**
 * Total variance read off a surface grid (reference/pm_model.py, `iv_from_surface`) and the no-arbitrage checks a
 * publisher makes before signing (publisher/src/validate.ts, publisher/src/svi.ts): linear in log-moneyness between
 * nodes, flat beyond them, linear in time between tenors.
 */
module Surface {
  import opened Basics
  import opened Ordering
  import Margin

  predicate Increasing(xs: seq<real>) {
    forall i, j :: 0 <= i < j < |xs| ==> xs[i] < xs[j]
  }

  // ---------------------------------------------------------------------------------------------------------
  // Interpolation
  // ---------------------------------------------------------------------------------------------------------

  function Weight(x: real, lo: real, hi: real): (r: real)
    requires lo < hi
    ensures r * (hi - lo) == x - lo
  {
    (x - lo) / (hi - lo)
  }

  function Mix(a: real, b: real, x: real): real {
    a + (b - a) * x
  }

  lemma {:induction false} WeightBetween(x: real, lo: real, hi: real)
    requires lo < hi && lo <= x <= hi
    ensures 0.0 <= Weight(x, lo, hi) <= 1.0
    ensures x == lo ==> Weight(x, lo, hi) == 0.0
    ensures x == hi ==> Weight(x, lo, hi) == 1.0
  {
    hide Weight;
    var r, h := Weight(x, lo, hi), hi - lo;
    CancelFactor(r, h);
    CancelFactor(1.0 - r, h);
    if x == lo {
      CancelFactor(-r, h);
    }
    if x == hi {
      CancelFactor(r - 1.0, h);
    }
  }

  lemma {:induction false} WeightMonotone(x: real, y: real, lo: real, hi: real)
    requires lo < hi && x <= y
    ensures Weight(x, lo, hi) <= Weight(y, lo, hi)
  {
  }

  lemma {:induction false} MixMonotone(a: real, b: real, c: real, d: real, x: real)
    requires a <= c && b <= d && 0.0 <= x <= 1.0
    ensures Mix(a, b, x) <= Mix(c, d, x)
  {
    ProductNonNegative(c - a, 1.0 - x);
    ProductNonNegative(d - b, x);
    assert Mix(c, d, x) - Mix(a, b, x) == (c - a) * (1.0 - x) + (d - b) * x;
  }

  lemma {:induction false} MixOfSame(a: real, x: real)
    ensures Mix(a, a, x) == a
  {
  }

  lemma {:induction false} MixBetween(a: real, b: real, x: real, lo: real, hi: real)
    requires lo <= a <= hi && lo <= b <= hi && 0.0 <= x <= 1.0
    ensures lo <= Mix(a, b, x) <= hi
  {
    MixMonotone(lo, lo, a, b, x);
    MixMonotone(a, b, hi, hi, x);
    MixOfSame(lo, x);
    MixOfSame(hi, x);
  }

  lemma {:induction false} MixGrows(a: real, b: real, x: real, y: real)
    requires a <= b && x <= y
    ensures Mix(a, b, x) <= Mix(a, b, y)
  {
    ProductNonNegative(b - a, y - x);
    assert Mix(a, b, y) - Mix(a, b, x) == (b - a) * (y - x);
  }

  /** The first segment from `j` on that holds `k`. */
  function Segment(nodes: seq<real>, k: real, j: nat): (s: nat)
    requires Increasing(nodes) && j + 1 < |nodes| && nodes[j] <= k < nodes[|nodes| - 1]
    ensures j <= s && s + 1 < |nodes| && nodes[s] <= k <= nodes[s + 1]
    ensures j < s ==> nodes[s] < k
    decreases |nodes| - j
  {
    if k <= nodes[j + 1] then j else Segment(nodes, k, j + 1)
  }

  /** Total variance on one tenor: linear between nodes, flat beyond the first and the last. */
  function AtTenor(row: seq<real>, nodes: seq<real>, k: real): real
    requires |row| == |nodes| && nodes != [] && Increasing(nodes)
  {
    var last := |nodes| - 1;
    if k <= nodes[0] then row[0]
    else if nodes[last] <= k then row[last]
    else
      var j := Segment(nodes, k, 0);
      Mix(row[j], row[j + 1], Weight(k, nodes[j], nodes[j + 1]))
  }

  method ReadTenor(row: seq<real>, nodes: seq<real>, k: real) returns (v: real)
    requires |row| == |nodes| && nodes != [] && Increasing(nodes)
    ensures v == AtTenor(row, nodes, k)
  {
    var last := |nodes| - 1;
    if k <= nodes[0] {
      return row[0];
    }
    if nodes[last] <= k {
      return row[last];
    }
    var j := 0;
    while !(nodes[j] <= k <= nodes[j + 1])
      invariant j + 1 < |nodes| && nodes[j] <= k && Segment(nodes, k, 0) == Segment(nodes, k, j)
      decreases |nodes| - j
    {
      j := j + 1;
    }
    v := row[j] + (row[j + 1] - row[j]) * Weight(k, nodes[j], nodes[j + 1]);
  }

  /** max(i for which tenors[i] <= tau), looking below `n`. */
  function LastAtMost(tenors: seq<int>, tau: int, n: nat): (i: nat)
    requires 0 < n <= |tenors| && tenors[0] <= tau
    ensures i < n && tenors[i] <= tau
    ensures forall j :: i < j < n ==> tau < tenors[j]
  {
    if tenors[n - 1] <= tau then n - 1 else LastAtMost(tenors, tau, n - 1)
  }

  /** min(i for which tenors[i] >= tau), looking from `n` on. */
  function FirstAtLeast(tenors: seq<int>, tau: int, n: nat): (i: nat)
    requires n < |tenors| && tau <= tenors[|tenors| - 1]
    ensures n <= i < |tenors| && tau <= tenors[i]
    ensures forall j :: n <= j < i ==> tenors[j] < tau
    decreases |tenors| - n
  {
    if tau <= tenors[n] then n else FirstAtLeast(tenors, tau, n + 1)
  }

  function Years(t: int, start: int): real {
    ((t - start) as real) / Margin.YEAR
  }

  predicate IsGrid(tenors: seq<int>, nodes: seq<real>, w: seq<seq<real>>) {
    && tenors != [] && nodes != [] && Ordered(tenors) && Increasing(nodes)
    && |w| == |tenors| && forall t :: 0 <= t < |w| ==> |w[t]| == |nodes|
  }

  lemma {:induction false} YearsIncrease(s: int, t: int, start: int)
    requires s <= t
    ensures Years(s, start) <= Years(t, start)
    ensures s < t ==> Years(s, start) < Years(t, start)
  {
  }

  function InTime(tau: int, start: int, ta: int, tb: int, wa: real, wb: real): real
    requires ta < tb
  {
    YearsIncrease(ta, tb, start);
    Mix(wa, wb, Weight(Years(tau, start), Years(ta, start), Years(tb, start)))
  }

  /** Total variance at an expiry; nothing outside the tenor range. `start` is the time of the report. */
  function TotalVariance(tau: int, start: int, tenors: seq<int>, nodes: seq<real>, w: seq<seq<real>>,
      k: real): Option<real>
    requires IsGrid(tenors, nodes, w)
  {
    if tau < tenors[0] || tenors[|tenors| - 1] < tau then None
    else
      var a, b := LastAtMost(tenors, tau, |tenors|), FirstAtLeast(tenors, tau, 0);
      var wa, wb := AtTenor(w[a], nodes, k), AtTenor(w[b], nodes, k);
      if a == b then Some(wa)
      else
        BracketOrder(tenors, tau);
        Some(InTime(tau, start, tenors[a], tenors[b], wa, wb))
  }

  /** The two tenors are one and the same on a tenor, and neighbours between two. */
  lemma {:induction false} BracketOrder(tenors: seq<int>, tau: int)
    requires tenors != [] && Ordered(tenors) && tenors[0] <= tau <= tenors[|tenors| - 1]
    ensures var a, b := LastAtMost(tenors, tau, |tenors|), FirstAtLeast(tenors, tau, 0);
      if tenors[a] == tau then a == b else b == a + 1 && tenors[a] < tau < tenors[b]
  {
    var a, b := LastAtMost(tenors, tau, |tenors|), FirstAtLeast(tenors, tau, 0);
    assert a + 1 < |tenors| ==> tau < tenors[a + 1];
  }

  // ---------------------------------------------------------------------------------------------------------
  // Bounds, nodes, calendar
  // ---------------------------------------------------------------------------------------------------------

  lemma {:induction false} AtTenorBetween(row: seq<real>, nodes: seq<real>, k: real, lo: real, hi: real)
    requires |row| == |nodes| && nodes != [] && Increasing(nodes)
    requires forall j :: 0 <= j < |row| ==> lo <= row[j] <= hi
    ensures lo <= AtTenor(row, nodes, k) <= hi
  {
    hide Mix;
    if nodes[0] < k < nodes[|nodes| - 1] {
      var j := Segment(nodes, k, 0);
      WeightBetween(k, nodes[j], nodes[j + 1]);
      MixBetween(row[j], row[j + 1], Weight(k, nodes[j], nodes[j + 1]), lo, hi);
    }
  }

  lemma {:induction false} InTimeBetween(tau: int, start: int, ta: int, tb: int, wa: real, wb: real, lo: real, hi: real)
    requires ta <= tau <= tb && ta < tb && lo <= wa <= hi && lo <= wb <= hi
    ensures lo <= InTime(tau, start, ta, tb, wa, wb) <= hi
  {
    YearsIncrease(ta, tau, start);
    YearsIncrease(tau, tb, start);
    YearsIncrease(ta, tb, start);
    WeightBetween(Years(tau, start), Years(ta, start), Years(tb, start));
    MixBetween(wa, wb, Weight(Years(tau, start), Years(ta, start), Years(tb, start)), lo, hi);
  }

  /** Interpolation never leaves the range of the grid. */
  lemma {:induction false} VarianceWithinGrid(tau: int, start: int, tenors: seq<int>, nodes: seq<real>,
      w: seq<seq<real>>, k: real, lo: real, hi: real)
    requires IsGrid(tenors, nodes, w)
    requires forall t, j :: 0 <= t < |w| && 0 <= j < |w[t]| ==> lo <= w[t][j] <= hi
    ensures var v := TotalVariance(tau, start, tenors, nodes, w, k);
      && (v.Some? <==> tenors[0] <= tau <= tenors[|tenors| - 1])
      && (v.Some? ==> lo <= v.value <= hi)
  {
    hide AtTenor, InTime;
    if tenors[0] <= tau <= tenors[|tenors| - 1] {
      var a, b := LastAtMost(tenors, tau, |tenors|), FirstAtLeast(tenors, tau, 0);
      BracketOrder(tenors, tau);
      AtTenorBetween(w[a], nodes, k, lo, hi);
      AtTenorBetween(w[b], nodes, k, lo, hi);
      if a != b {
        InTimeBetween(tau, start, tenors[a], tenors[b], AtTenor(w[a], nodes, k), AtTenor(w[b], nodes, k), lo, hi);
      }
    }
  }

  lemma {:induction false} AtTenorNode(row: seq<real>, nodes: seq<real>, j: nat)
    requires |row| == |nodes| && Increasing(nodes) && j < |nodes|
    ensures AtTenor(row, nodes, nodes[j]) == row[j]
  {
    var k := nodes[j];
    if nodes[0] < k < nodes[|nodes| - 1] {
      var s := Segment(nodes, k, 0);
      assert s + 1 == j || s == j;
      WeightBetween(k, nodes[s], nodes[s + 1]);
    }
  }

  /** At a node of a tenor the surface is the grid. */
  lemma {:induction false} ExactAtNodes(start: int, tenors: seq<int>, nodes: seq<real>, w: seq<seq<real>>, t: nat,
      j: nat)
    requires IsGrid(tenors, nodes, w) && t < |tenors| && j < |nodes|
    ensures TotalVariance(tenors[t], start, tenors, nodes, w, nodes[j]) == Some(w[t][j])
  {
    hide AtTenor, InTime;
    var tau := tenors[t];
    BracketOrder(tenors, tau);
    AtTenorNode(w[t], nodes, j);
    assert LastAtMost(tenors, tau, |tenors|) == t;
  }

  /** `v` is on the line through (0, a) and (h, b), at `x`. */
  predicate OnChord(v: real, a: real, b: real, h: real, x: real) {
    (v - a) * h == (b - a) * x
  }

  lemma {:induction false} ChordEnds(a: real, b: real, h: real)
    ensures OnChord(a, a, b, h, 0.0) && OnChord(b, a, b, h, h)
  {
  }

  lemma {:induction false} MixOnChord(a: real, b: real, r: real, h: real, x: real)
    requires r * h == x
    ensures OnChord(Mix(a, b, r), a, b, h, x)
  {
    assert (Mix(a, b, r) - a) * h == (b - a) * (r * h);
  }

  /** On a tenor the surface is the chord between two neighbouring nodes, and flat outside the first and the last. */
  lemma {:induction false} OnTheChord(row: seq<real>, nodes: seq<real>, k: real, j: nat)
    requires |row| == |nodes| && nodes != [] && Increasing(nodes)
    ensures j + 1 < |nodes| && nodes[j] <= k <= nodes[j + 1] ==>
      OnChord(AtTenor(row, nodes, k), row[j], row[j + 1], nodes[j + 1] - nodes[j], k - nodes[j])
    ensures k <= nodes[0] ==> AtTenor(row, nodes, k) == row[0]
    ensures nodes[|nodes| - 1] <= k ==> AtTenor(row, nodes, k) == row[|nodes| - 1]
  {
    hide OnChord, Mix, Weight;
    if j + 1 < |nodes| && nodes[j] <= k <= nodes[j + 1] {
      var h := nodes[j + 1] - nodes[j];
      ChordEnds(row[j], row[j + 1], h);
      if k == nodes[j] {
        AtTenorNode(row, nodes, j);
      } else if k == nodes[j + 1] {
        AtTenorNode(row, nodes, j + 1);
      } else {
        assert Segment(nodes, k, 0) == j;
        MixOnChord(row[j], row[j + 1], Weight(k, nodes[j], nodes[j + 1]), h, k - nodes[j]);
      }
    }
  }

  /** Between two neighbouring tenors total variance is the chord in time, at every log-moneyness. */
  lemma {:induction false} OnTheTimeChord(tau: int, start: int, tenors: seq<int>, nodes: seq<real>, w: seq<seq<real>>,
      k: real, t: nat)
    requires IsGrid(tenors, nodes, w) && t + 1 < |tenors| && tenors[t] <= tau <= tenors[t + 1]
    ensures var v := TotalVariance(tau, start, tenors, nodes, w, k);
      && v.Some?
      && OnChord(v.value, AtTenor(w[t], nodes, k), AtTenor(w[t + 1], nodes, k), (tenors[t + 1] - tenors[t]) as real,
           (tau - tenors[t]) as real)
  {
    hide AtTenor, OnChord, InTime;
    var ta, tb := tenors[t], tenors[t + 1];
    var wa, wb := AtTenor(w[t], nodes, k), AtTenor(w[t + 1], nodes, k);
    TenorsAround(tenors, tau, t);
    ChordEnds(wa, wb, (tb - ta) as real);
    if ta < tau < tb {
      InTimeOnChord(tau, start, ta, tb, wa, wb);
    }
  }

  lemma {:induction false} InTimeOnChord(tau: int, start: int, ta: int, tb: int, wa: real, wb: real)
    requires ta < tb
    ensures OnChord(InTime(tau, start, ta, tb, wa, wb), wa, wb, (tb - ta) as real, (tau - ta) as real)
  {
    hide OnChord, Mix, Weight, Years;
    YearsIncrease(ta, tb, start);
    var r := Weight(Years(tau, start), Years(ta, start), Years(tb, start));
    YearsApart(ta, tb, start);
    YearsApart(ta, tau, start);
    SameRatio(r, (tb - ta) as real, (tau - ta) as real);
    MixOnChord(wa, wb, r, (tb - ta) as real, (tau - ta) as real);
  }

  lemma {:induction false} SameRatio(r: real, h: real, x: real)
    requires r * (h / Margin.YEAR) == x / Margin.YEAR
    ensures r * h == x
  {
    assert r * h == r * (h / Margin.YEAR) * 31_536_000.0;
    assert x == x / Margin.YEAR * 31_536_000.0;
  }

  lemma {:induction false} TenorsAround(tenors: seq<int>, tau: int, t: nat)
    requires Ordered(tenors) && t + 1 < |tenors| && tenors[t] <= tau <= tenors[t + 1]
    ensures tenors[0] <= tau <= tenors[|tenors| - 1]
    ensures tau < tenors[t + 1] ==> LastAtMost(tenors, tau, |tenors|) == t
    ensures tau == tenors[t + 1] ==> LastAtMost(tenors, tau, |tenors|) == t + 1
    ensures tenors[t] < tau ==> FirstAtLeast(tenors, tau, 0) == t + 1
    ensures tenors[t] == tau ==> FirstAtLeast(tenors, tau, 0) == t
  {
  }

  lemma {:induction false} YearsApart(s: int, t: int, start: int)
    ensures Years(t, start) - Years(s, start) == ((t - s) as real) / Margin.YEAR
  {
  }

  predicate RisesAt(w: seq<seq<real>>, t: int)
    requires 0 < t < |w|
  {
    forall j :: 0 <= j < |w[t]| && j < |w[t - 1]| ==> w[t - 1][j] <= w[t][j]
  }

  /** No total variance falls from one tenor to the next, node by node. */
  predicate CalendarOk(w: seq<seq<real>>) {
    forall t {:trigger RisesAt(w, t)} :: 0 < t < |w| ==> RisesAt(w, t)
  }

  lemma {:induction false} RowsRise(tenors: seq<int>, nodes: seq<real>, w: seq<seq<real>>, s: nat, t: nat, k: real)
    requires IsGrid(tenors, nodes, w) && CalendarOk(w) && s <= t < |w|
    ensures AtTenor(w[s], nodes, k) <= AtTenor(w[t], nodes, k)
    decreases t - s
  {
    hide Mix, Weight;
    if s < t {
      RowsRise(tenors, nodes, w, s, t - 1, k);
      assert RisesAt(w, t);
      if nodes[0] < k < nodes[|nodes| - 1] {
        var j := Segment(nodes, k, 0);
        WeightBetween(k, nodes[j], nodes[j + 1]);
        MixMonotone(w[t - 1][j], w[t - 1][j + 1], w[t][j], w[t][j + 1], Weight(k, nodes[j], nodes[j + 1]));
      }
    }
  }

  lemma {:induction false} InTimeGrows(tau: int, tau': int, start: int, ta: int, tb: int, wa: real, wb: real)
    requires ta < tb && tau <= tau' && wa <= wb
    ensures InTime(tau, start, ta, tb, wa, wb) <= InTime(tau', start, ta, tb, wa, wb)
  {
    YearsIncrease(tau, tau', start);
    YearsIncrease(ta, tb, start);
    WeightMonotone(Years(tau, start), Years(tau', start), Years(ta, start), Years(tb, start));
    MixGrows(wa, wb, Weight(Years(tau, start), Years(ta, start), Years(tb, start)),
      Weight(Years(tau', start), Years(ta, start), Years(tb, start)));
  }

  /** The variance at an expiry lies between those of the tenors around it. */
  lemma {:induction false} BetweenTenors(tau: int, start: int, tenors: seq<int>, nodes: seq<real>, w: seq<seq<real>>,
      k: real)
    requires IsGrid(tenors, nodes, w) && CalendarOk(w) && tenors[0] <= tau <= tenors[|tenors| - 1]
    ensures var a, b := LastAtMost(tenors, tau, |tenors|), FirstAtLeast(tenors, tau, 0);
      AtTenor(w[a], nodes, k) <= TotalVariance(tau, start, tenors, nodes, w, k).value <= AtTenor(w[b], nodes, k)
  {
    hide AtTenor, InTime;
    var a, b := LastAtMost(tenors, tau, |tenors|), FirstAtLeast(tenors, tau, 0);
    BracketOrder(tenors, tau);
    RowsRise(tenors, nodes, w, a, b, k);
    if a != b {
      var wa, wb := AtTenor(w[a], nodes, k), AtTenor(w[b], nodes, k);
      InTimeBetween(tau, start, tenors[a], tenors[b], wa, wb, wa, wb);
    }
  }

  /** Without a calendar violation total variance never falls with the expiry, at any strike. */
  lemma {:induction false} VarianceRisesInTime(tau: int, tau': int, start: int, tenors: seq<int>, nodes: seq<real>,
      w: seq<seq<real>>, k: real)
    requires IsGrid(tenors, nodes, w) && CalendarOk(w)
    requires tenors[0] <= tau <= tau' <= tenors[|tenors| - 1]
    ensures TotalVariance(tau, start, tenors, nodes, w, k).value
      <= TotalVariance(tau', start, tenors, nodes, w, k).value
  {
    hide AtTenor, InTime;
    var a, b := LastAtMost(tenors, tau, |tenors|), FirstAtLeast(tenors, tau, 0);
    var a', b' := LastAtMost(tenors, tau', |tenors|), FirstAtLeast(tenors, tau', 0);
    BracketOrder(tenors, tau);
    BracketOrder(tenors, tau');
    BetweenTenors(tau, start, tenors, nodes, w, k);
    BetweenTenors(tau', start, tenors, nodes, w, k);
    if b <= a' {
      RowsRise(tenors, nodes, w, b, a', k);
    } else {
      SameBracket(tenors, tau, tau');
      RowsRise(tenors, nodes, w, a, b, k);
      InTimeGrows(tau, tau', start, tenors[a], tenors[b], AtTenor(w[a], nodes, k), AtTenor(w[b], nodes, k));
    }
  }

  lemma {:induction false} SameBracket(tenors: seq<int>, tau: int, tau': int)
    requires tenors != [] && Ordered(tenors) && tenors[0] <= tau <= tau' <= tenors[|tenors| - 1]
    requires LastAtMost(tenors, tau', |tenors|) < FirstAtLeast(tenors, tau, 0)
    ensures LastAtMost(tenors, tau, |tenors|) == LastAtMost(tenors, tau', |tenors|)
    ensures FirstAtLeast(tenors, tau, 0) == FirstAtLeast(tenors, tau', 0)
    ensures LastAtMost(tenors, tau, |tenors|) + 1 == FirstAtLeast(tenors, tau, 0)
  {
    BracketOrder(tenors, tau);
    BracketOrder(tenors, tau');
    var a, a' := LastAtMost(tenors, tau, |tenors|), LastAtMost(tenors, tau', |tenors|);
    assert a <= a';
  }

  // ---------------------------------------------------------------------------------------------------------
  // Butterfly: convexity in log-moneyness
  // ---------------------------------------------------------------------------------------------------------

  function Slope(nodes: seq<real>, row: seq<real>, j: nat): (r: real)
    requires |row| == |nodes| && Increasing(nodes) && j + 1 < |nodes|
    ensures r * (nodes[j + 1] - nodes[j]) == row[j + 1] - row[j]
  {
    (row[j + 1] - row[j]) / (nodes[j + 1] - nodes[j])
  }

  predicate NoKink(nodes: seq<real>, row: seq<real>, tolerance: real)
    requires |row| == |nodes| && Increasing(nodes)
  {
    forall j :: 0 < j && j + 1 < |nodes| ==> Slope(nodes, row, j - 1) - tolerance <= Slope(nodes, row, j)
  }

  predicate Kink(nodes: seq<real>, row: seq<real>, j: int, tolerance: real)
    requires |row| == |nodes| && Increasing(nodes)
  {
    0 < j && j + 1 < |nodes| && Slope(nodes, row, j) < Slope(nodes, row, j - 1) - tolerance
  }

  /** The kink part of the publisher's butterfly check: the interior nodes where the slope falls. */
  method KinkViolations(nodes: seq<real>, row: seq<real>, tolerance: real) returns (out: seq<int>)
    requires |row| == |nodes| && Increasing(nodes)
    ensures forall j :: j in out <==> Kink(nodes, row, j, tolerance)
    ensures out == [] <==> NoKink(nodes, row, tolerance)
  {
    hide Slope, Increasing;
    out := [];
    var j := 1;
    while j < |nodes| - 1
      invariant 1 <= j && (j <= |nodes| - 1 || j == 1)
      invariant forall i :: i in out <==> i < j && Kink(nodes, row, i, tolerance)
    {
      if Slope(nodes, row, j) < Slope(nodes, row, j - 1) - tolerance {
        out := out + [j];
      }
      j := j + 1;
    }
    if out != [] {
      assert out[0] in out && Kink(nodes, row, out[0], tolerance);
    } else {
      forall i | 0 < i && i + 1 < |nodes| ensures Slope(nodes, row, i - 1) - tolerance <= Slope(nodes, row, i) {
        assert !Kink(nodes, row, i, tolerance);
      }
    }
  }

  /** The line through a segment. */
  function Line(nodes: seq<real>, row: seq<real>, j: nat, k: real): real
    requires |row| == |nodes| && Increasing(nodes) && j + 1 < |nodes|
  {
    row[j] + Slope(nodes, row, j) * (k - nodes[j])
  }

  /** Both neighbouring lines meet in their node; their difference there is that of the slopes. */
  lemma {:induction false} LinesMeet(nodes: seq<real>, row: seq<real>, j: nat, k: real)
    requires |row| == |nodes| && Increasing(nodes) && 0 < j && j + 1 < |nodes|
    ensures Line(nodes, row, j, k) - Line(nodes, row, j - 1, k)
         == (Slope(nodes, row, j) - Slope(nodes, row, j - 1)) * (k - nodes[j])
  {
    var s0, s1, h := Slope(nodes, row, j - 1), Slope(nodes, row, j), nodes[j] - nodes[j - 1];
    assert row[j] - row[j - 1] == s0 * h;
    assert s0 * (k - nodes[j - 1]) == s0 * (k - nodes[j]) + s0 * h;
  }

  lemma {:induction false} FallLeft(slope: real, x: real, y: real)
    requires 0.0 <= slope && x <= y
    ensures slope * (x - y) <= 0.0
  {
    ProductNonNegative(slope, y - x);
    assert slope * (x - y) == -(slope * (y - x));
  }

  lemma {:induction false} LinesCross(nodes: seq<real>, row: seq<real>, j: nat, k: real)
    requires |row| == |nodes| && Increasing(nodes) && 0 < j && j + 1 < |nodes|
    requires Slope(nodes, row, j - 1) <= Slope(nodes, row, j)
    ensures nodes[j] <= k ==> Line(nodes, row, j - 1, k) <= Line(nodes, row, j, k)
    ensures k <= nodes[j] ==> Line(nodes, row, j, k) <= Line(nodes, row, j - 1, k)
  {
    hide Line, Slope;
    var rise := Slope(nodes, row, j) - Slope(nodes, row, j - 1);
    LinesMeet(nodes, row, j, k);
    if nodes[j] <= k {
      ProductNonNegative(rise, k - nodes[j]);
    }
    if k <= nodes[j] {
      FallLeft(rise, k, nodes[j]);
    }
  }

  lemma {:induction false} RightOfLines(nodes: seq<real>, row: seq<real>, i: nat, j: nat, k: real)
    requires |row| == |nodes| && Increasing(nodes) && NoKink(nodes, row, 0.0)
    requires j <= i && i + 1 < |nodes| && nodes[i] <= k
    ensures Line(nodes, row, j, k) <= Line(nodes, row, i, k)
    decreases i - j
  {
    hide Line, Slope;
    if j < i {
      RightOfLines(nodes, row, i - 1, j, k);
      LinesCross(nodes, row, i, k);
    }
  }

  lemma {:induction false} LeftOfLines(nodes: seq<real>, row: seq<real>, i: nat, j: nat, k: real)
    requires |row| == |nodes| && Increasing(nodes) && NoKink(nodes, row, 0.0)
    requires i <= j && j + 1 < |nodes| && k <= nodes[i + 1]
    ensures Line(nodes, row, j, k) <= Line(nodes, row, i, k)
    decreases j - i
  {
    hide Line, Slope;
    if i < j {
      LeftOfLines(nodes, row, i + 1, j, k);
      LinesCross(nodes, row, i + 1, k);
    }
  }

  lemma {:induction false} WithinOneSegment(nodes: seq<real>, k: real, s: nat, j: nat)
    requires Increasing(nodes) && s + 1 < |nodes| && j + 1 < |nodes|
    requires nodes[s] <= k <= nodes[s + 1] && nodes[j] < k < nodes[j + 1]
    ensures s == j
  {
  }

  lemma {:induction false} OnSegment(nodes: seq<real>, row: seq<real>, k: real, j: nat)
    requires |row| == |nodes| && Increasing(nodes) && j + 1 < |nodes| && nodes[j] <= k <= nodes[j + 1]
    ensures AtTenor(row, nodes, k) == Line(nodes, row, j, k)
  {
    LineEnds(nodes, row, j);
    if k == nodes[j] {
      AtTenorNode(row, nodes, j);
    } else if k == nodes[j + 1] {
      AtTenorNode(row, nodes, j + 1);
    } else {
      var s := Segment(nodes, k, 0);
      assert s == j by {
        WithinOneSegment(nodes, k, s, j);
      }
      MixIsLine(nodes, row, j, k);
    }
  }

  lemma {:induction false} LineEnds(nodes: seq<real>, row: seq<real>, j: nat)
    requires |row| == |nodes| && Increasing(nodes) && j + 1 < |nodes|
    ensures Line(nodes, row, j, nodes[j]) == row[j] && Line(nodes, row, j, nodes[j + 1]) == row[j + 1]
  {
  }

  lemma {:induction false} MixIsLine(nodes: seq<real>, row: seq<real>, j: nat, k: real)
    requires |row| == |nodes| && Increasing(nodes) && j + 1 < |nodes|
    ensures Mix(row[j], row[j + 1], Weight(k, nodes[j], nodes[j + 1])) == Line(nodes, row, j, k)
  {
    hide Slope, Weight;
    var h, x, s := nodes[j + 1] - nodes[j], Weight(k, nodes[j], nodes[j + 1]), Slope(nodes, row, j);
    assert (row[j + 1] - row[j]) * x == (s * h) * x == s * (x * h);
  }

  predicate InRange(nodes: seq<real>, k: real)
    requires nodes != []
  {
    nodes[0] <= k <= nodes[|nodes| - 1]
  }

  lemma {:induction false} SegmentOf(nodes: seq<real>, k: real) returns (j: nat)
    requires Increasing(nodes) && 1 < |nodes| && InRange(nodes, k)
    ensures j + 1 < |nodes| && nodes[j] <= k <= nodes[j + 1]
  {
    if k < nodes[|nodes| - 1] {
      j := Segment(nodes, k, 0);
    } else {
      j := |nodes| - 2;
    }
  }

  /** The row lies on or above the line of every segment. */
  lemma {:induction false} AboveLines(nodes: seq<real>, row: seq<real>, j: nat, k: real)
    requires |row| == |nodes| && Increasing(nodes) && NoKink(nodes, row, 0.0) && j + 1 < |nodes| && InRange(nodes, k)
    ensures Line(nodes, row, j, k) <= AtTenor(row, nodes, k)
  {
    hide Line, AtTenor, NoKink;
    var i := SegmentOf(nodes, k);
    OnSegment(nodes, row, k, i);
    if j <= i {
      RightOfLines(nodes, row, i, j, k);
    } else {
      LeftOfLines(nodes, row, i, j, k);
    }
  }

  lemma {:induction false} LineOfMix(nodes: seq<real>, row: seq<real>, j: nat, x: real, y: real, z: real)
    requires |row| == |nodes| && Increasing(nodes) && j + 1 < |nodes|
    ensures Line(nodes, row, j, Mix(x, y, z)) == Mix(Line(nodes, row, j, x), Line(nodes, row, j, y), z)
  {
    hide Slope;
    var s := Slope(nodes, row, j);
    assert s * (x + (y - x) * z - nodes[j]) == s * (x - nodes[j]) + (s * (y - x)) * z;
    assert s * (y - x) == s * (y - nodes[j]) - s * (x - nodes[j]);
  }

  /** A chord is nowhere below the row, as long as it stays between the first and the last node. */
  ghost predicate Convex(nodes: seq<real>, row: seq<real>)
    requires |row| == |nodes| && nodes != [] && Increasing(nodes)
  {
    forall x, y, z {:trigger Mix(x, y, z)} :: InRange(nodes, x) && InRange(nodes, y) && 0.0 <= z <= 1.0 ==>
      AtTenor(row, nodes, Mix(x, y, z)) <= Mix(AtTenor(row, nodes, x), AtTenor(row, nodes, y), z)
  }

  lemma {:induction false} ChordAbove(nodes: seq<real>, row: seq<real>, x: real, y: real, z: real)
    requires |row| == |nodes| && nodes != [] && Increasing(nodes) && NoKink(nodes, row, 0.0)
    requires InRange(nodes, x) && InRange(nodes, y) && 0.0 <= z <= 1.0
    ensures AtTenor(row, nodes, Mix(x, y, z)) <= Mix(AtTenor(row, nodes, x), AtTenor(row, nodes, y), z)
  {
    hide Line, AtTenor, NoKink, Mix;
    MixBetween(x, y, z, nodes[0], nodes[|nodes| - 1]);
    if |nodes| == 1 {
      MixOfSame(x, z);
      MixOfSame(AtTenor(row, nodes, x), z);
    } else {
      var k := Mix(x, y, z);
      var j := SegmentOf(nodes, k);
      OnSegment(nodes, row, k, j);
      LineOfMix(nodes, row, j, x, y, z);
      AboveLines(nodes, row, j, x);
      AboveLines(nodes, row, j, y);
      MixMonotone(Line(nodes, row, j, x), Line(nodes, row, j, y), AtTenor(row, nodes, x), AtTenor(row, nodes, y), z);
    }
  }

  /** Three points in convex position have rising slopes. */
  lemma {:induction false} SlopesRise(h0: real, h1: real, s0: real, s1: real, z: real)
    requires 0.0 < h0 && 0.0 < h1 && z * (h0 + h1) == h0
    requires s0 * h0 <= (s0 * h0 + s1 * h1) * z
    ensures s0 <= s1
  {
    var d0, d1 := s0 * h0, s1 * h1;
    assert d0 * (h0 + h1) <= (d0 + d1) * h0 by {
      ProductNonNegative((d0 + d1) * z - d0, h0 + h1);
      assert ((d0 + d1) * z) * (h0 + h1) == (d0 + d1) * (z * (h0 + h1));
    }
    assert d0 * h1 <= d1 * h0;
    assert d0 * h1 == s0 * (h0 * h1) && d1 * h0 == s1 * (h0 * h1);
    CancelFactor(s1 - s0, h0 * h1);
  }

  lemma {:induction false} ConvexHasNoKink(nodes: seq<real>, row: seq<real>, j: nat)
    requires |row| == |nodes| && nodes != [] && Increasing(nodes) && Convex(nodes, row) && 0 < j && j + 1 < |nodes|
    ensures Slope(nodes, row, j - 1) <= Slope(nodes, row, j)
  {
    hide AtTenor, Slope, Weight;
    var x, y := nodes[j - 1], nodes[j + 1];
    var z := Weight(nodes[j], x, y);
    WeightBetween(nodes[j], x, y);
    assert Mix(x, y, z) == nodes[j];
    AtTenorNode(row, nodes, j - 1);
    AtTenorNode(row, nodes, j);
    AtTenorNode(row, nodes, j + 1);
    assert InRange(nodes, x) && InRange(nodes, y);
    SlopesRise(nodes[j] - x, y - nodes[j], Slope(nodes, row, j - 1), Slope(nodes, row, j), z);
  }

  /** A tenor row is convex between its outer nodes exactly when it has no concave kink. */
  lemma {:induction false} ConvexIffNoKink(nodes: seq<real>, row: seq<real>)
    requires |row| == |nodes| && nodes != [] && Increasing(nodes)
    ensures Convex(nodes, row) <==> NoKink(nodes, row, 0.0)
  {
    hide AtTenor, Slope, Mix;
    if NoKink(nodes, row, 0.0) {
      forall x, y, z | InRange(nodes, x) && InRange(nodes, y) && 0.0 <= z <= 1.0
        ensures AtTenor(row, nodes, Mix(x, y, z)) <= Mix(AtTenor(row, nodes, x), AtTenor(row, nodes, y), z)
      {
        ChordAbove(nodes, row, x, y, z);
      }
    }
    if Convex(nodes, row) {
      forall j | 0 < j && j + 1 < |nodes| ensures Slope(nodes, row, j - 1) - 0.0 <= Slope(nodes, row, j) {
        ConvexHasNoKink(nodes, row, j);
      }
    }
  }

  // ---------------------------------------------------------------------------------------------------------
  // The publisher's check of a report
  // ---------------------------------------------------------------------------------------------------------

  /** A violation with its place: of tenors (`RowCount` included), of nodes, or of the calendar (falling variance). */
  datatype Violation =
    | NoTenor
    | AtmZero(tenor: int)
    | TenorOrder(tenor: int)
    | AtmFalls(tenor: int)
    | Trailing(tenor: int)
    | NodeCount
    | NodeOrder(node: int)
    | RowCount
    | RowFalls(tenor: int, node: int)

  /** The fields of a report that the checks below read; unused tenors are zero. */
  datatype Report = Report(validAfter: int, tenors: seq<int>, atm: seq<int>, kNodes: seq<int>)

  const MAX_TENORS: nat := 4
  const MAX_NODES: nat := 32

  /** How many tenors come before the first zero. */
  function UsedTenors(tenors: seq<int>, i: nat): (n: nat)
    requires i <= |tenors|
    ensures i <= n <= |tenors| && (n < |tenors| ==> tenors[n] == 0)
    ensures forall j :: i <= j < n ==> tenors[j] != 0
    decreases |tenors| - i
  {
    if i == |tenors| || tenors[i] == 0 then i else UsedTenors(tenors, i + 1)
  }

  /** Increasing tenors after `validAfter` with their variances, and nothing behind them. */
  predicate TenorsOk(r: Report)
    requires |r.tenors| == |r.atm| == MAX_TENORS
  {
    var n := UsedTenors(r.tenors, 0);
    && 0 < n && r.validAfter < r.tenors[0]
    && (forall i :: 0 <= i < n ==> r.atm[i] != 0)
    && (forall i :: 0 < i < n ==> r.tenors[i - 1] < r.tenors[i] && r.atm[i - 1] <= r.atm[i])
    && (forall i :: n <= i < MAX_TENORS ==> r.tenors[i] == 0 && r.atm[i] == 0)
  }

  predicate NodesOk(kNodes: seq<int>) {
    && 0 < |kNodes| <= MAX_NODES
    && forall j :: 0 < j < |kNodes| ==> kNodes[j - 1] < kNodes[j]
  }

  /** `grid[t][j] < grid[t - 1][j]` nowhere in the row; a missing entry compares false. */
  predicate RowOk(grid: seq<seq<int>>, t: int)
    requires 0 < t < |grid|
  {
    forall j :: 0 <= j < |grid[t]| && j < |grid[t - 1]| ==> grid[t - 1][j] <= grid[t][j]
  }

  predicate RowsOk(grid: seq<seq<int>>) {
    forall t {:trigger RowOk(grid, t)} :: 0 < t < |grid| ==> RowOk(grid, t)
  }

  predicate TenorViolated(r: Report, x: Violation)
    requires |r.tenors| == |r.atm| == MAX_TENORS
  {
    var n := UsedTenors(r.tenors, 0);
    match x
    case NoTenor => n == 0 || r.tenors[0] <= r.validAfter
    case AtmZero(i) => 0 <= i < n && r.atm[i] == 0
    case TenorOrder(i) => 0 < i < n && r.tenors[i] <= r.tenors[i - 1]
    case AtmFalls(i) => 0 < i < n && r.atm[i] < r.atm[i - 1]
    case Trailing(i) => n <= i < MAX_TENORS && (r.tenors[i] != 0 || r.atm[i] != 0)
    case _ => false
  }

  predicate NodeViolated(kNodes: seq<int>, x: Violation) {
    match x
    case NodeCount => |kNodes| == 0 || MAX_NODES < |kNodes|
    case NodeOrder(j) => 0 < j < |kNodes| && kNodes[j] <= kNodes[j - 1]
    case _ => false
  }

  predicate RowViolated(grid: seq<seq<int>>, x: Violation) {
    match x
    case RowFalls(t, j) =>
      0 < t < |grid| && 0 <= j < |grid[t]| && j < |grid[t - 1]| && grid[t][j] < grid[t - 1][j]
    case _ => false
  }

  /** The tenor or the node that a violation is about. */
  function PlaceOf(x: Violation): int {
    match x
    case AtmZero(i) => i
    case TenorOrder(i) => i
    case AtmFalls(i) => i
    case Trailing(i) => i
    case NodeOrder(j) => j
    case RowFalls(_, j) => j
    case _ => -1
  }

  method TenorViolations(r: Report) returns (v: seq<Violation>)
    requires |r.tenors| == |r.atm| == MAX_TENORS
    ensures forall x :: x in v <==> TenorViolated(r, x)
    ensures v == [] <==> TenorsOk(r)
  {
    v := [];
    var n := UsedTenors(r.tenors, 0);
    if n == 0 || r.tenors[0] <= r.validAfter {
      v := v + [NoTenor];
    }
    for i := 0 to MAX_TENORS
      invariant forall x :: x in v <==> TenorViolated(r, x) && PlaceOf(x) < i
    {
      ghost var before := v;
      if i < n {
        if r.atm[i] == 0 {
          v := v + [AtmZero(i)];
        }
        if 0 < i && r.tenors[i] <= r.tenors[i - 1] {
          v := v + [TenorOrder(i)];
        }
        if 0 < i && r.atm[i] < r.atm[i - 1] {
          v := v + [AtmFalls(i)];
        }
      } else if r.tenors[i] != 0 || r.atm[i] != 0 {
        v := v + [Trailing(i)];
      }
      forall x ensures x in v <==> TenorViolated(r, x) && PlaceOf(x) < i + 1 {
        assert x in before <==> TenorViolated(r, x) && PlaceOf(x) < i;
      }
    }
    NoTenorViolated(r, v);
  }

  lemma {:induction false} NoTenorViolated(r: Report, v: seq<Violation>)
    requires |r.tenors| == |r.atm| == MAX_TENORS
    requires forall x :: x in v <==> TenorViolated(r, x)
    ensures v == [] <==> TenorsOk(r)
  {
    if v != [] {
      assert TenorViolated(r, v[0]);
    } else {
      assert !TenorViolated(r, NoTenor);
      forall i | 0 <= i < UsedTenors(r.tenors, 0) ensures r.atm[i] != 0 {
        assert !TenorViolated(r, AtmZero(i));
      }
      forall i | 0 < i < UsedTenors(r.tenors, 0)
        ensures r.tenors[i - 1] < r.tenors[i] && r.atm[i - 1] <= r.atm[i]
      {
        assert !TenorViolated(r, TenorOrder(i)) && !TenorViolated(r, AtmFalls(i));
      }
      forall i | UsedTenors(r.tenors, 0) <= i < MAX_TENORS ensures r.tenors[i] == 0 && r.atm[i] == 0 {
        assert !TenorViolated(r, Trailing(i));
      }
    }
  }

  method NodeViolations(kNodes: seq<int>) returns (v: seq<Violation>)
    ensures forall x :: x in v <==> NodeViolated(kNodes, x)
    ensures v == [] <==> NodesOk(kNodes)
  {
    v := [];
    var m := |kNodes|;
    if m == 0 || MAX_NODES < m {
      v := v + [NodeCount];
    }
    var j := 1;
    while j < m
      invariant 1 <= j && (j <= m || j == 1)
      invariant forall x :: x in v <==> NodeViolated(kNodes, x) && PlaceOf(x) < j
    {
      if kNodes[j] <= kNodes[j - 1] {
        v := v + [NodeOrder(j)];
      }
      j := j + 1;
    }
    NoNodeViolated(kNodes, v);
  }

  lemma {:induction false} NoNodeViolated(kNodes: seq<int>, v: seq<Violation>)
    requires forall x :: x in v <==> NodeViolated(kNodes, x)
    ensures v == [] <==> NodesOk(kNodes)
  {
    if v != [] {
      assert NodeViolated(kNodes, v[0]);
    } else {
      assert !NodeViolated(kNodes, NodeCount);
      forall j | 0 < j < |kNodes| ensures kNodes[j - 1] < kNodes[j] {
        assert !NodeViolated(kNodes, NodeOrder(j));
      }
    }
  }

  method CalendarViolations(grid: seq<seq<int>>) returns (v: seq<Violation>)
    ensures forall x :: x in v <==> RowViolated(grid, x)
    ensures v == [] <==> RowsOk(grid)
  {
    v := [];
    var t := 1;
    while t < |grid|
      invariant 1 <= t
      invariant forall x :: x in v <==> RowViolated(grid, x) && x.tenor < t
    {
      ghost var before := v;
      for j := 0 to |grid[t]|
        invariant forall x :: x in v <==> RowViolated(grid, x) && (x.tenor < t || (x.tenor == t && x.node < j))
      {
        if j < |grid[t - 1]| && grid[t][j] < grid[t - 1][j] {
          v := v + [RowFalls(t, j)];
        }
      }
      t := t + 1;
    }
    NoRowViolated(grid, v);
  }

  lemma {:induction false} NoRowViolated(grid: seq<seq<int>>, v: seq<Violation>)
    requires forall x :: x in v <==> RowViolated(grid, x)
    ensures v == [] <==> RowsOk(grid)
  {
    if v != [] {
      var x := v[0];
      assert RowViolated(grid, x);
      assert !RowOk(grid, x.tenor);
    } else {
      forall t | 0 < t < |grid| ensures RowOk(grid, t) {
        forall j | 0 <= j < |grid[t]| && j < |grid[t - 1]| ensures grid[t - 1][j] <= grid[t][j] {
          assert !RowViolated(grid, RowFalls(t, j));
        }
      }
    }
  }

  /**
   * The tenor, node and calendar part of the publisher's check: it reports exactly what is wrong and where, and nothing
   * exactly when the report is in order.
   */
  method ValidateReport(r: Report, grid: seq<seq<int>>) returns (v: seq<Violation>)
    requires |r.tenors| == |r.atm| == MAX_TENORS
    ensures forall x :: x in v <==>
      || TenorViolated(r, x) || NodeViolated(r.kNodes, x) || RowViolated(grid, x)
      || (x == RowCount && |grid| != UsedTenors(r.tenors, 0))
    ensures v == [] <==> TenorsOk(r) && NodesOk(r.kNodes) && |grid| == UsedTenors(r.tenors, 0) && RowsOk(grid)
  {
    var tenors := TenorViolations(r);
    var nodes := NodeViolations(r.kNodes);
    var rows := if |grid| != UsedTenors(r.tenors, 0) then [RowCount] else [];
    var calendar := CalendarViolations(grid);
    v := tenors + nodes + rows + calendar;
    assert |v| == |tenors| + |nodes| + |rows| + |calendar|;
  }

  function FromWad(x: int): real {
    (x as real) / (WAD as real)
  }

  function Reals(xs: seq<int>): (r: seq<real>)
    ensures |r| == |xs| && forall i :: 0 <= i < |xs| ==> r[i] == FromWad(xs[i])
  {
    seq(|xs|, i requires 0 <= i < |xs| => FromWad(xs[i]))
  }

  function RealRows(grid: seq<seq<int>>): (r: seq<seq<real>>)
    ensures |r| == |grid| && forall t :: 0 <= t < |grid| ==> r[t] == Reals(grid[t])
  {
    seq(|grid|, t requires 0 <= t < |grid| => Reals(grid[t]))
  }

  lemma {:induction false} FromWadMonotone(x: int, y: int)
    ensures x <= y <==> FromWad(x) <= FromWad(y)
  {
  }

  lemma {:induction false} StepsMakeOrdered(xs: seq<int>, i: nat, j: nat)
    requires forall n :: 0 < n < |xs| ==> xs[n - 1] < xs[n]
    requires i < j < |xs|
    ensures xs[i] < xs[j]
    decreases j
  {
    if i + 1 < j {
      StepsMakeOrdered(xs, i, j - 1);
    }
    assert xs[j - 1] < xs[j];
  }

  /** A report without violations, with a full row per tenor, is a grid whose variance never falls with the expiry. */
  lemma {:induction false} ValidReportHasNoCalendarArbitrage(r: Report, grid: seq<seq<int>>, tau: int, tau': int,
      k: real)
    requires |r.tenors| == |r.atm| == MAX_TENORS
    requires TenorsOk(r) && NodesOk(r.kNodes) && |grid| == UsedTenors(r.tenors, 0) && RowsOk(grid)
    requires forall t :: 0 <= t < |grid| ==> |grid[t]| == |r.kNodes|
    requires var tenors := r.tenors[..|grid|]; tenors != [] && tenors[0] <= tau <= tau' <= tenors[|tenors| - 1]
    ensures var tenors, nodes, w := r.tenors[..|grid|], Reals(r.kNodes), RealRows(grid);
      && IsGrid(tenors, nodes, w)
      && TotalVariance(tau, r.validAfter, tenors, nodes, w, k).Some?
      && TotalVariance(tau', r.validAfter, tenors, nodes, w, k).Some?
      && TotalVariance(tau, r.validAfter, tenors, nodes, w, k).value
           <= TotalVariance(tau', r.validAfter, tenors, nodes, w, k).value
  {
    hide TotalVariance, FromWad;
    var tenors, nodes, w := r.tenors[..|grid|], Reals(r.kNodes), RealRows(grid);
    forall i, j | 0 <= i < j < |tenors| ensures tenors[i] < tenors[j] {
      StepsMakeOrdered(tenors, i, j);
    }
    forall i, j | 0 <= i < j < |nodes| ensures nodes[i] < nodes[j] {
      StepsMakeOrdered(r.kNodes, i, j);
      FromWadMonotone(r.kNodes[j], r.kNodes[i]);
    }
    forall t | 0 < t < |w| ensures RisesAt(w, t) {
      assert RowOk(grid, t);
      forall j | 0 <= j < |w[t]| && j < |w[t - 1]| ensures w[t - 1][j] <= w[t][j] {
        FromWadMonotone(grid[t - 1][j], grid[t][j]);
      }
    }
    InRangeIsSome(tau, r.validAfter, tenors, nodes, w, k);
    InRangeIsSome(tau', r.validAfter, tenors, nodes, w, k);
    VarianceRisesInTime(tau, tau', r.validAfter, tenors, nodes, w, k);
  }

  lemma {:induction false} InRangeIsSome(tau: int, start: int, tenors: seq<int>, nodes: seq<real>, w: seq<seq<real>>,
      k: real)
    requires IsGrid(tenors, nodes, w)
    ensures TotalVariance(tau, start, tenors, nodes, w, k).Some? <==> tenors[0] <= tau <= tenors[|tenors| - 1]
  {
  }
}
