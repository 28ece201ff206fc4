/** The price node's agreement rule (pricenode/src/index.ts): median, drop what is far from it, median of the rest. */
module PriceNode {
  import opened Basics

  /** A source's answer; `None` stands for a number that is not finite. */
  datatype Quote = Quote(source: string, price: Option<real>)

  predicate Answered(q: Quote) {
    q.price.Some? && 0.0 < q.price.value
  }

  /** The prices of the quotes that answered. */
  function ValidPrices(quotes: seq<Quote>): (r: seq<real>)
    ensures forall i :: 0 <= i < |r| ==> 0.0 < r[i]
  {
    if quotes == [] then []
    else (if Answered(quotes[0]) then [quotes[0].price.value] else []) + ValidPrices(quotes[1..])
  }

  predicate Sorted(s: seq<real>) {
    forall i, j :: 0 <= i < j < |s| ==> s[i] <= s[j]
  }

  function Insert(x: real, s: seq<real>): (r: seq<real>)
    ensures |r| == |s| + 1
  {
    if s == [] || x <= s[0] then [x] + s else [s[0]] + Insert(x, s[1..])
  }

  function Sort(xs: seq<real>): (r: seq<real>)
    ensures |r| == |xs|
  {
    if xs == [] then [] else Insert(xs[0], Sort(xs[1..]))
  }

  function Median(xs: seq<real>): real
    requires xs != []
  {
    var s, n := Sort(xs), |xs|;
    if n % 2 == 1 then s[(n - 1) / 2] else (s[n / 2 - 1] + s[n / 2]) / 2.0
  }

  /** How many of the prices lie in [lo, hi]. */
  function CountIn(xs: seq<real>, lo: real, hi: real): (r: nat)
    ensures r <= |xs|
  {
    if xs == [] then 0 else (if lo <= xs[0] <= hi then 1 else 0) + CountIn(xs[1..], lo, hi)
  }

  // ---------------------------------------------------------------------------------------------------------
  // Sorting
  // ---------------------------------------------------------------------------------------------------------

  predicate AtLeast(x: real, s: seq<real>) {
    forall i :: 0 <= i < |s| ==> x <= s[i]
  }

  lemma {:induction false} InsertAtLeast(x: real, s: seq<real>, y: real)
    requires AtLeast(y, s) && y <= x
    ensures AtLeast(y, Insert(x, s))
  {
    if s != [] && s[0] < x {
      assert AtLeast(y, s[1..]);
      InsertAtLeast(x, s[1..], y);
    }
  }

  lemma {:induction false} InsertSorted(x: real, s: seq<real>)
    requires Sorted(s)
    ensures Sorted(Insert(x, s))
  {
    if s != [] && s[0] < x {
      InsertSorted(x, s[1..]);
      InsertAtLeast(x, s[1..], s[0]);
    }
  }

  lemma {:induction false} InsertCounts(x: real, s: seq<real>, lo: real, hi: real)
    ensures CountIn(Insert(x, s), lo, hi) == CountIn(s, lo, hi) + if lo <= x <= hi then 1 else 0
  {
    if s == [] || x <= s[0] {
      assert ([x] + s)[1..] == s;
    } else {
      InsertCounts(x, s[1..], lo, hi);
      assert ([s[0]] + Insert(x, s[1..]))[1..] == Insert(x, s[1..]);
    }
  }

  /** Sorting orders the prices and keeps them all. */
  lemma {:induction false} SortIsSorted(xs: seq<real>, lo: real, hi: real)
    ensures Sorted(Sort(xs)) && CountIn(Sort(xs), lo, hi) == CountIn(xs, lo, hi)
  {
    if xs != [] {
      SortIsSorted(xs[1..], lo, hi);
      InsertSorted(xs[0], Sort(xs[1..]));
      InsertCounts(xs[0], Sort(xs[1..]), lo, hi);
    }
  }

  // ---------------------------------------------------------------------------------------------------------
  // Medians of a majority
  // ---------------------------------------------------------------------------------------------------------

  lemma {:induction false} CountOfParts(a: seq<real>, b: seq<real>, lo: real, hi: real)
    ensures CountIn(a + b, lo, hi) == CountIn(a, lo, hi) + CountIn(b, lo, hi)
  {
    if a == [] {
      assert a + b == b;
    } else {
      CountOfParts(a[1..], b, lo, hi);
      assert (a + b)[1..] == a[1..] + b;
    }
  }

  lemma {:induction false} NoneIn(xs: seq<real>, lo: real, hi: real)
    requires forall i :: 0 <= i < |xs| ==> xs[i] < lo || hi < xs[i]
    ensures CountIn(xs, lo, hi) == 0
  {
    if xs != [] {
      NoneIn(xs[1..], lo, hi);
    }
  }

  lemma {:induction false} AllIn(xs: seq<real>, lo: real, hi: real)
    requires forall i :: 0 <= i < |xs| ==> lo <= xs[i] <= hi
    ensures CountIn(xs, lo, hi) == |xs|
  {
    if xs != [] {
      AllIn(xs[1..], lo, hi);
    }
  }

  /** In a sorted sequence, an element outside the interval takes everything on its side with it. */
  lemma {:induction false} OutsideLeavesFew(s: seq<real>, i: nat, lo: real, hi: real)
    requires Sorted(s) && i < |s|
    ensures s[i] < lo ==> CountIn(s, lo, hi) <= |s| - i - 1
    ensures hi < s[i] ==> CountIn(s, lo, hi) <= i
  {
    if s[i] < lo {
      assert s == s[..i + 1] + s[i + 1..];
      CountOfParts(s[..i + 1], s[i + 1..], lo, hi);
      NoneIn(s[..i + 1], lo, hi);
    }
    if hi < s[i] {
      assert s == s[..i] + s[i..];
      CountOfParts(s[..i], s[i..], lo, hi);
      NoneIn(s[i..], lo, hi);
    }
  }

  /** The median lies wherever a strict majority does. */
  lemma {:induction false} MedianOfMajority(xs: seq<real>, lo: real, hi: real)
    requires |xs| < 2 * CountIn(xs, lo, hi)
    ensures lo <= Median(xs) <= hi
  {
    var s, n := Sort(xs), |xs|;
    SortIsSorted(xs, lo, hi);
    if n % 2 == 1 {
      OutsideLeavesFew(s, (n - 1) / 2, lo, hi);
    } else {
      OutsideLeavesFew(s, n / 2 - 1, lo, hi);
      OutsideLeavesFew(s, n / 2, lo, hi);
    }
  }

  // ---------------------------------------------------------------------------------------------------------
  // The median is the middle
  // ---------------------------------------------------------------------------------------------------------

  function CountBelow(xs: seq<real>, x: real): nat {
    if xs == [] then 0 else (if xs[0] < x then 1 else 0) + CountBelow(xs[1..], x)
  }

  function CountUpTo(xs: seq<real>, x: real): nat {
    if xs == [] then 0 else (if xs[0] <= x then 1 else 0) + CountUpTo(xs[1..], x)
  }

  /** `x` is one of the prices and comes at place `i`, from 0, when they are put in order. */
  predicate HasRank(xs: seq<real>, x: real, i: nat) {
    CountBelow(xs, x) <= i < CountUpTo(xs, x)
  }

  lemma {:induction false} CountsOrder(xs: seq<real>, x: real, y: real)
    requires x < y
    ensures CountUpTo(xs, x) <= CountBelow(xs, y)
  {
    if xs != [] {
      CountsOrder(xs[1..], x, y);
    }
  }

  /** There is one price at each place. */
  lemma {:induction false} RankIsOne(xs: seq<real>, x: real, y: real, i: nat)
    requires HasRank(xs, x, i) && HasRank(xs, y, i)
    ensures x == y
  {
    if x < y {
      CountsOrder(xs, x, y);
    } else if y < x {
      CountsOrder(xs, y, x);
    }
  }

  lemma {:induction false} InsertKeepsCounts(x: real, s: seq<real>, y: real)
    ensures CountBelow(Insert(x, s), y) == CountBelow(s, y) + (if x < y then 1 else 0)
    ensures CountUpTo(Insert(x, s), y) == CountUpTo(s, y) + (if x <= y then 1 else 0)
  {
    if s == [] || x <= s[0] {
      assert ([x] + s)[1..] == s;
    } else {
      InsertKeepsCounts(x, s[1..], y);
      assert ([s[0]] + Insert(x, s[1..]))[1..] == Insert(x, s[1..]);
    }
  }

  lemma {:induction false} SortKeepsRanks(xs: seq<real>, y: real)
    ensures CountBelow(Sort(xs), y) == CountBelow(xs, y) && CountUpTo(Sort(xs), y) == CountUpTo(xs, y)
  {
    if xs != [] {
      SortKeepsRanks(xs[1..], y);
      InsertKeepsCounts(xs[0], Sort(xs[1..]), y);
    }
  }

  lemma {:induction false} CountsOfSorted(s: seq<real>, y: real, i: nat)
    requires Sorted(s) && i < |s| && s[i] == y
    ensures CountBelow(s, y) <= i < CountUpTo(s, y)
  {
    if i == 0 {
      NoneBelow(s, y);
    } else {
      CountsOfSorted(s[1..], y, i - 1);
    }
  }

  lemma {:induction false} NoneBelow(s: seq<real>, y: real)
    requires forall j :: 0 <= j < |s| ==> y <= s[j]
    ensures CountBelow(s, y) == 0
  {
    if s != [] {
      NoneBelow(s[1..], y);
    }
  }

  lemma {:induction false} SortedRank(xs: seq<real>, i: nat)
    requires i < |xs|
    ensures HasRank(xs, Sort(xs)[i], i)
  {
    SortIsSorted(xs, 0.0, 0.0);
    CountsOfSorted(Sort(xs), Sort(xs)[i], i);
    SortKeepsRanks(xs, Sort(xs)[i]);
  }

  /** The median of an odd number of prices is the one in the middle, of an even number the mean of the two there. */
  lemma {:induction false} MedianIsMiddle(xs: seq<real>) returns (a: real, b: real)
    requires xs != []
    ensures if |xs| % 2 == 1 then HasRank(xs, a, (|xs| - 1) / 2) && b == a
            else HasRank(xs, a, |xs| / 2 - 1) && HasRank(xs, b, |xs| / 2)
    ensures Median(xs) * 2.0 == a + b
  {
    var s, n := Sort(xs), |xs|;
    if n % 2 == 1 {
      a, b := s[(n - 1) / 2], s[(n - 1) / 2];
      SortedRank(xs, (n - 1) / 2);
    } else {
      a, b := s[n / 2 - 1], s[n / 2];
      SortedRank(xs, n / 2 - 1);
      SortedRank(xs, n / 2);
    }
  }

  // ---------------------------------------------------------------------------------------------------------
  // Aggregation
  // ---------------------------------------------------------------------------------------------------------

  function Abs(x: real): real {
    if x < 0.0 then -x else x
  }

  /** Within `maxDevBps` of `m`. */
  predicate Near(p: real, m: real, maxDevBps: real)
    requires 0.0 < m
  {
    Abs(p / m - 1.0) * (BPS as real) <= maxDevBps
  }

  function Kept(xs: seq<real>, m: real, maxDevBps: real): (r: seq<real>)
    requires 0.0 < m
    ensures |r| <= |xs| && forall x :: x in r <==> x in xs && Near(x, m, maxDevBps)
  {
    if xs == [] then []
    else (if Near(xs[0], m, maxDevBps) then [xs[0]] else []) + Kept(xs[1..], m, maxDevBps)
  }

  /** `price` is `None` where the source computes with the median of nothing. */
  datatype Aggregate = NoSource | TooFew(kept: nat, of: nat) | Priced(price: Option<real>, used: seq<real>,
    dropped: nat)

  function AggregateQuotes(quotes: seq<Quote>, maxDevBps: real, minSources: int): Aggregate {
    var ok := ValidPrices(quotes);
    if ok == [] then NoSource
    else
      MedianPositive(ok);
      var kept := Kept(ok, Median(ok), maxDevBps);
      if |kept| < minSources then TooFew(|kept|, |ok|)
      else Priced(if kept == [] then None else Some(Median(kept)), kept, |ok| - |kept|)
  }

  lemma {:induction false} MedianPositive(xs: seq<real>)
    requires xs != [] && forall i :: 0 <= i < |xs| ==> 0.0 < xs[i]
    ensures 0.0 < Median(xs)
  {
    var s := Sort(xs);
    var lo, hi := Ends(xs);
    AllIn(xs, lo, hi);
    MedianOfMajority(xs, lo, hi);
  }

  /** A least and a greatest price. */
  lemma {:induction false} Ends(xs: seq<real>) returns (lo: real, hi: real)
    requires xs != [] && forall i :: 0 <= i < |xs| ==> 0.0 < xs[i]
    ensures 0.0 < lo && forall i :: 0 <= i < |xs| ==> lo <= xs[i] <= hi
  {
    if |xs| == 1 {
      lo, hi := xs[0], xs[0];
    } else {
      lo, hi := Ends(xs[1..]);
      lo, hi := MinR(lo, xs[0]), MaxR(hi, xs[0]);
      forall i | 0 <= i < |xs| ensures lo <= xs[i] <= hi {
        if 0 < i {
          assert xs[i] == xs[1..][i - 1];
        }
      }
    }
  }

  /** Dropping only what is outside an interval keeps the count inside. */
  lemma {:induction false} KeptKeeps(xs: seq<real>, m: real, maxDevBps: real, lo: real, hi: real)
    requires 0.0 < m && forall p {:trigger Near(p, m, maxDevBps)} :: lo <= p <= hi ==> Near(p, m, maxDevBps)
    ensures CountIn(Kept(xs, m, maxDevBps), lo, hi) == CountIn(xs, lo, hi)
  {
    if xs != [] {
      KeptKeeps(xs[1..], m, maxDevBps, lo, hi);
      CountOfParts(if Near(xs[0], m, maxDevBps) then [xs[0]] else [], Kept(xs[1..], m, maxDevBps), lo, hi);
      assert xs == [xs[0]] + xs[1..];
    }
  }

  lemma {:induction false} RatioMonotone(a: real, b: real, m: real)
    requires 0.0 < m && a <= b
    ensures a / m <= b / m
  {
  }

  lemma {:induction false} RatioAntitone(a: real, m: real, k: real)
    requires 0.0 < m <= k && 0.0 <= a
    ensures a / k <= a / m
  {
    var x, y := a / k, a / m;
    assert x * k == a && y * m == a;
    CancelFactor(x, k);
    ProductNonNegative(x, k - m);
    assert (y - x) * m == x * (k - m);
    CancelFactor(y - x, m);
  }

  /** 1 - lo/hi is at most hi/lo - 1. */
  lemma {:induction false} FallIsLess(lo: real, hi: real)
    requires 0.0 < lo <= hi
    ensures 1.0 - lo / hi <= hi / lo - 1.0
  {
    var x, y := lo / hi, hi / lo;
    assert x * hi == lo && y * lo == hi;
    assert (1.0 - x) * hi == hi - lo && (y - 1.0) * lo == hi - lo;
    CancelFactor(1.0 - x, hi);
    ProductNonNegative(1.0 - x, hi - lo);
    assert ((y - 1.0) - (1.0 - x)) * lo == (1.0 - x) * (hi - lo);
    CancelFactor((y - 1.0) - (1.0 - x), lo);
  }

  /** Two numbers of an interval that is narrow enough are near each other. */
  lemma {:induction false} NarrowIsNear(p: real, m: real, lo: real, hi: real, maxDevBps: real)
    requires 0.0 < lo <= p <= hi && lo <= m <= hi && (hi / lo - 1.0) * (BPS as real) <= maxDevBps
    ensures Near(p, m, maxDevBps)
  {
    RatioMonotone(p, hi, m);
    RatioAntitone(hi, lo, m);
    RatioMonotone(lo, p, m);
    RatioAntitone(lo, m, hi);
    FallIsLess(lo, hi);
    assert lo / hi <= p / m <= hi / lo;
  }

  /**
   * If a strict majority of the answers lie in an interval as narrow as the deviation limit, and there are enough of
   * them, the feed is priced, none of them is dropped, and the price lies in the interval.
   */
  lemma {:induction false} MajorityDecides(quotes: seq<Quote>, maxDevBps: real, minSources: int, lo: real, hi: real)
    requires 0.0 < lo <= hi && (hi / lo - 1.0) * (BPS as real) <= maxDevBps
    requires var ok := ValidPrices(quotes);
      |ok| < 2 * CountIn(ok, lo, hi) && minSources <= CountIn(ok, lo, hi)
    ensures var r := AggregateQuotes(quotes, maxDevBps, minSources);
      && r.Priced? && r.price.Some? && lo <= r.price.value <= hi
      && CountIn(r.used, lo, hi) == CountIn(ValidPrices(quotes), lo, hi)
      && |r.used| + r.dropped == |ValidPrices(quotes)|
  {
    hide Near;
    var ok := ValidPrices(quotes);
    MedianOfMajority(ok, lo, hi);
    var m := Median(ok);
    forall p | lo <= p <= hi ensures Near(p, m, maxDevBps) {
      NarrowIsNear(p, m, lo, hi, maxDevBps);
    }
    KeptKeeps(ok, m, maxDevBps, lo, hi);
    MedianOfMajority(Kept(ok, m, maxDevBps), lo, hi);
  }

  /** What a deviation in basis points is of a price. */
  function Deviation(m: real, bps: real): real {
    m * (bps / (BPS as real))
  }

  /** Near a price is within the deviation of it, on both sides. */
  lemma {:induction false} NearBounds(p: real, m: real, maxDevBps: real)
    requires 0.0 < m
    ensures Near(p, m, maxDevBps) <==> m - Deviation(m, maxDevBps) <= p <= m + Deviation(m, maxDevBps)
  {
    var d, x := maxDevBps / 10000.0, p / m;
    assert Near(p, m, maxDevBps) <==> -d <= x - 1.0 <= d;
    assert Deviation(m, maxDevBps) == m * d;
    Apart(p, m, x, d);
  }

  lemma {:induction false} Apart(p: real, m: real, x: real, d: real)
    requires 0.0 < m && x * m == p
    ensures -d <= x - 1.0 <= d <==> m - m * d <= p <= m + m * d
  {
    assert (x - 1.0) * m == p - m && (-d) * m == -(d * m);
    OrderTimes(x - 1.0, d, m);
    OrderTimes(-d, x - 1.0, m);
  }

  lemma {:induction false} OrderTimes(a: real, b: real, m: real)
    requires 0.0 < m
    ensures a <= b <==> a * m <= b * m
  {
    assert (b - a) * m == b * m - a * m;
    if a <= b {
      TimesPositive(a, b, m);
    }
    if a * m <= b * m {
      CancelFactor(b - a, m);
    }
  }

  lemma {:induction false} TimesPositive(a: real, b: real, m: real)
    requires 0.0 < m && a <= b
    ensures a * m <= b * m
  {
  }

  /** Every answer counts as often as it was given, if it is near the raw median; others do not count. */
  lemma {:induction false} KeptAsOften(xs: seq<real>, m: real, maxDevBps: real, x: real)
    requires 0.0 < m
    ensures CountIn(Kept(xs, m, maxDevBps), x, x) == if Near(x, m, maxDevBps) then CountIn(xs, x, x) else 0
  {
    hide Near;
    if xs != [] {
      KeptAsOften(xs[1..], m, maxDevBps, x);
      CountOfParts(if Near(xs[0], m, maxDevBps) then [xs[0]] else [], Kept(xs[1..], m, maxDevBps), x, x);
    }
  }

  /** How often a price was answered. */
  function TimesAnswered(quotes: seq<Quote>, x: real): nat {
    if quotes == [] then 0
    else (if quotes[0].price == Some(x) then 1 else 0) + TimesAnswered(quotes[1..], x)
  }

  lemma {:induction false} ValidAsOften(quotes: seq<Quote>, x: real)
    ensures CountIn(ValidPrices(quotes), x, x) == if 0.0 < x then TimesAnswered(quotes, x) else 0
  {
    if quotes != [] {
      ValidAsOften(quotes[1..], x);
      CountOfParts(if Answered(quotes[0]) then [quotes[0].price.value] else [], ValidPrices(quotes[1..]), x, x);
    }
  }

  /**
   * What an aggregate is made of: no source answered; or fewer than asked for are near the raw median; or each positive
   * answer near it counts as often as it was given, and nothing else does.
   */
  lemma {:induction false} AggregateIs(quotes: seq<Quote>, maxDevBps: real, minSources: int, x: real)
    ensures var r, ok := AggregateQuotes(quotes, maxDevBps, minSources), ValidPrices(quotes);
      && CountIn(ok, x, x) == (if 0.0 < x then TimesAnswered(quotes, x) else 0)
      && (r.NoSource? <==> ok == [])
      && (r.TooFew? ==> r.kept < minSources && r.of == |ok|)
      && (r.Priced? ==>
            && 0.0 < Median(ok) && minSources <= |r.used|
            && CountIn(r.used, x, x) == if Near(x, Median(ok), maxDevBps) then CountIn(ok, x, x) else 0)
  {
    hide Near, Median;
    var ok := ValidPrices(quotes);
    ValidAsOften(quotes, x);
    if ok != [] {
      MedianPositive(ok);
      KeptAsOften(ok, Median(ok), maxDevBps, x);
    }
  }

  /** Whatever is priced stays within the deviation limit of the raw median, from at least `minSources` sources. */
  lemma {:induction false} PriceIsNearMedian(quotes: seq<Quote>, maxDevBps: real, minSources: int)
    ensures var r, ok := AggregateQuotes(quotes, maxDevBps, minSources), ValidPrices(quotes);
      r.Priced? && (r.price.Some? || 0 < minSources) ==>
        && r.price.Some? && ok != [] && minSources <= |r.used| && |r.used| + r.dropped == |ok|
        && var m := Median(ok);
        && 0.0 < m && (forall x :: x in r.used <==> x in ok && Near(x, m, maxDevBps))
        && r.price.value == Median(r.used)
        && m - Deviation(m, maxDevBps) <= r.price.value <= m + Deviation(m, maxDevBps)
  {
    hide Near, Deviation, Median;
    var r, ok := AggregateQuotes(quotes, maxDevBps, minSources), ValidPrices(quotes);
    if r.Priced? && r.used != [] {
      MedianPositive(ok);
      var m := Median(ok);
      var lo, hi := m - Deviation(m, maxDevBps), m + Deviation(m, maxDevBps);
      forall i | 0 <= i < |r.used| ensures lo <= r.used[i] <= hi {
        assert r.used[i] in r.used;
        NearBounds(r.used[i], m, maxDevBps);
      }
      AllIn(r.used, lo, hi);
      MedianOfMajority(r.used, lo, hi);
    }
  }
}
