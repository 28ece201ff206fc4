/**
 * Portfolio margin (reference/pm_model.py, "Margin"): leg values, worst scenario loss per underlying, account risk.
 *
 * The Black-76 formula is a parameter: every theorem holds for any non-negative price per (leg, scenario). A list of
 * legs is a map from any key (its position, or the series it is in), so that no statement depends on the order.
 */
module Margin {
  import opened Basics
  import opened Sums

  type Underlying = string
  /** `black76(is_call, F, K, sigma, T)`. */
  type Pricer = (bool, real, real, real, real) -> real

  const YEAR: real := 31_536_000.0

  datatype Scenario = Scenario(spotBps: int, volBps: int, timeMode: int, shift: real)

  datatype RiskParams = RiskParams(
    imSet: seq<Scenario>, mmSet: seq<Scenario>, imBufferBps: nat,
    minIv: real, maxIv: real, nearExpiryFloor: real)

  datatype Leg = Leg(
    underlying: Underlying, isCall: bool, strike: real, size: real, expiry: real,
    q: real, sigma: real, sigmaShort: Option<real>, sigmaLong: Option<real>,
    longIntrinsicOnly: bool, finalizedPayoff: Option<real>)

  datatype Risk = Risk(equity: real, im: real, mm: real, lossIm: real, lossMm: real, buffer: real)

  /** What prices depend on besides the leg: the pricing formula, spot prices, the time and the risk parameters. */
  datatype Market = Market(black76: Pricer, spots: Underlying -> real, now: real, params: RiskParams)

  ghost predicate NonNegative(black76: Pricer) {
    forall c, f, k, s, t :: 0.0 <= black76(c, f, k, s, t)
  }

  /** A leg no price of which can be negative. */
  predicate Sane(l: Leg) {
    0.0 <= l.size && (l.finalizedPayoff.Some? ==> 0.0 <= l.finalizedPayoff.value)
  }

  ghost predicate SaneBook<K>(legs: map<K, Leg>) {
    forall k :: k in legs ==> Sane(legs[k])
  }

  function Intrinsic(isCall: bool, s: real, k: real): real {
    if isCall then MaxR(s - k, 0.0) else MaxR(k - s, 0.0)
  }

  /** The volatility of a leg's side: the stale-adjusted one when the surface is stale. */
  function SideVol(l: Leg): real {
    if l.q < 0.0 && l.sigmaShort.Some? then l.sigmaShort.value
    else if 0.0 < l.q && l.sigmaLong.Some? then l.sigmaLong.value
    else l.sigma
  }

  function TimeLeft(m: Market, expiry: real): real {
    MaxR(expiry - m.now, 0.0) / YEAR
  }

  function StressedSpot(spot: real, s: Scenario): real {
    spot * ((BPS + s.spotBps) as real) / (BPS as real)
  }

  function StressedVol(p: RiskParams, vol: real, s: Scenario): real {
    MinR(MaxR(vol * ((BPS + s.volBps) as real) / (BPS as real), p.minIv), p.maxIv)
  }

  function StressedTime(p: RiskParams, t: real, s: Scenario): real {
    if s.timeMode == 1 then MinR(t, p.nearExpiryFloor / YEAR)
    else if s.timeMode == 2 then MaxR(t - s.shift / YEAR, 0.0)
    else t
  }

  function LegUnitPrice(m: Market, l: Leg, sc: Option<Scenario>): real {
    if l.finalizedPayoff.Some? then l.finalizedPayoff.value
    else
      var spot, vol, t := m.spots(l.underlying), SideVol(l), TimeLeft(m, l.expiry);
      match sc
      case None => Quote(m, l, spot, vol, t)
      case Some(s) =>
        Quote(m, l, StressedSpot(spot, s), StressedVol(m.params, vol, s), StressedTime(m.params, t, s))
  }

  function Quote(m: Market, l: Leg, spot: real, sigma: real, t: real): real {
    if 0.0 < l.q && l.longIntrinsicOnly then Intrinsic(l.isCall, spot, l.strike)
    else m.black76(l.isCall, spot, l.strike, sigma, t)
  }

  function LegValue(m: Market, l: Leg, sc: Option<Scenario>): real {
    l.q * l.size * LegUnitPrice(m, l, sc)
  }

  lemma {:induction false} PriceNonNegative(m: Market, l: Leg, sc: Option<Scenario>)
    requires NonNegative(m.black76) && Sane(l)
    ensures 0.0 <= LegUnitPrice(m, l, sc)
  {
  }

  /** Values: what a book of legs is worth, now (`None`) or in a scenario. */
  ghost function Values<K>(m: Market, legs: map<K, Leg>, sc: Option<Scenario>): map<K, real> {
    map k | k in legs :: LegValue(m, legs[k], sc)
  }

  ghost function BookValue<K>(m: Market, legs: map<K, Leg>, sc: Option<Scenario>): real {
    RSum(Values(m, legs, sc))
  }

  function Bucket<K>(legs: map<K, Leg>, u: Underlying): map<K, Leg> {
    map k | k in legs && legs[k].underlying == u :: legs[k]
  }

  function Underlyings<K>(legs: map<K, Leg>): set<Underlying> {
    set k | k in legs :: legs[k].underlying
  }

  /** The loss of one bucket in its worst scenario, at least zero. */
  ghost function WorstLoss<K>(m: Market, bucket: map<K, Leg>, scenarios: seq<Scenario>): real {
    if |scenarios| == 0 then 0.0
    else
      var n := |scenarios| - 1;
      MaxR(WorstLoss(m, bucket, scenarios[..n]),
           BookValue(m, bucket, None) - BookValue(m, bucket, Some(scenarios[n])))
  }

  ghost function LossesOf<K>(m: Market, legs: map<K, Leg>, scenarios: seq<Scenario>, us: set<Underlying>)
    : map<Underlying, real>
  {
    map u | u in us :: WorstLoss(m, Bucket(legs, u), scenarios)
  }

  /** The scenario loss of an account: its buckets' losses added up, never offset against each other. */
  ghost function TotalLoss<K>(m: Market, legs: map<K, Leg>, scenarios: seq<Scenario>): real {
    RSum(LossesOf(m, legs, scenarios, Underlyings(legs)))
  }

  ghost function ShortMarks<K>(m: Market, legs: map<K, Leg>): map<K, real> {
    map k | k in legs :: if legs[k].q < 0.0 then -LegValue(m, legs[k], None) else 0.0
  }

  function Buffer(p: RiskParams, shortMark: real): real {
    shortMark * (p.imBufferBps as real) / (BPS as real)
  }

  ghost function RiskOf<K>(m: Market, cash: real, legs: map<K, Leg>): Risk {
    var p := m.params;
    var lossIm := TotalLoss(m, legs, p.imSet + p.mmSet);
    var lossMm := TotalLoss(m, legs, p.mmSet);
    var buffer := Buffer(p, RSum(ShortMarks(m, legs)));
    Risk(cash + BookValue(m, legs, None), lossIm + buffer, lossMm, lossIm, lossMm, buffer)
  }

  // ---------------------------------------------------------------------------------------------------------
  // The loops that compute them
  // ---------------------------------------------------------------------------------------------------------

  method SumValues<K>(m: Market, legs: map<K, Leg>, sc: Option<Scenario>) returns (total: real)
    ensures total == BookValue(m, legs, sc)
  {
    total := 0.0;
    var todo := legs;
    while todo != map[]
      invariant todo.Keys <= legs.Keys && forall k :: k in todo ==> todo[k] == legs[k]
      invariant total + BookValue(m, todo, sc) == BookValue(m, legs, sc)
      decreases |todo|
    {
      var k :| k in todo;
      BookValueSplit(m, todo, k, sc);
      total := total + LegValue(m, todo[k], sc);
      todo := todo - {k};
    }
  }

  method BucketLosses<K>(m: Market, legs: map<K, Leg>, scenarios: seq<Scenario>) returns (worst: real)
    ensures worst == WorstLoss(m, legs, scenarios)
  {
    var base := SumValues(m, legs, None);
    worst := 0.0;
    for i := 0 to |scenarios|
      invariant worst == WorstLoss(m, legs, scenarios[..i])
    {
      var v := SumValues(m, legs, Some(scenarios[i]));
      worst := MaxR(worst, base - v);
      assert scenarios[..i + 1][..i] == scenarios[..i];
    }
    assert scenarios[..|scenarios|] == scenarios;
  }

  /** Each leg of `done` is in the bucket of its underlying, and no bucket is empty or holds anything else. */
  ghost predicate Grouped<K>(buckets: map<Underlying, map<K, Leg>>, legs: map<K, Leg>, done: set<K>) {
    && done <= legs.Keys
    && (forall k :: k in done ==> legs[k].underlying in buckets && k in buckets[legs[k].underlying])
    && (forall u, k :: u in buckets && k in buckets[u] ==>
          k in done && buckets[u][k] == legs[k] && legs[k].underlying == u)
    && (forall u :: u in buckets ==> buckets[u] != map[])
  }

  lemma {:induction false} GroupedBuckets<K>(buckets: map<Underlying, map<K, Leg>>, legs: map<K, Leg>)
    requires Grouped(buckets, legs, legs.Keys)
    ensures buckets.Keys == Underlyings(legs)
    ensures forall u :: u in buckets ==> buckets[u] == Bucket(legs, u)
  {
    forall u | u in buckets ensures u in Underlyings(legs) && buckets[u] == Bucket(legs, u) {
      var k :| k in buckets[u];
      assert legs[k].underlying == u;
      assert forall j :: j in Bucket(legs, u) ==> j in buckets[u];
    }
  }

  method GroupByUnderlying<K>(legs: map<K, Leg>) returns (buckets: map<Underlying, map<K, Leg>>)
    ensures buckets.Keys == Underlyings(legs)
    ensures forall u :: u in buckets ==> buckets[u] == Bucket(legs, u)
  {
    buckets := map[];
    var todo := legs.Keys;
    while todo != {}
      invariant todo <= legs.Keys
      invariant Grouped(buckets, legs, legs.Keys - todo)
      decreases |todo|
    {
      var k :| k in todo;
      var u := legs[k].underlying;
      var bucket := if u in buckets then buckets[u] else map[];
      buckets := buckets[u := bucket[k := legs[k]]];
      todo := todo - {k};
    }
    assert legs.Keys - todo == legs.Keys;
    GroupedBuckets(buckets, legs);
  }

  method SumLosses<K>(m: Market, ghost legs: map<K, Leg>, buckets: map<Underlying, map<K, Leg>>,
      scenarios: seq<Scenario>) returns (total: real)
    requires buckets.Keys == Underlyings(legs)
    requires forall u :: u in buckets ==> buckets[u] == Bucket(legs, u)
    ensures total == TotalLoss(m, legs, scenarios)
  {
    total := 0.0;
    var todo := buckets.Keys;
    while todo != {}
      invariant todo <= buckets.Keys
      invariant total + RSum(LossesOf(m, legs, scenarios, todo)) == TotalLoss(m, legs, scenarios)
      decreases |todo|
    {
      var u :| u in todo;
      LossesDrop(m, legs, scenarios, todo, u);
      var loss := BucketLosses(m, buckets[u], scenarios);
      total := total + loss;
      todo := todo - {u};
    }
  }

  method ShortMark<K>(m: Market, legs: map<K, Leg>) returns (total: real)
    ensures total == RSum(ShortMarks(m, legs))
  {
    total := 0.0;
    var todo := legs;
    while todo != map[]
      invariant total + RSum(ShortMarks(m, todo)) == RSum(ShortMarks(m, legs))
      decreases |todo|
    {
      var k :| k in todo;
      RSumRemove(ShortMarks(m, todo), k);
      assert ShortMarks(m, todo) - {k} == ShortMarks(m, todo - {k});
      if todo[k].q < 0.0 {
        total := total - LegValue(m, todo[k], None);
      }
      todo := todo - {k};
    }
  }

  method AccountRisk<K>(m: Market, cash: real, legs: map<K, Leg>) returns (r: Risk)
    ensures r == RiskOf(m, cash, legs)
  {
    var value := SumValues(m, legs, None);
    var buckets := GroupByUnderlying(legs);
    var lossIm := SumLosses(m, legs, buckets, m.params.imSet + m.params.mmSet);
    var lossMm := SumLosses(m, legs, buckets, m.params.mmSet);
    var shortMark := ShortMark(m, legs);
    var buffer := Buffer(m.params, shortMark);
    r := Risk(cash + value, lossIm + buffer, lossMm, lossIm, lossMm, buffer);
  }

  // ---------------------------------------------------------------------------------------------------------
  // Properties
  // ---------------------------------------------------------------------------------------------------------

  ghost function ValueAt<K>(m: Market, legs: map<K, Leg>, k: K, sc: Option<Scenario>): real {
    if k in legs then LegValue(m, legs[k], sc) else 0.0
  }

  lemma {:induction false} BookValueSplit<K>(m: Market, legs: map<K, Leg>, k: K, sc: Option<Scenario>)
    ensures BookValue(m, legs, sc) == ValueAt(m, legs, k, sc) + BookValue(m, legs - {k}, sc)
  {
    RSumDrop(Values(m, legs, sc), k);
    assert Values(m, legs, sc) - {k} == Values(m, legs - {k}, sc);
  }

  lemma {:induction false} LossesDrop<K>(m: Market, legs: map<K, Leg>, scenarios: seq<Scenario>,
      us: set<Underlying>, u: Underlying)
    requires u in us
    ensures RSum(LossesOf(m, legs, scenarios, us))
         == WorstLoss(m, Bucket(legs, u), scenarios) + RSum(LossesOf(m, legs, scenarios, us - {u}))
  {
    var losses := LossesOf(m, legs, scenarios, us);
    RSumRemove(losses, u);
    assert losses - {u} == LossesOf(m, legs, scenarios, us - {u});
  }

  /** `WorstLoss` is the maximum it is meant to be: the least bound of zero and every scenario's loss. */
  lemma {:induction false} WorstLossAtMost<K>(m: Market, bucket: map<K, Leg>, scenarios: seq<Scenario>, x: real)
    ensures WorstLoss(m, bucket, scenarios) <= x <==>
      0.0 <= x && forall sc :: sc in scenarios ==>
        BookValue(m, bucket, None) - BookValue(m, bucket, Some(sc)) <= x
  {
    if |scenarios| != 0 {
      var n := |scenarios| - 1;
      WorstLossAtMost(m, bucket, scenarios[..n], x);
      assert scenarios == scenarios[..n] + [scenarios[n]];
    }
  }

  /** Equity less a bucket's loss is its worst outcome: the book's value now or in the worst scenario. */
  lemma {:induction false} FloorIsWorstOutcome<K>(m: Market, bucket: map<K, Leg>, scenarios: seq<Scenario>, x: real)
    ensures x <= BookValue(m, bucket, None) - WorstLoss(m, bucket, scenarios) <==>
      x <= BookValue(m, bucket, None) && forall sc :: sc in scenarios ==> x <= BookValue(m, bucket, Some(sc))
  {
    WorstLossAtMost(m, bucket, scenarios, BookValue(m, bucket, None) - x);
  }

  /** INV-14: IM is taken over both stress sets and a non-negative buffer, so it never falls below MM. */
  lemma {:induction false} MmAtMostIm<K>(m: Market, cash: real, legs: map<K, Leg>)
    requires NonNegative(m.black76) && SaneBook(legs)
    ensures RiskOf(m, cash, legs).mm <= RiskOf(m, cash, legs).im
    ensures 0.0 <= RiskOf(m, cash, legs).mm
  {
    var p, us := m.params, Underlyings(legs);
    var im, mm := LossesOf(m, legs, p.imSet + p.mmSet, us), LossesOf(m, legs, p.mmSet, us);
    forall u | u in us ensures 0.0 <= mm[u] <= im[u] {
      UnionAtLeast(m, Bucket(legs, u), p.imSet, p.mmSet);
    }
    RSumMonotone(mm, im);
    RSumNonNegative(mm);
    ShortMarksNonNegative(m, legs);
    BufferMonotone(p, 0.0, RSum(ShortMarks(m, legs)));
  }

  lemma {:induction false} UnionAtLeast<K>(m: Market, bucket: map<K, Leg>, im: seq<Scenario>, mm: seq<Scenario>)
    ensures 0.0 <= WorstLoss(m, bucket, mm) <= WorstLoss(m, bucket, im + mm)
  {
    WorstLossAtMost(m, bucket, im + mm, WorstLoss(m, bucket, im + mm));
    WorstLossAtMost(m, bucket, mm, WorstLoss(m, bucket, im + mm));
    WorstLossAtMost(m, bucket, mm, WorstLoss(m, bucket, mm));
  }

  lemma {:induction false} BufferMonotone(p: RiskParams, a: real, b: real)
    requires a <= b
    ensures Buffer(p, a) <= Buffer(p, b)
  {
    assert a * (p.imBufferBps as real) <= b * (p.imBufferBps as real);
  }

  lemma {:induction false} ShortMarksNonNegative<K>(m: Market, legs: map<K, Leg>)
    requires NonNegative(m.black76) && SaneBook(legs)
    ensures 0.0 <= RSum(ShortMarks(m, legs))
  {
    forall k | k in legs ensures 0.0 <= ShortMarks(m, legs)[k] {
      LegValueSign(m, legs[k], None);
    }
    RSumNonNegative(ShortMarks(m, legs));
  }

  lemma {:induction false} LegValueSign(m: Market, l: Leg, sc: Option<Scenario>)
    requires NonNegative(m.black76) && Sane(l)
    ensures l.q <= 0.0 ==> LegValue(m, l, sc) <= 0.0
    ensures 0.0 <= l.q ==> 0.0 <= LegValue(m, l, sc)
  {
    PriceNonNegative(m, l, sc);
    var unit := l.size * LegUnitPrice(m, l, sc);
    assert 0.0 <= unit;
    assert LegValue(m, l, sc) == l.q * unit;
  }

  /** A leg is worth more the longer it is, in every scenario, also where a short turns into a long. */
  lemma {:induction false} LegValueMonotone(m: Market, l: Leg, q: real, sc: Option<Scenario>)
    requires NonNegative(m.black76) && Sane(l) && l.q <= q
    ensures LegValue(m, l, sc) <= LegValue(m, l.(q := q), sc)
  {
    hide LegUnitPrice;
    var l' := l.(q := q);
    if l.q <= 0.0 <= q {
      LegValueSign(m, l, sc);
      LegValueSign(m, l', sc);
    } else {
      PriceNonNegative(m, l, sc);
      SameSignSamePrice(m, l, q, sc);
      LongerIsMore(l.q, q, l.size, LegUnitPrice(m, l, sc), LegValue(m, l, sc), LegValue(m, l', sc));
    }
  }

  /** The price of a leg depends on which side it is on, not on how long or short it is. */
  lemma {:induction false} SameSignSamePrice(m: Market, l: Leg, q: real, sc: Option<Scenario>)
    requires (l.q < 0.0 && q < 0.0) || (0.0 < l.q && 0.0 < q)
    ensures LegUnitPrice(m, l.(q := q), sc) == LegUnitPrice(m, l, sc)
  {
  }

  lemma {:induction false} LongerIsMore(a: real, b: real, size: real, price: real, va: real, vb: real)
    requires a <= b && 0.0 <= size && 0.0 <= price
    requires va == a * size * price && vb == b * size * price
    ensures va <= vb
  {
    assert a * size <= b * size;
  }

  /** `legs'` differs from `legs` in the leg `k` only, which stays in its bucket and is worth no less anywhere. */
  ghost predicate Raised<K>(m: Market, legs: map<K, Leg>, legs': map<K, Leg>, k: K, u: Underlying) {
    && legs - {k} == legs' - {k}
    && (k in legs ==> legs[k].underlying == u)
    && (k in legs' ==> legs'[k].underlying == u)
    && (forall sc :: ValueAt(m, legs, k, sc) <= ValueAt(m, legs', k, sc))
  }

  ghost function Gain<K>(m: Market, legs: map<K, Leg>, legs': map<K, Leg>, k: K): real {
    ValueAt(m, legs', k, None) - ValueAt(m, legs, k, None)
  }

  lemma {:induction false} RaisedBucketLoss<K>(m: Market, b: map<K, Leg>, b': map<K, Leg>, k: K,
      scenarios: seq<Scenario>)
    requires b - {k} == b' - {k}
    requires forall sc :: ValueAt(m, b, k, sc) <= ValueAt(m, b', k, sc)
    ensures WorstLoss(m, b', scenarios) <= WorstLoss(m, b, scenarios) + Gain(m, b, b', k)
  {
    var x, gain := WorstLoss(m, b, scenarios), Gain(m, b, b', k);
    WorstLossAtMost(m, b, scenarios, x);
    BookValueSplit(m, b, k, None);
    BookValueSplit(m, b', k, None);
    forall sc | sc in scenarios
      ensures BookValue(m, b', None) - BookValue(m, b', Some(sc)) <= x + gain
    {
      BookValueSplit(m, b, k, Some(sc));
      BookValueSplit(m, b', k, Some(sc));
      assert ValueAt(m, b, k, Some(sc)) <= ValueAt(m, b', k, Some(sc));
    }
    WorstLossAtMost(m, b', scenarios, x + gain);
  }

  /** The loss over every underlying, `u` singled out (its bucket may be empty and then loses nothing). */
  lemma {:induction false} TotalLossSplit<K>(m: Market, legs: map<K, Leg>, scenarios: seq<Scenario>, u: Underlying)
    ensures TotalLoss(m, legs, scenarios)
         == WorstLoss(m, Bucket(legs, u), scenarios)
          + RSum(LossesOf(m, legs, scenarios, Underlyings(legs) - {u}))
  {
    if u in Underlyings(legs) {
      LossesDrop(m, legs, scenarios, Underlyings(legs), u);
    } else {
      assert Bucket(legs, u) == map[];
      EmptyLosesNothing(m, Bucket(legs, u), scenarios);
      assert Underlyings(legs) - {u} == Underlyings(legs);
    }
  }

  lemma {:induction false} EmptyLosesNothing<K>(m: Market, bucket: map<K, Leg>, scenarios: seq<Scenario>)
    requires bucket == map[]
    ensures WorstLoss(m, bucket, scenarios) == 0.0
  {
    forall sc ensures BookValue(m, bucket, sc) == 0.0 {
      assert Values(m, bucket, sc) == map[];
    }
    WorstLossAtMost(m, bucket, scenarios, 0.0);
    WorstLossAtMost(m, bucket, scenarios, WorstLoss(m, bucket, scenarios));
  }

  lemma {:induction false} RaisedTotalLoss<K>(m: Market, legs: map<K, Leg>, legs': map<K, Leg>, k: K, u: Underlying,
      scenarios: seq<Scenario>)
    requires Raised(m, legs, legs', k, u)
    ensures TotalLoss(m, legs', scenarios) <= TotalLoss(m, legs, scenarios) + Gain(m, legs, legs', k)
  {
    var b, b' := Bucket(legs, u), Bucket(legs', u);
    BucketDrop(legs, k, u);
    BucketDrop(legs', k, u);
    forall sc ensures ValueAt(m, b, k, sc) == ValueAt(m, legs, k, sc)
      && ValueAt(m, b', k, sc) == ValueAt(m, legs', k, sc) {
    }
    RaisedBucketLoss(m, b, b', k, scenarios);
    TotalLossSplit(m, legs, scenarios, u);
    TotalLossSplit(m, legs', scenarios, u);
    OtherLosses(m, legs, legs', k, u, scenarios);
  }

  lemma {:induction false} OtherLosses<K>(m: Market, legs: map<K, Leg>, legs': map<K, Leg>, k: K, u: Underlying,
      scenarios: seq<Scenario>)
    requires legs - {k} == legs' - {k}
    requires (k in legs ==> legs[k].underlying == u) && (k in legs' ==> legs'[k].underlying == u)
    ensures LossesOf(m, legs, scenarios, Underlyings(legs) - {u})
         == LossesOf(m, legs', scenarios, Underlyings(legs') - {u})
  {
    OtherBuckets(legs, legs', k, u);
  }

  lemma {:induction false} BucketDrop<K>(legs: map<K, Leg>, k: K, u: Underlying)
    ensures Bucket(legs, u) - {k} == Bucket(legs - {k}, u)
  {
  }

  lemma {:induction false} UnderlyingsDrop<K>(legs: map<K, Leg>, k: K, u: Underlying)
    requires k in legs ==> legs[k].underlying == u
    ensures Underlyings(legs) - {u} == Underlyings(legs - {k}) - {u}
  {
    var rest := legs - {k};
    forall v | v in Underlyings(legs) - {u} ensures v in Underlyings(rest) {
      var j :| j in legs && legs[j].underlying == v;
      assert j in rest && rest[j].underlying == v;
    }
    forall v | v in Underlyings(rest) ensures v in Underlyings(legs) {
      var j :| j in rest && rest[j].underlying == v;
      assert j in legs && legs[j].underlying == v;
    }
  }

  lemma {:induction false} OtherBuckets<K>(legs: map<K, Leg>, legs': map<K, Leg>, k: K, u: Underlying)
    requires legs - {k} == legs' - {k}
    requires (k in legs ==> legs[k].underlying == u) && (k in legs' ==> legs'[k].underlying == u)
    ensures Underlyings(legs) - {u} == Underlyings(legs') - {u}
    ensures forall v :: v != u ==> Bucket(legs, v) == Bucket(legs', v)
  {
    var rest := legs - {k};
    UnderlyingsDrop(legs, k, u);
    UnderlyingsDrop(legs', k, u);
    forall v | v != u ensures Bucket(legs, v) == Bucket(legs', v) {
      assert Bucket(legs, v) == Bucket(rest, v) == Bucket(legs', v);
    }
  }

  /** INV-13: a step that only raises one leg lowers neither equity - IM nor equity - MM. */
  lemma {:induction false} RaisingALegKeepsHealth<K>(m: Market, cash: real, legs: map<K, Leg>, legs': map<K, Leg>,
      k: K, u: Underlying)
    requires NonNegative(m.black76) && SaneBook(legs) && SaneBook(legs')
    requires Raised(m, legs, legs', k, u)
    requires ShortMarkAt(m, legs', k) <= ShortMarkAt(m, legs, k)
    ensures var r, r' := RiskOf(m, cash, legs), RiskOf(m, cash, legs');
      r.equity - r.im <= r'.equity - r'.im && r.equity - r.mm <= r'.equity - r'.mm
  {
    RaisedTotalLoss(m, legs, legs', k, u, m.params.imSet + m.params.mmSet);
    RaisedTotalLoss(m, legs, legs', k, u, m.params.mmSet);
    BookValueSplit(m, legs, k, None);
    BookValueSplit(m, legs', k, None);
    ShortMarksSplit(m, legs, k);
    ShortMarksSplit(m, legs', k);
    BufferMonotone(m.params, RSum(ShortMarks(m, legs')), RSum(ShortMarks(m, legs)));
  }

  ghost function ShortMarkAt<K>(m: Market, legs: map<K, Leg>, k: K): real {
    if k in legs && legs[k].q < 0.0 then -LegValue(m, legs[k], None) else 0.0
  }

  lemma {:induction false} ShortMarksSplit<K>(m: Market, legs: map<K, Leg>, k: K)
    ensures RSum(ShortMarks(m, legs)) == ShortMarkAt(m, legs, k) + RSum(ShortMarks(m, legs - {k}))
  {
    RSumDrop(ShortMarks(m, legs), k);
    assert ShortMarks(m, legs) - {k} == ShortMarks(m, legs - {k});
  }

  ghost function Scaled<K>(legs: map<K, Leg>, c: real): map<K, Leg> {
    map k | k in legs :: legs[k].(q := c * legs[k].q)
  }

  lemma {:induction false} LegValueScales(m: Market, l: Leg, c: real, sc: Option<Scenario>)
    requires 0.0 <= c
    ensures Times(c)(LegValue(m, l, sc), LegValue(m, l.(q := c * l.q), sc))
  {
    var l', price := l.(q := c * l.q), LegUnitPrice(m, l, sc);
    if c * l.q == 0.0 {
      assert LegValue(m, l', sc) == 0.0;
      assert c == 0.0 || l.q == 0.0;
    } else {
      assert (l.q < 0.0 && c * l.q < 0.0) || (0.0 < l.q && 0.0 < c * l.q);
      SameSignSamePrice(m, l, c * l.q, sc);
      assert (c * l.q) * l.size * price == c * (l.q * l.size * price);
    }
  }

  lemma {:induction false} ScaledValue<K>(m: Market, legs: map<K, Leg>, c: real, sc: Option<Scenario>, k: K)
    requires 0.0 <= c && k in legs
    ensures Times(c)(Values(m, legs, sc)[k], Values(m, Scaled(legs, c), sc)[k])
  {
    LegValueScales(m, legs[k], c, sc);
    assert k in Scaled(legs, c) && Scaled(legs, c)[k] == legs[k].(q := c * legs[k].q);
  }

  lemma {:induction false} BookValueScales<K>(m: Market, legs: map<K, Leg>, c: real, sc: Option<Scenario>)
    requires 0.0 <= c
    ensures Times(c)(BookValue(m, legs, sc), BookValue(m, Scaled(legs, c), sc))
  {
    var a, b := Values(m, legs, sc), Values(m, Scaled(legs, c), sc);
    forall k | k in a ensures Times(c)(a[k], b[k]) {
      ScaledValue(m, legs, c, sc, k);
    }
    RSumScale(a, c, b);
  }

  lemma {:induction false} WorstLossScales<K>(m: Market, bucket: map<K, Leg>, c: real, scenarios: seq<Scenario>)
    requires 0.0 <= c
    ensures Times(c)(WorstLoss(m, bucket, scenarios), WorstLoss(m, Scaled(bucket, c), scenarios))
  {
    if |scenarios| == 0 {
      assert c * 0.0 == 0.0;
    } else {
      var n := |scenarios| - 1;
      var sc := Some(scenarios[n]);
      WorstLossScales(m, bucket, c, scenarios[..n]);
      BookValueScales(m, bucket, c, None);
      BookValueScales(m, bucket, c, sc);
      var b := Scaled(bucket, c);
      MaxScales(c, WorstLoss(m, bucket, scenarios[..n]), BookValue(m, bucket, None), BookValue(m, bucket, sc),
        WorstLoss(m, b, scenarios[..n]), BookValue(m, b, None), BookValue(m, b, sc));
    }
  }

  lemma {:induction false} MaxScales(c: real, x: real, base: real, v: real, x': real, base': real, v': real)
    requires 0.0 <= c
    requires Times(c)(x, x') && Times(c)(base, base') && Times(c)(v, v')
    ensures Times(c)(MaxR(x, base - v), MaxR(x', base' - v'))
  {
    var d := base - v;
    assert base' - v' == c * d;
    if x < d {
      assert c * x <= c * d;
    } else {
      assert c * d <= c * x;
    }
  }

  /** INV-41: scaling every position by a non-negative factor scales the losses, hence MM and the loss part of IM. */
  lemma {:induction false} LossesScale<K>(m: Market, legs: map<K, Leg>, c: real, scenarios: seq<Scenario>)
    requires 0.0 <= c
    ensures Times(c)(TotalLoss(m, legs, scenarios), TotalLoss(m, Scaled(legs, c), scenarios))
  {
    var us := Underlyings(legs);
    var losses, losses' := LossesOf(m, legs, scenarios, us), LossesOf(m, Scaled(legs, c), scenarios, us);
    forall u | u in us ensures Times(c)(losses[u], losses'[u]) {
      BucketLossScales(m, legs, c, scenarios, u);
    }
    RSumScale(losses, c, losses');
    ScaledUnderlyings(legs, c);
  }

  /** INV-41 for the margins: IM, the buffer on short marks included, MM and the value of the legs scale alike. */
  lemma {:induction false} MarginsScale<K>(m: Market, cash: real, legs: map<K, Leg>, c: real)
    requires 0.0 <= c
    ensures var r, r' := RiskOf(m, cash, legs), RiskOf(m, cash, Scaled(legs, c));
      Times(c)(r.im, r'.im) && Times(c)(r.mm, r'.mm) && Times(c)(r.equity - cash, r'.equity - cash)
  {
    hide TotalLoss, BookValue, Scaled, Buffer, ShortMarks;
    var p := m.params;
    LossesScale(m, legs, c, p.imSet + p.mmSet);
    LossesScale(m, legs, c, p.mmSet);
    BookValueScales(m, legs, c, None);
    ShortMarksScale(m, legs, c);
    BufferScales(p, c, RSum(ShortMarks(m, legs)), RSum(ShortMarks(m, Scaled(legs, c))));
    var r := RiskOf(m, cash, legs);
    assert c * r.im == c * r.lossIm + c * r.buffer;
  }

  lemma {:induction false} ShortMarksScale<K>(m: Market, legs: map<K, Leg>, c: real)
    requires 0.0 <= c
    ensures Times(c)(RSum(ShortMarks(m, legs)), RSum(ShortMarks(m, Scaled(legs, c))))
  {
    var a, b := ShortMarks(m, legs), ShortMarks(m, Scaled(legs, c));
    forall k | k in a ensures Times(c)(a[k], b[k]) {
      ShortMarkScales(m, legs, c, k);
    }
    RSumScale(a, c, b);
  }

  lemma {:induction false} ShortMarkScales<K>(m: Market, legs: map<K, Leg>, c: real, k: K)
    requires 0.0 <= c && k in legs
    ensures k in Scaled(legs, c)
    ensures Times(c)(ShortMarks(m, legs)[k], ShortMarks(m, Scaled(legs, c))[k])
  {
    var l := legs[k];
    LegValueScales(m, l, c, None);
    assert k in Scaled(legs, c) && Scaled(legs, c)[k] == l.(q := c * l.q);
    hide LegValue;
    if l.q < 0.0 && c * l.q < 0.0 {
      assert -(c * LegValue(m, l, None)) == c * -LegValue(m, l, None);
    } else if l.q < 0.0 {
      assert c == 0.0;
    } else {
      assert 0.0 <= c * l.q;
    }
  }

  lemma {:induction false} BufferScales(p: RiskParams, c: real, x: real, y: real)
    requires Times(c)(x, y)
    ensures Times(c)(Buffer(p, x), Buffer(p, y))
  {
    var b := p.imBufferBps as real;
    assert y == c * x;
    assert c * x * b == c * (x * b);
    assert c * (x * b) / (BPS as real) == c * (x * b / (BPS as real));
  }

  lemma {:induction false} BucketLossScales<K>(m: Market, legs: map<K, Leg>, c: real, scenarios: seq<Scenario>,
      u: Underlying)
    requires 0.0 <= c
    ensures Times(c)(WorstLoss(m, Bucket(legs, u), scenarios), WorstLoss(m, Bucket(Scaled(legs, c), u), scenarios))
  {
    WorstLossScales(m, Bucket(legs, u), c, scenarios);
    ScaledBucket(legs, c, u);
  }

  lemma {:induction false} ScaledBucket<K>(legs: map<K, Leg>, c: real, u: Underlying)
    ensures Bucket(Scaled(legs, c), u) == Scaled(Bucket(legs, u), c)
  {
    var left, right := Bucket(Scaled(legs, c), u), Scaled(Bucket(legs, u), c);
    forall k ensures k in left <==> k in right {
      assert k in Scaled(legs, c) ==> Scaled(legs, c)[k].underlying == legs[k].underlying;
    }
    forall k | k in left ensures left[k] == right[k] {
      assert Scaled(legs, c)[k] == legs[k].(q := c * legs[k].q);
    }
  }

  lemma {:induction false} ScaledUnderlyings<K>(legs: map<K, Leg>, c: real)
    ensures Underlyings(Scaled(legs, c)) == Underlyings(legs)
  {
    forall u | u in Underlyings(legs) ensures u in Underlyings(Scaled(legs, c)) {
      var k :| k in legs && legs[k].underlying == u;
      assert Scaled(legs, c)[k].underlying == u;
    }
    forall u | u in Underlyings(Scaled(legs, c)) ensures u in Underlyings(legs) {
      var k :| k in Scaled(legs, c) && Scaled(legs, c)[k].underlying == u;
      assert legs[k].underlying == u;
    }
  }

  /** INV-15: legs on different underlyings never offset, their losses add up exactly. */
  lemma {:induction false} LossesAddAcrossUnderlyings<K>(m: Market, a: map<K, Leg>, b: map<K, Leg>,
      scenarios: seq<Scenario>)
    requires a.Keys !! b.Keys && Underlyings(a) !! Underlyings(b)
    ensures TotalLoss(m, a + b, scenarios) == TotalLoss(m, a, scenarios) + TotalLoss(m, b, scenarios)
  {
    var la, lb := LossesOf(m, a, scenarios, Underlyings(a)), LossesOf(m, b, scenarios, Underlyings(b));
    var lab := LossesOf(m, a + b, scenarios, Underlyings(a + b));
    JoinedUnderlyings(a, b);
    forall u | u in Underlyings(a) ensures lab[u] == la[u] {
      OnlyIn(a, b, u);
    }
    forall u | u in Underlyings(b) ensures lab[u] == lb[u] {
      OnlyIn(b, a, u);
    }
    RSumParts(lab, la, lb);
  }

  lemma {:induction false} OnlyIn<K>(a: map<K, Leg>, b: map<K, Leg>, u: Underlying)
    requires a.Keys !! b.Keys && u !in Underlyings(b)
    ensures Bucket(a + b, u) == Bucket(a, u) == Bucket(b + a, u)
  {
    assert forall k :: k in b ==> b[k].underlying != u;
  }

  lemma {:induction false} JoinedUnderlyings<K>(a: map<K, Leg>, b: map<K, Leg>)
    requires a.Keys !! b.Keys
    ensures Underlyings(a + b) == Underlyings(a) + Underlyings(b)
  {
    forall u | u in Underlyings(a) + Underlyings(b) ensures u in Underlyings(a + b) {
      var k :| (k in a && a[k].underlying == u) || (k in b && b[k].underlying == u);
      assert (a + b)[k].underlying == u;
    }
  }
}
