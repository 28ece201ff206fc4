/**
 * What a stress scenario means (reference/pm_model.py, `leg_unit_price`): a leg is worth in it what it would be worth
 * now if spot, volatility and time had moved. Whether a move helps depends on the pricer; here are the laws for one
 * that rises with the volatility, and with the time left, and follows the spot as a call or a put does.
 */
module Scenarios {
  import opened Basics
  import opened Sums
  import opened Margin

  /** `y` is `x` moved by `bps` ten-thousandths of itself. */
  predicate MovedBy(x: real, y: real, bps: int) {
    y * 10_000.0 == x * ((10_000 + bps) as real)
  }

  /** `y` is `x` put between `lo` and `hi`; the upper end wins if it is the lower one. */
  predicate ClampedTo(x: real, y: real, lo: real, hi: real) {
    && y <= hi && (y < hi ==> lo <= y)
    && (y < x ==> y == hi) && (x < y ==> y == lo || (y == hi && hi < lo))
  }

  /** The volatility that a leg is priced with: that of its side if the surface is stale. */
  predicate PricedWith(l: Leg, vol: real) {
    && (l.q < 0.0 && l.sigmaShort.Some? ==> vol == l.sigmaShort.value)
    && (0.0 < l.q && l.sigmaLong.Some? ==> vol == l.sigmaLong.value)
    && ((l.q <= 0.0 || l.sigmaLong.None?) && (0.0 <= l.q || l.sigmaShort.None?) ==> vol == l.sigma)
  }

  /** The moment to which a scenario moves the clock of a leg: no more than an hour or so to expiry, or time gone by. */
  predicate MovesClock(p: RiskParams, s: Scenario, expiry: real, now: real, now': real) {
    if s.timeMode == 1 then now' == MaxR(now, expiry - p.nearExpiryFloor)
    else if s.timeMode == 2 then now' == now + s.shift
    else now' == now
  }

  /** The market in which one underlying and the clock have moved. */
  function MovedMarket(m: Market, spot: real, now: real): Market {
    m.(spots := (u: Underlying) => spot, now := now)
  }

  /** The leg with a single volatility. */
  function WithVol(l: Leg, vol: real): Leg {
    l.(sigma := vol, sigmaShort := None, sigmaLong := None)
  }

  /** A scenario's price is today's price in the moved market. */
  lemma {:induction false} ScenarioIsMarketMove(m: Market, l: Leg, s: Scenario, spot: real, vol: real, raw: real,
      moved: real, now: real)
    requires MovedBy(m.spots(l.underlying), spot, s.spotBps)
    requires PricedWith(l, vol) && MovedBy(vol, raw, s.volBps) && ClampedTo(raw, moved, m.params.minIv, m.params.maxIv)
    requires MovesClock(m.params, s, l.expiry, m.now, now)
    requires s.timeMode == 1 ==> 0.0 <= m.params.nearExpiryFloor
    requires s.timeMode == 2 ==> 0.0 <= s.shift || m.now <= l.expiry
    ensures LegUnitPrice(m, l, Some(s)) == LegUnitPrice(MovedMarket(m, spot, now), WithVol(l, moved), None)
    ensures LegValue(m, l, Some(s)) == LegValue(MovedMarket(m, spot, now), WithVol(l, moved), None)
  {
    assert StressedSpot(m.spots(l.underlying), s) == spot;
    assert StressedVol(m.params, SideVol(l), s) == moved;
    ClockIsStress(m, s, l.expiry, now);
  }

  lemma {:induction false} ClockIsStress(m: Market, s: Scenario, expiry: real, now: real)
    requires MovesClock(m.params, s, expiry, m.now, now)
    requires s.timeMode == 1 ==> 0.0 <= m.params.nearExpiryFloor
    requires s.timeMode == 2 ==> 0.0 <= s.shift || m.now <= expiry
    ensures StressedTime(m.params, TimeLeft(m, expiry), s) == TimeLeft(m.(now := now), expiry)
  {
  }

  /** Call and put are each the other's complement: one of them pays nothing, and they differ by spot less strike. */
  lemma {:induction false} PayoffParity(s: real, k: real)
    ensures var call, put := Intrinsic(true, s, k), Intrinsic(false, s, k);
      0.0 <= call && 0.0 <= put && (call == 0.0 || put == 0.0) && call - put == s - k
  {
  }

  /** Today's price, from what is known of the leg, for `t` years left. */
  lemma {:induction false} PresentPrice(m: Market, l: Leg, vol: real, t: real)
    requires PricedWith(l, vol) && t * 31_536_000.0 == MaxR(l.expiry - m.now, 0.0)
    ensures var spot, p := m.spots(l.underlying), LegUnitPrice(m, l, None);
      if l.finalizedPayoff.Some? then p == l.finalizedPayoff.value
      else if 0.0 < l.q && l.longIntrinsicOnly then p == Intrinsic(l.isCall, spot, l.strike)
      else p == m.black76(l.isCall, spot, l.strike, vol, t)
    ensures LegValue(m, l, None) == l.q * l.size * LegUnitPrice(m, l, None)
  {
    assert SideVol(l) == vol && TimeLeft(m, l.expiry) == t;
  }

  // ---------------------------------------------------------------------------------------------------------
  // Which way a scenario goes
  // ---------------------------------------------------------------------------------------------------------

  ghost predicate RisesWithVol(black76: Pricer) {
    forall c, f, k, v, v', t {:trigger black76(c, f, k, v, t), black76(c, f, k, v', t)} ::
      v <= v' ==> black76(c, f, k, v, t) <= black76(c, f, k, v', t)
  }

  ghost predicate RisesWithTime(black76: Pricer) {
    forall c, f, k, v, t, t' {:trigger black76(c, f, k, v, t), black76(c, f, k, v, t')} ::
      t <= t' ==> black76(c, f, k, v, t) <= black76(c, f, k, v, t')
  }

  /** A call rises with the spot, a put falls. */
  ghost predicate FollowsSpot(black76: Pricer) {
    forall c, f, f', k, v, t {:trigger black76(c, f, k, v, t), black76(c, f', k, v, t)} :: f <= f' ==>
      if c then black76(c, f, k, v, t) <= black76(c, f', k, v, t) else black76(c, f', k, v, t) <= black76(c, f, k, v, t)
  }

  /** The volatility is one that the clamps leave alone. */
  predicate WithinClamps(p: RiskParams, vol: real) {
    0.0 <= vol && p.minIv <= vol <= p.maxIv
  }

  /** A scenario that moves nothing leaves the price. */
  lemma {:induction false} NoMoveNoChange(m: Market, l: Leg, s: Scenario, vol: real)
    requires PricedWith(l, vol) && WithinClamps(m.params, vol)
    requires s.spotBps == 0 && s.volBps == 0 && s.timeMode != 1 && (s.timeMode == 2 ==> s.shift == 0.0)
    ensures LegUnitPrice(m, l, Some(s)) == LegUnitPrice(m, l, None)
  {
    assert StressedTime(m.params, TimeLeft(m, l.expiry), s) == TimeLeft(m, l.expiry);
    assert StressedSpot(m.spots(l.underlying), s) == m.spots(l.underlying);
    assert StressedVol(m.params, SideVol(l), s) == vol == SideVol(l);
  }

  /**
   * More volatility makes a leg dearer, less makes it cheaper: a short loses in the first case, a long in the second.
   */
  lemma {:induction false} VolScenario(m: Market, l: Leg, s: Scenario, vol: real)
    requires RisesWithVol(m.black76) && PricedWith(l, vol) && WithinClamps(m.params, vol)
    requires s.spotBps == 0 && s.timeMode == 0
    ensures 0 <= s.volBps ==> LegUnitPrice(m, l, None) <= LegUnitPrice(m, l, Some(s))
    ensures s.volBps <= 0 ==> LegUnitPrice(m, l, Some(s)) <= LegUnitPrice(m, l, None)
  {
    assert StressedSpot(m.spots(l.underlying), s) == m.spots(l.underlying);
    VolMoves(m.params, vol, s);
    assert SideVol(l) == vol;
  }

  lemma {:induction false} VolMoves(p: RiskParams, vol: real, s: Scenario)
    requires WithinClamps(p, vol)
    ensures 0 <= s.volBps ==> vol <= StressedVol(p, vol, s)
    ensures s.volBps <= 0 ==> StressedVol(p, vol, s) <= vol
  {
    var raw := vol * ((BPS + s.volBps) as real) / 10_000.0;
    assert raw * 10_000.0 == vol * 10_000.0 + vol * (s.volBps as real);
    if 0 <= s.volBps {
      ProductNonNegative(vol, s.volBps as real);
    } else {
      ProductNonNegative(vol, (-s.volBps) as real);
      assert vol * (s.volBps as real) == -(vol * ((-s.volBps) as real));
    }
  }

  /** A higher spot makes a call dearer and a put cheaper, also where a long counts for its payoff only. */
  lemma {:induction false} SpotScenario(m: Market, l: Leg, s: Scenario, vol: real)
    requires FollowsSpot(m.black76) && PricedWith(l, vol) && WithinClamps(m.params, vol)
    requires 0.0 <= m.spots(l.underlying) && s.volBps == 0 && s.timeMode == 0
    ensures var today, moved := LegUnitPrice(m, l, None), LegUnitPrice(m, l, Some(s));
      && (0 <= s.spotBps ==> if l.isCall then today <= moved else moved <= today)
      && (s.spotBps <= 0 ==> if l.isCall then moved <= today else today <= moved)
  {
    var spot := m.spots(l.underlying);
    SpotMoves(spot, s);
    VolStays(m.params, vol, s);
    assert SideVol(l) == vol;
  }

  lemma {:induction false} SpotMoves(spot: real, s: Scenario)
    requires 0.0 <= spot
    ensures 0 <= s.spotBps ==> spot <= StressedSpot(spot, s)
    ensures s.spotBps <= 0 ==> StressedSpot(spot, s) <= spot
  {
    var moved := StressedSpot(spot, s);
    assert moved * 10_000.0 == spot * 10_000.0 + spot * (s.spotBps as real);
    if 0 <= s.spotBps {
      ProductNonNegative(spot, s.spotBps as real);
    } else {
      ProductNonNegative(spot, (-s.spotBps) as real);
      assert spot * (s.spotBps as real) == -(spot * ((-s.spotBps) as real));
    }
  }

  lemma {:induction false} VolStays(p: RiskParams, vol: real, s: Scenario)
    requires WithinClamps(p, vol) && s.volBps == 0
    ensures StressedVol(p, vol, s) == vol
  {
  }

  /** Less time makes a leg cheaper: near expiry, or after time has gone by. */
  lemma {:induction false} TimeScenario(m: Market, l: Leg, s: Scenario, vol: real)
    requires RisesWithTime(m.black76) && PricedWith(l, vol) && WithinClamps(m.params, vol)
    requires s.spotBps == 0 && s.volBps == 0 && (s.timeMode == 2 ==> 0.0 <= s.shift)
    ensures LegUnitPrice(m, l, Some(s)) <= LegUnitPrice(m, l, None)
  {
    assert StressedSpot(m.spots(l.underlying), s) == m.spots(l.underlying);
    VolStays(m.params, vol, s);
    assert SideVol(l) == vol;
    assert StressedTime(m.params, TimeLeft(m, l.expiry), s) <= TimeLeft(m, l.expiry);
  }

  // ---------------------------------------------------------------------------------------------------------
  // An account's margin from the values of its book
  // ---------------------------------------------------------------------------------------------------------

  function Longs<K>(legs: map<K, Leg>): map<K, Leg> {
    map k | k in legs && 0.0 <= legs[k].q :: legs[k]
  }

  /** `x` bounds every loss of a book in the scenarios, and is not negative. */
  ghost predicate BoundsLosses<K>(m: Market, legs: map<K, Leg>, scenarios: seq<Scenario>, x: real) {
    0.0 <= x && forall s :: s in scenarios ==> BookValue(m, legs, None) - BookValue(m, legs, Some(s)) <= x
  }

  /**
   * With one underlying, MM is the least bound of the losses in the MM set, and IM that in both sets and the buffer.
   */
  lemma {:induction false} MarginsOfOneUnderlying<K>(m: Market, cash: real, legs: map<K, Leg>, u: Underlying, x: real)
    requires forall k :: k in legs ==> legs[k].underlying == u
    ensures var r, p := RiskOf(m, cash, legs), m.params;
      && (r.mm <= x <==> BoundsLosses(m, legs, p.mmSet, x))
      && (r.im - r.buffer <= x <==> BoundsLosses(m, legs, p.imSet + p.mmSet, x))
  {
    OneBucket(m, legs, u, m.params.mmSet);
    OneBucket(m, legs, u, m.params.imSet + m.params.mmSet);
    WorstLossAtMost(m, legs, m.params.mmSet, x);
    WorstLossAtMost(m, legs, m.params.imSet + m.params.mmSet, x);
  }

  lemma {:induction false} OneBucket<K>(m: Market, legs: map<K, Leg>, u: Underlying, scenarios: seq<Scenario>)
    requires forall k :: k in legs ==> legs[k].underlying == u
    ensures TotalLoss(m, legs, scenarios) == WorstLoss(m, legs, scenarios)
  {
    var losses := LossesOf(m, legs, scenarios, Underlyings(legs));
    if legs == map[] {
      assert losses == map[];
      EmptyBookLosesNothing(m, legs, scenarios);
    } else {
      var k :| k in legs;
      assert legs[k].underlying in Underlyings(legs);
      assert Underlyings(legs) == {u} && Bucket(legs, u) == legs;
      RSumRemove(losses, u);
      assert losses - {u} == map[];
    }
  }

  lemma {:induction false} EmptyBookLosesNothing<K>(m: Market, legs: map<K, Leg>, scenarios: seq<Scenario>)
    requires legs == map[]
    ensures WorstLoss(m, legs, scenarios) == 0.0
  {
    forall s ensures BookValue(m, legs, s) == 0.0 {
      assert Values(m, legs, s) == map[];
    }
    WorstLossAtMost(m, legs, scenarios, 0.0);
    WorstLossAtMost(m, legs, scenarios, WorstLoss(m, legs, scenarios));
  }

  /** Equity is cash and the value of the book; the buffer is its share of what closing the shorts would cost. */
  lemma {:induction false} EquityAndBuffer<K>(m: Market, cash: real, legs: map<K, Leg>)
    ensures var r := RiskOf(m, cash, legs);
      && r.equity == cash + BookValue(m, legs, None)
      && r.buffer * 10_000.0
           == (BookValue(m, Longs(legs), None) - BookValue(m, legs, None)) * (m.params.imBufferBps as real)
  {
    ShortsAreTheRest(m, legs);
  }

  lemma {:induction false} ShortsAreTheRest<K>(m: Market, legs: map<K, Leg>)
    ensures BookValue(m, Longs(legs), None) == BookValue(m, legs, None) + RSum(ShortMarks(m, legs))
  {
    var all, longs, marks := Values(m, legs, None), Values(m, Longs(legs), None), ShortMarks(m, legs);
    var each := map k | k in legs :: GetR(longs, k);
    RSumParts(each, all, marks);
    RSumParts(each, longs, map[]);
  }
}
