/**
 * The protocol as reference/pm_model.py and reference/verify_invariants.py set it up - fees, lot, scenario sets,
 * buffer - with three accounts and three calls, and what margin its books need. All prices are intrinsic values: what
 * Black-76 gives one second before expiry, away from the strike.
 */
module Scene {
  import opened Basics
  import opened Sums
  import opened Tables
  import opened Clearing
  import Margin
  import Liquidation

  function SpotsIm(): seq<int> {
    [-5000, -3000, -1500, 0, 1500, 3000, 5000, 10000]
  }

  function SpotsMm(): seq<int> {
    [-3000, -1500, 0, 1500, 3000, 5000]
  }

  function ScenariosAt(spots: seq<int>, volBps: int, timeMode: int): (r: seq<Margin.Scenario>)
    ensures forall sc :: sc in r ==> sc.spotBps in spots
    ensures forall bps :: bps in spots ==> Margin.Scenario(bps, volBps, timeMode, 0.0) in r
  {
    if spots == [] then []
    else [Margin.Scenario(spots[0], volBps, timeMode, 0.0)] + ScenariosAt(spots[1..], volBps, timeMode)
  }

  function ImSet(): seq<Margin.Scenario> {
    ScenariosAt(SpotsIm(), -3000, 0) + ScenariosAt(SpotsIm(), 7500, 0) + ScenariosAt(SpotsIm(), 0, 1)
  }

  function MmSet(): seq<Margin.Scenario> {
    ScenariosAt(SpotsMm(), -3000, 0) + ScenariosAt(SpotsMm(), 3000, 0)
  }

  function Defaults(): Margin.RiskParams {
    Margin.RiskParams(ImSet(), MmSet(), 500, 0.1, 5.0, 3600.0)
  }

  const LOT: nat := 10_000_000_000_000_000
  const DAY: int := 86_400

  function Price(isCall: bool, spot: real, strike: real, sigma: real, t: real): real {
    Margin.Intrinsic(isCall, spot, strike)
  }

  /** What the parts of the protocol are called: two calls on one underlying, one on another, a writer, a liquidator. */
  datatype Names = Names(
    near: Sid, far: Sid, other: Sid, g: Gid, h: Gid, writer: Owner, liquidator: Owner, eth: Underlying, btc: Underlying)

  predicate Apart(n: Names) {
    n.near != n.far && n.near != n.other && n.far != n.other && n.g != n.h && n.writer != n.liquidator && n.eth != n.btc
  }

  function SeriesMap(n: Names): map<Sid, Series> {
    map[n.near := Series(n.g, true, 4500 * WAD, WAD), n.far := Series(n.g, true, 5000 * WAD, WAD),
        n.other := Series(n.h, true, 70_000 * WAD, WAD / 100)]
  }

  function ConfigOf(n: Names): Config {
    Config(LOT, SeriesMap(n), map[n.g := Terms(n.eth, 20 * DAY), n.h := Terms(n.btc, 20 * DAY)],
      map[1 := n.writer, 2 := n.writer, 3 := n.liquidator], {n.writer, n.liquidator}, 3, Defaults(), Price)
  }

  function Quiet(n: Names): Prices {
    Prices(u => if u == n.eth then 2000.0 else 30_000.0, sid => 0.6, u => true)
  }

  function Loud(n: Names): Prices {
    Prices(u => if u == n.eth then 12_000.0 else 300_000.0, sid => 0.6, u => true)
  }

  const SOON: int := 20 * DAY - 1
  const NEAR: int := 10_000 * WAD
  const FAR: int := 10_500 * WAD
  const HEDGE: int := 20_000 * WAD

  function Spread(n: Names): Row {
    map[n.near := NEAR, n.far := -FAR]
  }

  /** Accounts are numbered from one; the wallets are the writer's and the liquidator's. */
  function ByAccount<T>(x: seq<T>): map<Aid, T>
    requires |x| == 3
  {
    map[1 := x[0], 2 := x[1], 3 := x[2]]
  }

  function ByWallet<T>(n: Names, x: seq<T>): map<Owner, T>
    requires |x| == 2
  {
    map[n.writer := x[0], n.liquidator := x[1]]
  }

  function IndexOf(n: Names, o: Owner): (r: nat)
    ensures r < 2
  {
    if o == n.writer then 0 else 1
  }

  lemma {:induction false} AccountEntry<T>(x: seq<T>, aid: Aid, v: T)
    requires |x| == 3 && 1 <= aid <= 3
    ensures ByAccount(x).Keys == {1, 2, 3} && ByAccount(x)[aid] == x[aid - 1]
    ensures ByAccount(x)[aid := v] == ByAccount(x[aid - 1 := v])
  {
  }

  lemma {:induction false} WalletEntry<T>(n: Names, x: seq<T>, o: Owner, v: T)
    requires |x| == 2 && Apart(n) && o in {n.writer, n.liquidator}
    ensures ByWallet(n, x).Keys == {n.writer, n.liquidator} && ByWallet(n, x)[o] == x[IndexOf(n, o)]
    ensures ByWallet(n, x)[o := v] == ByWallet(n, x[IndexOf(n, o) := v])
  {
  }

  /** A state of this protocol while group `h` is open. */
  function At(n: Names, now: int, prices: Prices, bal: seq<Row>, cash: seq<int>, usdc: seq<int>, wr: seq<Row>, x: Group,
      insurance: int, fees: int): State
    requires |bal| == |cash| == 3 && |usdc| == |wr| == 2
  {
    State(now, prices, ByAccount(bal), ByAccount(cash), ByWallet(n, usdc), ByWallet(n, wr),
      map[n.g := x, n.h := NEW_GROUP], insurance, fees * 30_000, fees * 10_000)
  }

  lemma {:induction false} AtIsShaped(n: Names, now: int, prices: Prices, bal: seq<Row>, cash: seq<int>, usdc: seq<int>,
      wr: seq<Row>, x: Group, insurance: int, fees: int)
    requires Apart(n) && |bal| == |cash| == 3 && |usdc| == |wr| == 2
    requires forall i :: 0 <= i < 3 ==> bal[i].Keys <= SeriesMap(n).Keys
    requires forall i :: 0 <= i < 2 ==> wr[i].Keys <= SeriesMap(n).Keys
    ensures Shaped(ConfigOf(n), At(n, now, prices, bal, cash, usdc, wr, x, insurance, fees))
  {
    hide Defaults;
  }

  // ---------------------------------------------------------------------------------------------------------
  // Margins
  // ---------------------------------------------------------------------------------------------------------

  lemma {:induction false} Scenarios()
    ensures forall sc :: sc in ImSet() + MmSet() ==> -5000 <= sc.spotBps <= 10_000
    ensures forall sc :: sc in MmSet() ==> -3000 <= sc.spotBps <= 5000
    ensures Margin.Scenario(10_000, -3000, 0, 0.0) in ImSet() && Margin.Scenario(5000, -3000, 0, 0.0) in MmSet()
  {
    hide ScenariosAt;
    assert SpotsIm()[7] == 10_000 && SpotsMm()[5] == 5000;
  }

  lemma {:induction false} ZeroSum<K>(m: map<K, real>)
    requires forall k :: k in m ==> m[k] == 0.0
    ensures RSum(m) == 0.0
  {
    RSumRelated((x, y) => x == 0.0, m, m);
  }

  /** Legs without value, now and in every scenario, need no margin. */
  lemma {:induction false} WorthlessRisk(m: Margin.Market, cash: real, legs: map<Sid, Margin.Leg>)
    requires forall k :: k in legs ==> Margin.LegValue(m, legs[k], None) == 0.0
    requires forall k, sc {:trigger Margin.LegValue(m, legs[k], Some(sc))} ::
      k in legs && sc in m.params.imSet + m.params.mmSet ==> Margin.LegValue(m, legs[k], Some(sc)) == 0.0
    ensures var r := Margin.RiskOf(m, cash, legs);
      r.equity == cash && r.im == 0.0 && r.mm == 0.0
  {
    hide Margin.LegValue;
    var p := m.params;
    ZeroSum(Margin.Values(m, legs, None));
    ZeroSum(Margin.ShortMarks(m, legs));
    WorthlessLosses(m, legs, p.imSet + p.mmSet);
    WorthlessLosses(m, legs, p.mmSet);
  }

  lemma {:induction false} WorthlessLosses(m: Margin.Market, legs: map<Sid, Margin.Leg>,
      scenarios: seq<Margin.Scenario>)
    requires forall k :: k in legs ==> Margin.LegValue(m, legs[k], None) == 0.0
    requires forall k, sc {:trigger Margin.LegValue(m, legs[k], Some(sc))} ::
      k in legs && sc in scenarios ==> Margin.LegValue(m, legs[k], Some(sc)) == 0.0
    ensures Margin.TotalLoss(m, legs, scenarios) == 0.0
  {
    hide Margin.LegValue;
    var losses := Margin.LossesOf(m, legs, scenarios, Margin.Underlyings(legs));
    forall u | u in losses ensures losses[u] == 0.0 {
      var bucket := Margin.Bucket(legs, u);
      ZeroSum(Margin.Values(m, bucket, None));
      forall sc | sc in scenarios ensures Margin.BookValue(m, bucket, Some(sc)) == 0.0 {
        ZeroSum(Margin.Values(m, bucket, Some(sc)));
      }
      Margin.WorstLossAtMost(m, bucket, scenarios, 0.0);
      Margin.WorstLossAtMost(m, bucket, scenarios, Margin.WorstLoss(m, bucket, scenarios));
    }
    ZeroSum(losses);
  }

  ghost predicate Unpriced(n: Names, s: State) {
    && Apart(n) && Shaped(ConfigOf(n), s)
    && s.groups[n.g].price.None? && s.groups[n.h].price.None?
  }

  function LegIn(n: Names, s: State, sid: Sid, q: int): Margin.Leg
    requires Apart(n) && Shaped(ConfigOf(n), s) && sid in SeriesMap(n)
  {
    LegOf(ConfigOf(n), s.prices, s.groups, sid, q)
  }

  function MarketIn(n: Names, s: State): Margin.Market {
    MarketOf(ConfigOf(n), s.now, s.prices)
  }

  lemma {:induction false} WadsToReals()
    ensures WadToReal(4500 * WAD) == 4500.0 && WadToReal(5000 * WAD) == 5000.0 && WadToReal(70_000 * WAD) == 70_000.0
    ensures WadToReal(WAD) == 1.0 && WadToReal(WAD / 100) == 0.01
    ensures WadToReal(NEAR) == 10_000.0 && WadToReal(-FAR) == -10_500.0 && WadToReal(HEDGE) == 20_000.0
  {
  }

  /** While ETH is at 2000 and BTC at 30000 no call has any value, even if spot doubles. */
  lemma {:induction false} QuietLeg(n: Names, s: State, sid: Sid, q: int, sc: Option<Margin.Scenario>)
    requires Unpriced(n, s) && s.prices == Quiet(n) && sid in SeriesMap(n)
    requires sc.Some? ==> -10_000 <= sc.value.spotBps <= 10_000
    ensures Margin.LegValue(MarketIn(n, s), LegIn(n, s, sid, q), sc) == 0.0
  {
    hide Shaped, Defaults;
    WadsToReals();
    var l := LegIn(n, s, sid, q);
    assert Margin.LegUnitPrice(MarketIn(n, s), l, sc) == 0.0;
  }

  lemma {:induction false} QuietRisk(n: Names, s: State, cash: int, row: Row)
    requires Unpriced(n, s) && s.prices == Quiet(n) && row.Keys <= SeriesMap(n).Keys
    ensures var r := RiskAt(ConfigOf(n), s, cash, row);
      r.equity == Liquidation.Tokens(cash) && r.im == 0.0 && r.mm == 0.0
  {
    hide Margin.LegValue, LegOf, ImSet, MmSet, Shaped, Margin.RiskOf, SeriesMap;
    Scenarios();
    var m, legs := MarketIn(n, s), Legs(ConfigOf(n), s, row);
    forall sid | sid in legs ensures Margin.LegValue(m, legs[sid], None) == 0.0 {
      QuietLeg(n, s, sid, row[sid], None);
    }
    forall sid, sc | sid in legs && sc in m.params.imSet + m.params.mmSet
      ensures Margin.LegValue(m, legs[sid], Some(sc)) == 0.0
    {
      QuietLeg(n, s, sid, row[sid], Some(sc));
    }
    WorthlessRisk(m, Liquidation.Tokens(cash), legs);
  }

  // At 12000 and 300000 all calls are in the money, whatever the scenario

  lemma {:induction false} LoudLegs(n: Names, s: State, sc: Option<Margin.Scenario>)
    requires Unpriced(n, s) && s.prices == Loud(n)
    requires sc.Some? ==> -5000 <= sc.value.spotBps <= 10_000
    ensures var m, bps := MarketIn(n, s), if sc.None? then 0.0 else sc.value.spotBps as real;
      && Margin.LegValue(m, LegIn(n, s, n.near, NEAR), sc) == 75_000_000.0 + 12_000.0 * bps
      && Margin.LegValue(m, LegIn(n, s, n.far, -FAR), sc) == -73_500_000.0 - 12_600.0 * bps
      && Margin.LegValue(m, LegIn(n, s, n.other, HEDGE), sc) == 46_000_000.0 + 6000.0 * bps
  {
    hide Shaped, Defaults;
    WadsToReals();
    var m, bps := MarketIn(n, s), if sc.None? then 0.0 else sc.value.spotBps as real;
    assert Margin.LegUnitPrice(m, LegIn(n, s, n.near, NEAR), sc) == 7500.0 + 1.2 * bps;
    assert Margin.LegUnitPrice(m, LegIn(n, s, n.far, -FAR), sc) == 7000.0 + 1.2 * bps;
    assert Margin.LegUnitPrice(m, LegIn(n, s, n.other, HEDGE), sc) == 230_000.0 + 30.0 * bps;
  }

  lemma {:induction false} ValueOfOne(m: Margin.Market, legs: map<Sid, Margin.Leg>, sc: Option<Margin.Scenario>, a: Sid)
    requires legs.Keys == {a}
    ensures Margin.BookValue(m, legs, sc) == Margin.LegValue(m, legs[a], sc)
  {
    var v := Margin.Values(m, legs, sc);
    RSumRemove(v, a);
    assert v - {a} == map[];
  }

  lemma {:induction false} ValueOfTwo(m: Margin.Market, legs: map<Sid, Margin.Leg>, sc: Option<Margin.Scenario>, a: Sid,
      b: Sid)
    requires legs.Keys == {a, b} && a != b
    ensures Margin.BookValue(m, legs, sc) == Margin.LegValue(m, legs[a], sc) + Margin.LegValue(m, legs[b], sc)
  {
    var v := Margin.Values(m, legs, sc);
    RSumRemove(v, a);
    RSumRemove(v - {a}, b);
    assert v - {a} - {b} == map[];
  }

  function SpreadLegs(n: Names, s: State): map<Sid, Margin.Leg>
    requires Unpriced(n, s)
  {
    map[n.near := LegIn(n, s, n.near, NEAR), n.far := LegIn(n, s, n.far, -FAR)]
  }

  function HedgeLegs(n: Names, s: State): map<Sid, Margin.Leg>
    requires Unpriced(n, s)
  {
    map[n.other := LegIn(n, s, n.other, HEDGE)]
  }

  lemma {:induction false} SpreadValue(n: Names, s: State, sc: Option<Margin.Scenario>)
    requires Unpriced(n, s) && s.prices == Loud(n)
    requires sc.Some? ==> -5000 <= sc.value.spotBps <= 10_000
    ensures var bps := if sc.None? then 0.0 else sc.value.spotBps as real;
      && Margin.BookValue(MarketIn(n, s), SpreadLegs(n, s), sc) == 1_500_000.0 - 600.0 * bps
      && Margin.BookValue(MarketIn(n, s), HedgeLegs(n, s), sc) == 46_000_000.0 + 6000.0 * bps
  {
    hide Margin.LegValue, LegIn, Margin.BookValue, MarketIn, Shaped, ConfigOf, SeriesMap, Loud;
    assert n.near != n.far;
    LoudLegs(n, s, sc);
    ValueOfTwo(MarketIn(n, s), SpreadLegs(n, s), sc, n.near, n.far);
    ValueOfOne(MarketIn(n, s), HedgeLegs(n, s), sc, n.other);
  }

  /** The spread loses most where ETH rises most, the hedge where BTC falls most. */
  lemma {:induction false} WorstLosses(n: Names, s: State)
    requires Unpriced(n, s) && s.prices == Loud(n)
    ensures var m := MarketIn(n, s);
      && Margin.WorstLoss(m, SpreadLegs(n, s), MmSet()) == 3_000_000.0
      && Margin.WorstLoss(m, SpreadLegs(n, s), ImSet() + MmSet()) == 6_000_000.0
      && Margin.WorstLoss(m, HedgeLegs(n, s), ImSet() + MmSet()) <= 30_000_000.0
  {
    hide ImSet, MmSet, Margin.BookValue, SpreadLegs, HedgeLegs, Unpriced, MarketIn;
    var m, spread, hedge, all := MarketIn(n, s), SpreadLegs(n, s), HedgeLegs(n, s), ImSet() + MmSet();
    Scenarios();
    forall sc: Option<Margin.Scenario> | sc.None? || sc.value in all
      ensures var bps := if sc.None? then 0.0 else sc.value.spotBps as real;
        && Margin.BookValue(m, spread, sc) == 1_500_000.0 - 600.0 * bps
        && Margin.BookValue(m, hedge, sc) == 46_000_000.0 + 6000.0 * bps
    {
      SpreadValue(n, s, sc);
    }
    Margin.WorstLossAtMost(m, spread, MmSet(), 3_000_000.0);
    Margin.WorstLossAtMost(m, spread, MmSet(), Margin.WorstLoss(m, spread, MmSet()));
    Margin.WorstLossAtMost(m, spread, all, 6_000_000.0);
    Margin.WorstLossAtMost(m, spread, all, Margin.WorstLoss(m, spread, all));
    Margin.WorstLossAtMost(m, hedge, all, 30_000_000.0);
    var up, top := Margin.Scenario(5000, -3000, 0, 0.0), Margin.Scenario(10_000, -3000, 0, 0.0);
    assert up in MmSet() && top in all;
    assert Margin.BookValue(m, spread, None) - Margin.BookValue(m, spread, Some(up)) == 3_000_000.0;
    assert Margin.BookValue(m, spread, None) - Margin.BookValue(m, spread, Some(top)) == 6_000_000.0;
  }

  lemma {:induction false} OneBucket(m: Margin.Market, legs: map<Sid, Margin.Leg>, u: Underlying,
      scenarios: seq<Margin.Scenario>)
    requires legs != map[] && forall sid :: sid in legs ==> legs[sid].underlying == u
    ensures Margin.TotalLoss(m, legs, scenarios) == Margin.WorstLoss(m, legs, scenarios)
  {
    hide Margin.WorstLoss;
    var losses := Margin.LossesOf(m, legs, scenarios, Margin.Underlyings(legs));
    assert Margin.Bucket(legs, u) == legs;
    var sid :| sid in legs;
    assert Margin.Underlyings(legs) == {u};
    RSumRemove(losses, u);
    assert losses - {u} == map[];
  }

  lemma {:induction false} SpreadIsEth(n: Names, s: State)
    requires Unpriced(n, s)
    ensures Spread(n).Keys <= SeriesMap(n).Keys && Legs(ConfigOf(n), s, Spread(n)) == SpreadLegs(n, s) != map[]
    ensures forall sid :: sid in SpreadLegs(n, s) ==> SpreadLegs(n, s)[sid].underlying == n.eth
  {
    hide Defaults, Shaped, LegIn;
    LegUnderlyings(n, s);
    SameLegs(n, s);
    assert n.near in SpreadLegs(n, s);
  }

  lemma {:induction false} SameLegs(n: Names, s: State)
    requires Unpriced(n, s)
    ensures Spread(n).Keys <= SeriesMap(n).Keys && Legs(ConfigOf(n), s, Spread(n)) == SpreadLegs(n, s)
  {
    hide Defaults, Shaped, LegOf;
  }

  lemma {:induction false} RiskOfSpread(n: Names, s: State, cash: int)
    requires Unpriced(n, s) && s.prices == Loud(n)
    ensures Spread(n).Keys <= SeriesMap(n).Keys
    ensures var r := RiskAt(ConfigOf(n), s, cash, Spread(n));
      && r.equity == Liquidation.Tokens(cash) + 1_500_000.0
      && r.mm == 3_000_000.0 && 6_000_000.0 <= r.im
    ensures SliceMark(ConfigOf(n), s, Spread(n)) == 1_500_000.0
  {
    hide Shaped, SpreadLegs, Margin.BookValue, Margin.WorstLoss, Margin.TotalLoss, Margin.ShortMarks, ImSet, MmSet;
    hide Legs;
    hide Loud;
    var m, legs := MarketIn(n, s), SpreadLegs(n, s);
    SpreadIsEth(n, s);
    SpreadValue(n, s, None);
    WorstLosses(n, s);
    OneBucket(m, legs, n.eth, MmSet());
    OneBucket(m, legs, n.eth, ImSet() + MmSet());
    SpreadShortMark(n, s);
  }

  lemma {:induction false} SpreadShortMark(n: Names, s: State)
    requires Unpriced(n, s) && s.prices == Loud(n)
    ensures RSum(Margin.ShortMarks(MarketIn(n, s), SpreadLegs(n, s))) == 73_500_000.0
  {
    hide Shaped, Margin.LegValue, ConfigOf, Loud;
    LoudLegs(n, s, None);
    WadsToReals();
    var marks := Margin.ShortMarks(MarketIn(n, s), SpreadLegs(n, s));
    assert marks[n.near] == 0.0 && marks[n.far] == 73_500_000.0;
    RSumRemove(marks, n.near);
    RSumRemove(marks - {n.near}, n.far);
    assert marks - {n.near} - {n.far} == map[];
  }

  function Hedged(n: Names): Row {
    map[n.near := NEAR, n.far := -FAR, n.other := HEDGE]
  }

  lemma {:induction false} HedgedLegs(n: Names, s: State)
    requires Unpriced(n, s)
    ensures Hedged(n).Keys <= SeriesMap(n).Keys
    ensures Legs(ConfigOf(n), s, Hedged(n)) == SpreadLegs(n, s) + HedgeLegs(n, s)
    ensures SpreadLegs(n, s).Keys !! HedgeLegs(n, s).Keys
  {
    hide ConfigOf, Shaped, LegOf;
  }

  lemma {:induction false} HedgeIsBtc(n: Names, s: State)
    requires Unpriced(n, s)
    ensures Margin.Underlyings(SpreadLegs(n, s)) == {n.eth} && Margin.Underlyings(HedgeLegs(n, s)) == {n.btc}
    ensures HedgeLegs(n, s) != map[] && forall sid :: sid in HedgeLegs(n, s) ==>
      HedgeLegs(n, s)[sid].underlying == n.btc
  {
    hide Defaults, Shaped, LegIn;
    LegUnderlyings(n, s);
    assert n.near in SpreadLegs(n, s) && n.other in HedgeLegs(n, s);
  }

  lemma {:induction false} LegUnderlyings(n: Names, s: State)
    requires Unpriced(n, s)
    ensures LegIn(n, s, n.near, NEAR).underlying == n.eth && LegIn(n, s, n.far, -FAR).underlying == n.eth
    ensures LegIn(n, s, n.other, HEDGE).underlying == n.btc
  {
    hide Defaults, Shaped;
  }

  /** What the liquidator's own margin comes to after the slice: the hedge carries it, whatever the cash. */
  lemma {:induction false} RiskOfHedged(n: Names, s: State, cash: int)
    requires Unpriced(n, s) && s.prices == Loud(n)
    ensures Hedged(n).Keys <= SeriesMap(n).Keys
    ensures var r := RiskAt(ConfigOf(n), s, cash, Hedged(n));
      r.equity == Liquidation.Tokens(cash) + 47_500_000.0 && r.im <= 39_675_000.0
  {
    hide Shaped, SpreadLegs, HedgeLegs, Margin.BookValue, Margin.WorstLoss, Margin.TotalLoss, Margin.ShortMarks;
    hide ImSet, MmSet, Legs, Loud, Margin.Underlyings;
    var m, spread, hedge, all := MarketIn(n, s), SpreadLegs(n, s), HedgeLegs(n, s), ImSet() + MmSet();
    SpreadIsEth(n, s);
    HedgedLegs(n, s);
    HedgeIsBtc(n, s);
    SpreadValue(n, s, None);
    WorstLosses(n, s);
    OneBucket(m, spread, n.eth, all);
    OneBucket(m, hedge, n.btc, all);
    Margin.LossesAddAcrossUnderlyings(m, spread, hedge, all);
    JoinedValue(m, spread, hedge);
    HedgedShortMark(n, s);
  }

  lemma {:induction false} JoinedValue(m: Margin.Market, a: map<Sid, Margin.Leg>, b: map<Sid, Margin.Leg>)
    requires a.Keys !! b.Keys
    ensures Margin.BookValue(m, a + b, None) == Margin.BookValue(m, a, None) + Margin.BookValue(m, b, None)
  {
    hide Margin.LegValue;
    RSumParts(Margin.Values(m, a + b, None), Margin.Values(m, a, None), Margin.Values(m, b, None));
  }

  lemma {:induction false} HedgedShortMark(n: Names, s: State)
    requires Unpriced(n, s) && s.prices == Loud(n) && SpreadLegs(n, s).Keys !! HedgeLegs(n, s).Keys
    ensures RSum(Margin.ShortMarks(MarketIn(n, s), SpreadLegs(n, s) + HedgeLegs(n, s))) == 73_500_000.0
  {
    hide Shaped, Margin.LegValue, ConfigOf, Loud, SpreadLegs;
    WadsToReals();
    SpreadShortMark(n, s);
    var m, spread, hedge := MarketIn(n, s), SpreadLegs(n, s), HedgeLegs(n, s);
    var marks := Margin.ShortMarks(m, hedge);
    assert marks[n.other] == 0.0;
    ZeroSum(marks);
    RSumParts(Margin.ShortMarks(m, spread + hedge), Margin.ShortMarks(m, spread), marks);
  }
}
