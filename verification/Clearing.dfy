/**
 * The clearing protocol (reference/verify_invariants.py, class `Protocol`) as a value and its actions as functions.
 *
 * The state holds what the source's fields mean: balances, wrapper tokens, cash and groups. The counters that the
 * source keeps beside them (series totals, supply, participants, custody) are derived here; module Protocol keeps them
 * incrementally, as the source does, and is proved to agree.
 */
module Clearing {
  import opened Basics
  import opened Sums
  import opened Tables
  import Margin
  import Liquidation

  type Aid = int
  type Owner = string
  type Gid = string
  type Underlying = Margin.Underlying

  const SELLER_FEE_BPS: nat := 300
  const MIN_FEE: int := UNIT / 10
  const PENALTY_BPS: nat := 200
  const TOLERANCE: real := 0.000000001

  datatype Series = Series(group: Gid, isCall: bool, strike: nat, size: nat)
  datatype Terms = Terms(underlying: Underlying, expiry: int)

  /**
   * What never changes: the lot size (minPositionQty), listed series and groups, who owns which account, the
   * liquidator, the risk parameters.
   */
  datatype Config = Config(
    lot: nat, series: map<Sid, Series>, groups: map<Gid, Terms>, owner: map<Aid, Owner>, wallets: set<Owner>,
    liqAid: Aid, params: Margin.RiskParams, black76: Margin.Pricer)

  /** What moves from outside: spot prices, volatilities, and whether the oracle of an underlying is fresh. */
  datatype Prices = Prices(spot: Underlying -> real, iv: Sid -> real, isFresh: Underlying -> bool)

  datatype Group = Group(
    price: Option<int>, ratio: Option<int>, collected: int, unpaid: int, credits: map<Aid, int>,
    claimed: set<Aid>, snapshot: map<Sid, int>, insurance: int, available: int, settled: set<Aid>, pool: int)

  datatype State = State(
    now: int, prices: Prices, bal: map<Aid, Row>, cash: map<Aid, int>, usdc: map<Owner, int>,
    wr: map<Owner, Row>, groups: map<Gid, Group>, insurance: int, treasury: int, keeper: int)

  /** `Raised` is the source's Violation exception, or its KeyError: the run stops there. */
  datatype Outcome = Reverted | Raised | Done(next: State)

  const NEW_GROUP: Group := Group(None, None, 0, 0, map[], {}, map[], 0, 0, {}, 0)

  // ---------------------------------------------------------------------------------------------------------
  // Reading the state
  // ---------------------------------------------------------------------------------------------------------

  function SeriesOf(c: Config, g: Gid): set<Sid> {
    set sid | sid in c.series && c.series[sid].group == g
  }

  /** The account has a non-zero series of the group: `series_count[(aid, gid)] > 0`. */
  predicate HoldsIn(c: Config, row: Row, g: Gid) {
    exists sid :: sid in SeriesOf(c, g) && Get(row, sid) != 0
  }

  function Holders(c: Config, bal: map<Aid, Row>, g: Gid): set<Aid> {
    set a | a in bal && HoldsIn(c, bal[a], g)
  }

  function IntrinsicInt(s: Series, price: int): (r: int)
    ensures 0 <= r
  {
    if s.isCall then Max(price - s.strike, 0) else Max(s.strike - price, 0)
  }

  /** The payoff of one unit of a series, at scale 1e36. */
  function UnitOf(c: Config, sid: Sid, price: int): int
    requires sid in c.series
  {
    IntrinsicInt(c.series[sid], price) * c.series[sid].size
  }

  function Units(c: Config, g: Gid, price: int): map<Sid, int> {
    map sid | sid in SeriesOf(c, g) :: UnitOf(c, sid, price)
  }

  predicate Known(c: Config, aid: Aid, sid: Sid) {
    && aid in c.owner && sid in c.series && c.series[sid].group in c.groups
  }

  function UnderlyingOf(c: Config, sid: Sid): Underlying
    requires sid in c.series && c.series[sid].group in c.groups
  {
    c.groups[c.series[sid].group].underlying
  }

  predicate Active(c: Config, now: int, sid: Sid)
    requires sid in c.series && c.series[sid].group in c.groups
  {
    now < c.groups[c.series[sid].group].expiry
  }

  predicate WellFormed(c: Config) {
    && 0 < c.lot
    && (forall sid :: sid in c.series ==> c.series[sid].group in c.groups)
    && (forall a :: a in c.owner ==> c.owner[a] in c.wallets)
    && c.liqAid in c.owner
  }

  /** Every key is in place: the source would raise KeyError otherwise. */
  predicate Shaped(c: Config, s: State) {
    && WellFormed(c)
    && s.bal.Keys == s.cash.Keys == c.owner.Keys
    && s.usdc.Keys == s.wr.Keys == c.wallets
    && s.groups.Keys == c.groups.Keys
    && (forall a :: a in s.bal ==> s.bal[a].Keys <= c.series.Keys)
    && (forall o :: o in s.wr ==> s.wr[o].Keys <= c.series.Keys)
  }

  function WadToReal(x: int): real {
    (x as real) / (WAD as real)
  }

  function MarketOf(c: Config, now: int, prices: Prices): Margin.Market {
    Margin.Market(c.black76, prices.spot, now as real, c.params)
  }

  function LegOf(c: Config, prices: Prices, groups: map<Gid, Group>, sid: Sid, q: int): Margin.Leg
    requires sid in c.series && c.series[sid].group in c.groups.Keys * groups.Keys
  {
    var x := c.series[sid];
    var price := groups[x.group].price;
    var payoff := if price.None? then None
                  else Some(Margin.Intrinsic(x.isCall, WadToReal(price.value), WadToReal(x.strike)));
    Margin.Leg(UnderlyingOf(c, sid), x.isCall, WadToReal(x.strike), WadToReal(x.size),
      c.groups[x.group].expiry as real, WadToReal(q), prices.iv(sid), None, None, false, payoff)
  }

  function Legs(c: Config, s: State, row: Row): map<Sid, Margin.Leg>
    requires Shaped(c, s) && row.Keys <= c.series.Keys
  {
    map sid | sid in row :: LegOf(c, s.prices, s.groups, sid, row[sid])
  }

  ghost function RiskAt(c: Config, s: State, cash: int, row: Row): Margin.Risk
    requires Shaped(c, s) && row.Keys <= c.series.Keys
  {
    Margin.RiskOf(MarketOf(c, s.now, s.prices), Liquidation.Tokens(cash), Legs(c, s, row))
  }

  ghost function Risk(c: Config, s: State, aid: Aid): Margin.Risk
    requires Shaped(c, s) && aid in c.owner
  {
    RiskAt(c, s, s.cash[aid], s.bal[aid])
  }

  predicate Healthy(r: Margin.Risk) {
    r.im - TOLERANCE <= r.equity
  }

  /** Neither health measure is lower than before. */
  predicate NotWorse(before: Margin.Risk, after: Margin.Risk) {
    && before.equity - before.im <= after.equity - after.im
    && before.equity - before.mm <= after.equity - after.mm
  }

  function Magnitude(x: real): real {
    if x < 0.0 then -x else x
  }

  /** `check_not_worse`, INV-13: the same up to a rounding tolerance. */
  predicate Tolerated(before: Margin.Risk, after: Margin.Risk) {
    var tol := 0.000001 * MaxR(1.0, MaxR(Magnitude(before.im), Magnitude(before.equity)));
    && before.equity - before.im - tol <= after.equity - after.im
    && before.equity - before.mm - tol <= after.equity - after.mm
  }

  /** INV-6, as the single write path of the ledger checks it. */
  predicate IsLots(lot: nat, x: int)
    requires 0 < lot
  {
    x % lot == 0
  }

  predicate FreshFor(c: Config, s: State, row: Row)
    requires Shaped(c, s) && row.Keys <= c.series.Keys
  {
    forall sid :: sid in row ==> s.prices.isFresh(UnderlyingOf(c, sid))
  }

  // ---------------------------------------------------------------------------------------------------------
  // Actions
  //
  // `Raised` stands for every check (`ensure`) that the source makes on the way and that is not the test of a branch
  // already taken on the same numbers.
  // ---------------------------------------------------------------------------------------------------------

  /** One wrapper entry of a wallet changed by `q`. */
  function Give(wr: map<Owner, Row>, o: Owner, sid: Sid, q: int): map<Owner, Row>
    requires o in wr
  {
    wr[o := wr[o][sid := Get(wr[o], sid) + q]]
  }

  /** One balance set: what the ledger's single write path does to the balances. */
  function SetBalance(bal: map<Aid, Row>, aid: Aid, sid: Sid, v: int): map<Aid, Row>
    requires aid in bal
  {
    bal[aid := Put(bal[aid], sid, v)]
  }

  ghost function Deposit(c: Config, s: State, aid: Aid, amt: int): Outcome
    requires Shaped(c, s) && aid in c.owner
  {
    var o := c.owner[aid];
    if amt <= 0 || s.usdc[o] < amt then Reverted
    else if s.bal[aid] != map[] && !Tolerated(Risk(c, s, aid), RiskAt(c, s, s.cash[aid] + amt, s.bal[aid])) then Raised
    else Done(s.(usdc := s.usdc[o := s.usdc[o] - amt], cash := s.cash[aid := s.cash[aid] + amt]))
  }

  ghost function Withdraw(c: Config, s: State, aid: Aid, amt: int): Outcome
    requires Shaped(c, s) && aid in c.owner
  {
    var o, cash, row := c.owner[aid], s.cash[aid], s.bal[aid];
    if amt <= 0 || cash < amt || (row != map[] && !FreshFor(c, s, row)) then Reverted
    else if row != map[] && !Healthy(RiskAt(c, s, cash - amt, row)) then Reverted
    else Done(s.(usdc := s.usdc[o := s.usdc[o] + amt], cash := s.cash[aid := cash - amt]))
  }

  /** `seller_fee_native` on the mark of the minted quantity. */
  function SellerFee(markWad: int): int {
    Max(CeilDiv(markWad * SELLER_FEE_BPS, BPS * Pow10(18 - DEC)), MIN_FEE)
  }

  /** What a quantity is worth at a mark, at scale 1e18. */
  function Worth(mark: real, size: real, q: int): int {
    Liquidation.Trunc(mark * size * (q as real))
  }

  function MintFee(c: Config, s: State, sid: Sid, q: int): int
    requires sid in c.series && c.series[sid].group in c.groups
  {
    var x, u := c.series[sid], UnderlyingOf(c, sid);
    var t := ((c.groups[x.group].expiry - s.now) as real) / Margin.YEAR;
    var mark := c.black76(x.isCall, s.prices.spot(u), WadToReal(x.strike), s.prices.iv(sid), t);
    SellerFee(Worth(mark, WadToReal(x.size), q))
  }

  const INSURANCE_BPS: nat := 6000
  const KEEPER_BPS: nat := 1000

  function Share(fee: int, bps: nat): int {
    fee * bps / BPS
  }

  function FeeToInsurance(fee: int): int {
    Share(fee, INSURANCE_BPS)
  }

  function FeeToKeeper(fee: int): int {
    Share(fee, KEEPER_BPS)
  }

  ghost function Mint(c: Config, s: State, aid: Aid, sid: Sid, q: int, to: Owner): Outcome
    requires Shaped(c, s) && Known(c, aid, sid) && to in c.wallets
  {
    var row, cash := s.bal[aid], s.cash[aid];
    if !Active(c, s.now, sid) || q <= 0 then Reverted
    else
      var wanted := row[sid := Get(row, sid) - q];
      var fee := MintFee(c, s, sid, q);
      if !FreshFor(c, s, wanted) || cash < fee || !Healthy(RiskAt(c, s, cash - fee, wanted)) then Reverted
      else if !IsLots(c.lot, wanted[sid]) || !Healthy(RiskAt(c, s, cash - fee, Put(row, sid, wanted[sid]))) then Raised
      else
        var ins, kp := FeeToInsurance(fee), FeeToKeeper(fee);
        Done(s.(cash := s.cash[aid := cash - fee], insurance := s.insurance + ins, keeper := s.keeper + kp,
                treasury := s.treasury + (fee - ins - kp), bal := SetBalance(s.bal, aid, sid, wanted[sid]),
                wr := Give(s.wr, to, sid, q)))
  }

  /** INV-13 for an action that sets one balance of the account. */
  ghost predicate RaiseTolerated(c: Config, s: State, aid: Aid, sid: Sid, v: int)
    requires Shaped(c, s) && aid in c.owner && sid in c.series
  {
    Tolerated(Risk(c, s, aid), RiskAt(c, s, s.cash[aid], Put(s.bal[aid], sid, v)))
  }

  ghost function Unwrap(c: Config, s: State, owner: Owner, aid: Aid, sid: Sid, q: int): Outcome
    requires Shaped(c, s) && Known(c, aid, sid) && owner in c.wallets
  {
    if c.owner[aid] != owner || !Active(c, s.now, sid) || Get(s.wr[owner], sid) < q then Reverted
    else
      var nb := Get(s.bal[aid], sid) + q;
      if nb != 0 && nb < c.lot && -nb < c.lot then Reverted
      else if !IsLots(c.lot, nb) || !RaiseTolerated(c, s, aid, sid, nb) then Raised
      else Done(s.(wr := Give(s.wr, owner, sid, -q), bal := SetBalance(s.bal, aid, sid, nb)))
  }

  ghost function Wrap(c: Config, s: State, aid: Aid, sid: Sid, q: int, to: Owner): Outcome
    requires Shaped(c, s) && Known(c, aid, sid) && to in c.wallets
  {
    var row := s.bal[aid];
    if !Active(c, s.now, sid) || Get(row, sid) < q || q <= 0 then Reverted
    else if !FreshFor(c, s, row) || !Healthy(RiskAt(c, s, s.cash[aid], Put(row, sid, Get(row, sid) - q))) then Reverted
    else if !IsLots(c.lot, Get(row, sid) - q) then Raised
    else Done(s.(bal := SetBalance(s.bal, aid, sid, Get(row, sid) - q), wr := Give(s.wr, to, sid, q)))
  }

  ghost function CloseWithWrapper(c: Config, s: State, owner: Owner, aid: Aid, sid: Sid, q: int): Outcome
    requires Shaped(c, s) && Known(c, aid, sid) && owner in c.wallets
  {
    var x := Get(s.bal[aid], sid);
    if c.owner[aid] != owner || s.groups[c.series[sid].group].price.Some? || -q < x || Get(s.wr[owner], sid) < q
    then Reverted
    else if sid !in s.bal[aid] || !IsLots(c.lot, x + q) || !RaiseTolerated(c, s, aid, sid, x + q) then Raised
    else Done(s.(wr := Give(s.wr, owner, sid, -q), bal := SetBalance(s.bal, aid, sid, x + q)))
  }

  ghost function CloseInternal(c: Config, s: State, frm: Aid, to: Aid, sid: Sid, q: int): Outcome
    requires Shaped(c, s) && Known(c, frm, sid) && to in c.owner
  {
    if frm == to || c.owner[frm] != c.owner[to] || s.groups[c.series[sid].group].price.Some? then Reverted
    else
      var a, b := Get(s.bal[frm], sid), Get(s.bal[to], sid);
      if a < q || -q < b then Reverted
      else if sid !in s.bal[frm] then Raised
      else if !FreshFor(c, s, s.bal[frm]) || !Healthy(RiskAt(c, s, s.cash[frm], Put(s.bal[frm], sid, a - q)))
      then Reverted
      else if !IsLots(c.lot, a - q) || !IsLots(c.lot, b + q) || !RaiseTolerated(c, s, to, sid, b + q) then Raised
      else Done(s.(bal := SetBalance(SetBalance(s.bal, frm, sid, a - q), to, sid, b + q)))
  }

  ghost function TransferWrapper(c: Config, s: State, frm: Owner, to: Owner, sid: Sid, q: int): Outcome
    requires Shaped(c, s) && frm in c.wallets && to in c.wallets && sid in c.series
  {
    if Get(s.wr[frm], sid) < q || q <= 0 then Reverted
    else Done(s.(wr := Give(Give(s.wr, frm, sid, -q), to, sid, q)))
  }

  // Liquidation

  /** The part of one leg a slice of `sliceBps` moves: whole lots, with the sign of the leg. */
  function SliceOf(lot: nat, q: int, sliceBps: nat): int
    requires 0 < lot
  {
    var lots := Max(q, -q) / lot * sliceBps / BPS;
    (if 0 < q then lots else -lots) * lot
  }

  function Movable(c: Config, s: State, aid: Aid, u: Underlying): set<Sid>
    requires Shaped(c, s) && aid in c.owner
  {
    set sid | sid in s.bal[aid] && UnderlyingOf(c, sid) == u && Active(c, s.now, sid)
  }

  function Move(c: Config, s: State, aid: Aid, u: Underlying, sliceBps: nat): Row
    requires Shaped(c, s) && aid in c.owner
  {
    map sid | sid in Movable(c, s, aid, u) && SliceOf(c.lot, s.bal[aid][sid], sliceBps) != 0
      :: SliceOf(c.lot, s.bal[aid][sid], sliceBps)
  }

  /** A row with another one taken away; entries that reach zero are removed. */
  function Less(row: Row, move: Row): Row {
    map sid | sid in row && row[sid] != Get(move, sid) :: row[sid] - Get(move, sid)
  }

  function More(row: Row, move: Row): Row {
    map sid | sid in row.Keys + move.Keys && Get(row, sid) + Get(move, sid) != 0
      :: Get(row, sid) + Get(move, sid)
  }

  ghost function SliceMark(c: Config, s: State, move: Row): real
    requires Shaped(c, s) && move.Keys <= c.series.Keys
  {
    Margin.BookValue(MarketOf(c, s.now, s.prices), Legs(c, s, move), None)
  }

  /** The drop of MM when `move` leaves the account. */
  ghost function SliceMm(c: Config, s: State, aid: Aid, move: Row): real
    requires Shaped(c, s) && aid in c.owner
  {
    Risk(c, s, aid).mm - RiskAt(c, s, s.cash[aid], Less(s.bal[aid], move)).mm
  }

  ghost function SliceCashFlow(c: Config, s: State, aid: Aid, move: Row, bonusBps: nat): Liquidation.NativeSlice
    requires Shaped(c, s) && aid in c.owner && move.Keys <= c.series.Keys
  {
    var res := Liquidation.SliceCash(SliceMark(c, s, move), SliceMm(c, s, aid, move), bonusBps, PENALTY_BPS,
                                     Liquidation.Tokens(s.cash[aid]), Liquidation.Tokens(s.insurance));
    Liquidation.NativeOf(res, s.cash[aid], s.insurance)
  }

  ghost function Liquidate(c: Config, s: State, aid: Aid, u: Underlying, sliceBps: nat, bonusBps: nat): Outcome
    requires Shaped(c, s) && aid in c.owner
  {
    if aid == c.liqAid || !s.prices.isFresh(u) then Reverted
    else
      var r0 := Risk(c, s, aid);
      var move := Move(c, s, aid, u, sliceBps);
      if r0.mm <= r0.equity || move == map[] then Reverted
      else
        if SliceMm(c, s, aid, move) <= 0.0 then Reverted
        else
          var n := SliceCashFlow(c, s, aid, move, bonusBps);
          var sim := RiskAt(c, s, s.cash[aid] - n.payAcc - n.pen, Less(s.bal[aid], move));
          if sim.equity - sim.mm <= r0.equity - r0.mm then
            if Dust(SliceMm(c, s, aid, move), bonusBps, r0.equity) then Reverted else Raised
          else
            var next := Sliced(c, s, aid, move, n);
            if Healthy(Risk(c, next, c.liqAid)) && ShortsHold(c, s.bal, next.bal) && 0 <= next.insurance then Done(next)
            else Raised
  }

  /** INV-22: a slice so small that the rounding of cash can take its gain. */
  predicate Dust(sliceMm: real, bonusBps: nat, equity: real) {
    sliceMm - Liquidation.Bps(sliceMm, bonusBps) - Liquidation.Bps(sliceMm, PENALTY_BPS)
      <= Liquidation.Tokens(2) + TOLERANCE * MaxR(1.0, Magnitude(equity))
  }

  /** INV-24: every series keeps its net, and its total short does not rise. */
  ghost predicate ShortsHold(c: Config, bal: map<Aid, Row>, bal': map<Aid, Row>) {
    forall sid {:trigger Held(bal', sid)} :: sid in c.series ==>
      Held(bal', sid) == Held(bal, sid) && Sum(ShortColumn(bal', sid)) <= Sum(ShortColumn(bal, sid))
  }

  /** The state after a slice, before the liquidator's own margin is looked at. */
  ghost function Sliced(c: Config, s: State, aid: Aid, move: Row, n: Liquidation.NativeSlice): (s': State)
    requires Shaped(c, s) && aid in c.owner && move.Keys <= c.series.Keys
    ensures Shaped(c, s')
  {
    var liq := c.liqAid;
    var paid := s.cash[aid := s.cash[aid] - n.payAcc - n.pen];
    var bal := s.bal[aid := Less(s.bal[aid], move)];
    s.(cash := paid[liq := paid[liq] + n.payAcc + n.topup],
       insurance := s.insurance + n.pen - n.topup,
       bal := bal[liq := More(bal[liq], move)])
  }

  // Settlement

  ghost function Supply(wr: map<Owner, Row>, sid: Sid): int {
    Held(wr, sid)
  }

  ghost function Snapshot(c: Config, wr: map<Owner, Row>, g: Gid): map<Sid, int> {
    map sid | sid in SeriesOf(c, g) :: Supply(wr, sid)
  }

  /** INV-1: the internal balances and the wrapper tokens of each series of the group cancel. */
  ghost predicate BooksAgree(c: Config, s: State, g: Gid) {
    forall sid {:trigger Held(s.bal, sid)} :: sid in SeriesOf(c, g) ==> Held(s.bal, sid) + Held(s.wr, sid) == 0
  }

  ghost function Finalize(c: Config, s: State, g: Gid, price: int): Outcome
    requires Shaped(c, s) && g in c.groups
  {
    if s.groups[g].price.Some? || s.now < c.groups[g].expiry then Reverted
    else if !BooksAgree(c, s, g) then Raised
    else Done(s.(groups := s.groups[g := s.groups[g].(price := Some(price), snapshot := Snapshot(c, s.wr, g))]))
  }

  /** A row without its series of one group. */
  function Outside(c: Config, row: Row, g: Gid): Row {
    row - SeriesOf(c, g)
  }

  /** What an account with net `n` (scale 1e54) pays at once: its debt rounded up, as far as its cash goes. */
  function DebtPaid(n: int, cash: int, d: int): int
    requires 0 < d
  {
    if n < 0 then Min(cash, CeilDiv(-n, d)) else 0
  }

  /** The group's record after an account with net `n` has settled and paid `paid`. */
  function Settled(x: Group, aid: Aid, n: int, paid: int, d: int): Group
    requires 0 < d
  {
    var y := x.(settled := x.settled + {aid});
    if n < 0 then
      y.(collected := x.collected + paid, pool := x.pool + paid,
         unpaid := x.unpaid + (CeilDiv(-n, d) - paid))
    else if 0 < n then y.(credits := x.credits[aid := n])
    else y
  }

  ghost function Settle(c: Config, s: State, aid: Aid, g: Gid): Outcome
    requires Shaped(c, s) && aid in c.owner && g in c.groups
  {
    var x := s.groups[g];
    if x.price.None? || !HoldsIn(c, s.bal[aid], g) then Reverted
    else
      var n := Claim(s.bal[aid], Units(c, g, x.price.value));
      var paid := DebtPaid(n, s.cash[aid], Scale(DEC));
      Done(s.(bal := s.bal[aid := Outside(c, s.bal[aid], g)], cash := s.cash[aid := s.cash[aid] - paid],
              groups := s.groups[g := Settled(x, aid, n, paid, Scale(DEC))]))
  }

  function RatioOf(available: int, gross: int, d: int): int {
    if gross == 0 then WAD else Min(WAD, FloorDiv(available * d * WAD, gross))
  }

  /** What insurance adds to a pool of `collected` for a gross claim: the shortfall, as far as the fund goes. */
  function InsuranceDraw(gross: int, collected: int, insurance: int, d: int): int
    requires 0 < d
  {
    Min(Max(0, CeilDiv(gross, d) - collected), insurance)
  }

  /** Wrapper claims at the snapshot plus the settled accounts' net credits, at scale 1e54. */
  ghost function GrossClaim(c: Config, x: Group, g: Gid): int
    requires x.price.Some?
  {
    Claim(x.snapshot, Units(c, g, x.price.value)) + Sum(x.credits)
  }

  ghost function ComputeRatio(c: Config, s: State, g: Gid): Outcome
    requires Shaped(c, s) && g in c.groups
  {
    var x := s.groups[g];
    if x.price.None? || Holders(c, s.bal, g) != {} || x.ratio.Some? then Reverted
    else
      var gross := GrossClaim(c, x, g);
      var ins := InsuranceDraw(gross, x.collected, s.insurance, Scale(DEC));
      var pool := x.pool + ins;
      var ratio := RatioOf(pool, gross, Scale(DEC));
      if !RatioChecked(x, ins, ratio) then Raised
      else
        Done(s.(insurance := s.insurance - ins,
                groups := s.groups[g := x.(insurance := ins, pool := pool, available := pool, ratio := Some(ratio))]))
  }

  /** INV-31, INV-30 and INV-29, as they are checked where the ratio is fixed. */
  predicate RatioChecked(x: Group, ins: int, ratio: int) {
    x.pool + ins == x.collected + ins && (x.unpaid == 0 ==> ratio == WAD) && ratio <= WAD
  }

  /** `redeem_amount` and `claim_amount`: a claim at scale 1e54 paid at a ratio, in native units, rounded down. */
  function Payout(claim: int, ratio: int, d: int): int
    requires 0 < d
  {
    claim * ratio / (d * WAD)
  }

  ghost function Redeem(c: Config, s: State, owner: Owner, sid: Sid, q: int): Outcome
    requires Shaped(c, s) && owner in c.wallets && sid in c.series
  {
    var g := c.series[sid].group;
    var x := s.groups[g];
    if x.ratio.None? || x.price.None? || Get(s.wr[owner], sid) < q || q <= 0 then Reverted
    else
      var pay := Payout(q * UnitOf(c, sid, x.price.value), x.ratio.value, Scale(DEC));
      if x.pool < pay then Raised else Done(Redeemed(c, s, owner, sid, q, pay))
  }

  function Redeemed(c: Config, s: State, o: Owner, sid: Sid, q: int, pay: int): State
    requires Shaped(c, s) && o in c.wallets && sid in c.series
  {
    var g := c.series[sid].group;
    s.(wr := Give(s.wr, o, sid, -q), groups := s.groups[g := s.groups[g].(pool := s.groups[g].pool - pay)],
       usdc := s.usdc[o := s.usdc[o] + pay])
  }

  ghost function ClaimCredit(c: Config, s: State, aid: Aid, g: Gid): Outcome
    requires Shaped(c, s) && aid in c.owner && g in c.groups
  {
    var x := s.groups[g];
    if x.ratio.None? || aid !in x.credits || aid in x.claimed then Reverted
    else
      var amt := Payout(x.credits[aid], x.ratio.value, Scale(DEC));
      if x.pool < amt then Raised
      else Done(s.(groups := s.groups[g := x.(pool := x.pool - amt, claimed := x.claimed + {aid})],
                   cash := s.cash[aid := s.cash[aid] + amt]))
  }
}
