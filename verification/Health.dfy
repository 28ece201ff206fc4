/**
 * Margin along the actions: who must end healthy (INV-11), who never gets worse (INV-13), what a slice gains (INV-22).
 */
module Health {
  import opened Basics
  import opened Sums
  import opened Tables
  import opened Clearing
  import opened Invariant
  import opened Trading
  import opened Slices
  import Margin
  import Liquidation

  ghost predicate Priced(c: Config) {
    Margin.NonNegative(c.black76)
  }

  lemma {:induction false} LegsAreSane(c: Config, s: State, row: Row)
    requires Shaped(c, s) && row.Keys <= c.series.Keys
    ensures Margin.SaneBook(Legs(c, s, row))
  {
  }

  /** The leg of series `sid` for a signed quantity `q`, zero included. */
  function Leg(c: Config, s: State, sid: Sid, q: int): Margin.Leg
    requires Shaped(c, s) && sid in c.series
  {
    LegOf(c, s.prices, s.groups, sid, q)
  }

  lemma {:induction false} ValueOfEntry(c: Config, s: State, row: Row, sid: Sid, sc: Option<Margin.Scenario>)
    requires Shaped(c, s) && row.Keys <= c.series.Keys && sid in c.series
    ensures Margin.ValueAt(MarketOf(c, s.now, s.prices), Legs(c, s, row), sid, sc)
         == Margin.LegValue(MarketOf(c, s.now, s.prices), Leg(c, s, sid, Get(row, sid)), sc)
  {
    if sid !in row {
      ZeroLegValue(MarketOf(c, s.now, s.prices), Leg(c, s, sid, 0), sc);
    }
  }

  lemma {:induction false} ZeroLegValue(m: Margin.Market, l: Margin.Leg, sc: Option<Margin.Scenario>)
    requires l.q == 0.0
    ensures Margin.LegValue(m, l, sc) == 0.0
  {
    hide Margin.LegUnitPrice;
  }

  /** A row with one series raised: longer, or less short, or turned from short to long. */
  ghost predicate RowRaised(row: Row, row': Row, sid: Sid) {
    row - {sid} == row' - {sid} && Get(row, sid) <= Get(row', sid)
  }

  lemma {:induction false} RaisedRow(c: Config, s: State, row: Row, row': Row, sid: Sid)
    requires Shaped(c, s) && Priced(c) && sid in c.series && row.Keys <= c.series.Keys && row'.Keys <= c.series.Keys
    requires RowRaised(row, row', sid)
    ensures Margin.Raised(MarketOf(c, s.now, s.prices), Legs(c, s, row), Legs(c, s, row'), sid, UnderlyingOf(c, sid))
  {
    var m, legs, legs' := MarketOf(c, s.now, s.prices), Legs(c, s, row), Legs(c, s, row');
    RestOfRow(c, s, row, row', sid);
    forall sc ensures Margin.ValueAt(m, legs, sid, sc) <= Margin.ValueAt(m, legs', sid, sc) {
      ValueOfEntry(c, s, row, sid, sc);
      ValueOfEntry(c, s, row', sid, sc);
      LongerLeg(c, s, sid, Get(row, sid), Get(row', sid), sc);
    }
  }

  lemma {:induction false} RestOfRow(c: Config, s: State, row: Row, row': Row, sid: Sid)
    requires Shaped(c, s) && row.Keys <= c.series.Keys && row'.Keys <= c.series.Keys
    requires row - {sid} == row' - {sid}
    ensures Legs(c, s, row) - {sid} == Legs(c, s, row') - {sid}
  {
    assert Legs(c, s, row) - {sid} == Legs(c, s, row - {sid});
    assert Legs(c, s, row') - {sid} == Legs(c, s, row' - {sid});
  }

  lemma {:induction false} LongerLeg(c: Config, s: State, sid: Sid, q: int, q': int, sc: Option<Margin.Scenario>)
    requires Shaped(c, s) && Priced(c) && sid in c.series && q <= q'
    ensures var m := MarketOf(c, s.now, s.prices);
      Margin.LegValue(m, Leg(c, s, sid, q), sc) <= Margin.LegValue(m, Leg(c, s, sid, q'), sc)
  {
    var l := Leg(c, s, sid, q);
    assert Leg(c, s, sid, q') == l.(q := WadToReal(q'));
    Margin.LegValueMonotone(MarketOf(c, s.now, s.prices), l, WadToReal(q'), sc);
  }

  lemma {:induction false} ShortMarkFalls(c: Config, s: State, row: Row, row': Row, sid: Sid)
    requires Shaped(c, s) && Priced(c) && sid in c.series && row.Keys <= c.series.Keys && row'.Keys <= c.series.Keys
    requires Get(row, sid) <= Get(row', sid)
    ensures var m := MarketOf(c, s.now, s.prices);
      Margin.ShortMarkAt(m, Legs(c, s, row'), sid) <= Margin.ShortMarkAt(m, Legs(c, s, row), sid)
  {
    var m := MarketOf(c, s.now, s.prices);
    ValueOfEntry(c, s, row, sid, None);
    ValueOfEntry(c, s, row', sid, None);
    LongerLeg(c, s, sid, Get(row, sid), Get(row', sid), None);
    Margin.LegValueSign(m, Leg(c, s, sid, Get(row, sid)), None);
  }

  /** INV-13 for the ledger: raising one balance lowers neither health measure. */
  lemma {:induction false} RaisingKeepsHealth(c: Config, s: State, cash: int, row: Row, row': Row, sid: Sid)
    requires Shaped(c, s) && Priced(c) && sid in c.series && row.Keys <= c.series.Keys && row'.Keys <= c.series.Keys
    requires RowRaised(row, row', sid)
    ensures NotWorse(RiskAt(c, s, cash, row), RiskAt(c, s, cash, row'))
  {
    RaisedRow(c, s, row, row', sid);
    ShortMarkFalls(c, s, row, row', sid);
    LegsAreSane(c, s, row);
    LegsAreSane(c, s, row');
    Margin.RaisingALegKeepsHealth(MarketOf(c, s.now, s.prices), Liquidation.Tokens(cash), Legs(c, s, row),
      Legs(c, s, row'), sid, UnderlyingOf(c, sid));
  }

  /** Cash is worth itself: it changes equity and nothing else. */
  lemma {:induction false} CashOnlyMovesEquity(c: Config, s: State, cash: int, cash': int, row: Row)
    requires Shaped(c, s) && row.Keys <= c.series.Keys
    ensures var r, r' := RiskAt(c, s, cash, row), RiskAt(c, s, cash', row);
      r'.im == r.im && r'.mm == r.mm && r'.equity - r.equity == Liquidation.Tokens(cash' - cash)
  {
  }

  /** INV-14 for every account. */
  lemma {:induction false} MmAtMostIm(c: Config, s: State, cash: int, row: Row)
    requires Shaped(c, s) && Priced(c) && row.Keys <= c.series.Keys
    ensures 0.0 <= RiskAt(c, s, cash, row).mm <= RiskAt(c, s, cash, row).im
  {
    LegsAreSane(c, s, row);
    Margin.MmAtMostIm(MarketOf(c, s.now, s.prices), Liquidation.Tokens(cash), Legs(c, s, row));
  }

  // ---------------------------------------------------------------------------------------------------------
  // INV-13 and INV-11, action by action
  // ---------------------------------------------------------------------------------------------------------

  /** Risk depends on prices, time and finalized groups, not on the rest of the state. */
  lemma {:induction false} RiskFrame(c: Config, s: State, s': State, cash: int, row: Row)
    requires Shaped(c, s) && Shaped(c, s') && row.Keys <= c.series.Keys
    requires s'.now == s.now && s'.prices == s.prices && s'.groups == s.groups
    ensures RiskAt(c, s', cash, row) == RiskAt(c, s, cash, row)
  {
    assert Legs(c, s', row) == Legs(c, s, row);
  }

  lemma {:induction false} NotWorseIsTolerated(before: Margin.Risk, after: Margin.Risk)
    requires NotWorse(before, after)
    ensures Tolerated(before, after)
  {
  }

  lemma {:induction false} DepositNotWorse(c: Config, s: State, aid: Aid, amt: int)
    requires Shaped(c, s) && aid in c.owner
    ensures var r := Deposit(c, s, aid, amt);
      !r.Raised? && (r.Done? ==> Shaped(c, r.next) && NotWorse(Risk(c, s, aid), Risk(c, r.next, aid)))
  {
    hide RiskAt, NotWorse, Tolerated;
    var r := Deposit(c, s, aid, amt);
    if 0 < amt {
      MoreCash(c, s, s.cash[aid], s.cash[aid] + amt, s.bal[aid]);
      NotWorseIsTolerated(Risk(c, s, aid), RiskAt(c, s, s.cash[aid] + amt, s.bal[aid]));
    }
    if r.Done? {
      RiskFrame(c, s, r.next, s.cash[aid] + amt, s.bal[aid]);
    }
  }

  lemma {:induction false} MoreCash(c: Config, s: State, cash: int, cash': int, row: Row)
    requires Shaped(c, s) && row.Keys <= c.series.Keys && cash <= cash'
    ensures NotWorse(RiskAt(c, s, cash, row), RiskAt(c, s, cash', row))
  {
    hide RiskAt;
    CashOnlyMovesEquity(c, s, cash, cash', row);
  }

  /** Raising one balance of an account: the check of INV-13 does not fire. */
  lemma {:induction false} RaiseNotWorse(c: Config, s: State, aid: Aid, sid: Sid, v: int)
    requires Shaped(c, s) && Priced(c) && aid in c.owner && sid in c.series && Get(s.bal[aid], sid) <= v
    ensures NotWorse(Risk(c, s, aid), RiskAt(c, s, s.cash[aid], Put(s.bal[aid], sid, v)))
    ensures RaiseTolerated(c, s, aid, sid, v)
  {
    hide RiskAt, NotWorse, Tolerated;
    assert s.bal[aid] - {sid} == Put(s.bal[aid], sid, v) - {sid};
    RaisingKeepsHealth(c, s, s.cash[aid], s.bal[aid], Put(s.bal[aid], sid, v), sid);
    NotWorseIsTolerated(Risk(c, s, aid), RiskAt(c, s, s.cash[aid], Put(s.bal[aid], sid, v)));
  }

  /**
   * What an action that set one balance of `aid` did to its margin: never less than the check asks, for a raise
   * nothing.
   */
  ghost predicate MarginKept(c: Config, s: State, s': State, aid: Aid, q: int)
    requires Shaped(c, s) && Shaped(c, s') && aid in c.owner
  {
    && Tolerated(Risk(c, s, aid), Risk(c, s', aid))
    && (0 <= q ==> NotWorse(Risk(c, s, aid), Risk(c, s', aid)))
  }

  lemma {:induction false} AccountInPlace(c: Config, s: State, aid: Aid)
    requires Shaped(c, s) && aid in c.owner
    ensures aid in s.bal && aid in s.cash
  {
  }

  lemma {:induction false} SetRow(bal: map<Aid, Row>, aid: Aid, sid: Sid, v: int)
    requires aid in bal
    ensures SetBalance(bal, aid, sid, v).Keys == bal.Keys && SetBalance(bal, aid, sid, v)[aid] == Put(bal[aid], sid, v)
  {
  }

  lemma {:induction false} SetKeepsMargin(c: Config, s: State, s': State, aid: Aid, sid: Sid, q: int)
    requires Shaped(c, s) && Shaped(c, s') && Priced(c) && aid in c.owner && sid in c.series
    requires s'.now == s.now && s'.prices == s.prices && s'.groups == s.groups && s'.cash[aid] == s.cash[aid]
    requires s'.bal[aid] == Put(s.bal[aid], sid, Get(s.bal[aid], sid) + q)
    requires RaiseTolerated(c, s, aid, sid, Get(s.bal[aid], sid) + q)
    ensures MarginKept(c, s, s', aid, q)
  {
    hide RiskAt, NotWorse, Tolerated;
    RiskFrame(c, s, s', s.cash[aid], s'.bal[aid]);
    if 0 <= q {
      RaiseNotWorse(c, s, aid, sid, Get(s.bal[aid], sid) + q);
    }
  }

  /**
   * Unwrapping needs no margin check, also where it turns a short into a long: with a quantity that is not negative the
   * source's own check (INV-13) never fires.
   */
  lemma {:induction false} UnwrapNotWorse(c: Config, s: State, owner: Owner, aid: Aid, sid: Sid, q: int)
    requires Shaped(c, s) && Priced(c) && Known(c, aid, sid) && owner in c.wallets
    ensures var r := Unwrap(c, s, owner, aid, sid, q);
      && (r.Raised? ==> q < 0 || !IsLots(c.lot, Get(s.bal[aid], sid) + q))
      && (r.Done? ==> Shaped(c, r.next) && MarginKept(c, s, r.next, aid, q))
  {
    hide RaiseTolerated, MarginKept, RiskAt, NotWorse, IsLots, Give, SetBalance, Shaped, WellFormed;
    AccountInPlace(c, s, aid);
    SetRow(s.bal, aid, sid, Get(s.bal[aid], sid) + q);
    var r := Unwrap(c, s, owner, aid, sid, q);
    if 0 <= q {
      RaiseNotWorse(c, s, aid, sid, Get(s.bal[aid], sid) + q);
    }
    if r.Done? {
      RowsStayShaped(c, s, owner, aid, sid, -q);
      SetKeepsMargin(c, s, r.next, aid, sid, q);
    }
  }

  lemma {:induction false} CloseWithWrapperNotWorse(c: Config, s: State, owner: Owner, aid: Aid, sid: Sid, q: int)
    requires Shaped(c, s) && Priced(c) && Known(c, aid, sid) && owner in c.wallets
    ensures var r := CloseWithWrapper(c, s, owner, aid, sid, q);
      && (r.Raised? ==> q <= 0 || !IsLots(c.lot, Get(s.bal[aid], sid) + q))
      && (r.Done? ==> Shaped(c, r.next) && MarginKept(c, s, r.next, aid, q))
  {
    hide RaiseTolerated, MarginKept, RiskAt, NotWorse, IsLots, Give, SetBalance, Shaped, WellFormed;
    AccountInPlace(c, s, aid);
    SetRow(s.bal, aid, sid, Get(s.bal[aid], sid) + q);
    var r := CloseWithWrapper(c, s, owner, aid, sid, q);
    if 0 <= q {
      RaiseNotWorse(c, s, aid, sid, Get(s.bal[aid], sid) + q);
    }
    if r.Done? {
      RowsStayShaped(c, s, owner, aid, sid, -q);
      SetKeepsMargin(c, s, r.next, aid, sid, q);
    }
  }

  /** An internal close: the account whose short shrinks is no worse, the one that gives the long is healthy. */
  lemma {:induction false} CloseInternalHealth(c: Config, s: State, frm: Aid, to: Aid, sid: Sid, q: int)
    requires Shaped(c, s) && Priced(c) && Known(c, frm, sid) && to in c.owner
    ensures var r := CloseInternal(c, s, frm, to, sid, q);
      && (r.Raised? ==>
            q <= 0 || !IsLots(c.lot, Get(s.bal[frm], sid) - q) || !IsLots(c.lot, Get(s.bal[to], sid) + q))
      && (r.Done? ==> Shaped(c, r.next) && MarginKept(c, s, r.next, to, q) && Healthy(Risk(c, r.next, frm)))
  {
    hide RiskAt, RaiseTolerated, MarginKept, IsLots, FreshFor, Healthy;
    var r := CloseInternal(c, s, frm, to, sid, q);
    if 0 <= q {
      RaiseNotWorse(c, s, to, sid, Get(s.bal[to], sid) + q);
    }
    if r.Done? {
      assert Shaped(c, r.next);
      SetKeepsMargin(c, s, r.next, to, sid, q);
      RiskFrame(c, s, r.next, s.cash[frm], r.next.bal[frm]);
    }
  }

  /** INV-11: a mint is checked with the row it wants, where a balance of zero still counts; the ledger drops it. */
  lemma {:induction false} MintLeavesHealthy(c: Config, s: State, aid: Aid, sid: Sid, q: int, to: Owner)
    requires Shaped(c, s) && Priced(c) && Known(c, aid, sid) && to in c.wallets
    ensures var r := Mint(c, s, aid, sid, q, to);
      && (r.Raised? ==> !IsLots(c.lot, Get(s.bal[aid], sid) - q))
      && (r.Done? ==> Shaped(c, r.next) && Healthy(Risk(c, r.next, aid)))
  {
    hide RiskAt, FreshFor, MintFee, Healthy, IsLots;
    var r := Mint(c, s, aid, sid, q, to);
    DroppingZeroKeepsHealth(c, s, s.cash[aid] - MintFee(c, s, sid, q), s.bal[aid], sid, Get(s.bal[aid], sid) - q);
    if r.Done? {
      assert Shaped(c, r.next);
      RiskFrame(c, s, r.next, r.next.cash[aid], r.next.bal[aid]);
    }
  }

  lemma {:induction false} DroppingZeroKeepsHealth(c: Config, s: State, cash: int, row: Row, sid: Sid, v: int)
    requires Shaped(c, s) && Priced(c) && sid in c.series && row.Keys <= c.series.Keys
    ensures Healthy(RiskAt(c, s, cash, row[sid := v])) ==> Healthy(RiskAt(c, s, cash, Put(row, sid, v)))
  {
    hide RiskAt;
    assert row[sid := v] - {sid} == Put(row, sid, v) - {sid};
    RaisingKeepsHealth(c, s, cash, row[sid := v], Put(row, sid, v), sid);
  }

  lemma {:induction false} WrapLeavesHealthy(c: Config, s: State, aid: Aid, sid: Sid, q: int, to: Owner)
    requires Shaped(c, s) && Known(c, aid, sid) && to in c.wallets
    ensures var r := Wrap(c, s, aid, sid, q, to);
      && (r.Raised? ==> !IsLots(c.lot, Get(s.bal[aid], sid) - q))
      && (r.Done? ==> Shaped(c, r.next) && Healthy(Risk(c, r.next, aid)))
  {
    hide RiskAt, FreshFor, Healthy, IsLots;
    var r := Wrap(c, s, aid, sid, q, to);
    if r.Done? {
      assert Shaped(c, r.next);
      RiskFrame(c, s, r.next, s.cash[aid], r.next.bal[aid]);
    }
  }

  lemma {:induction false} WithdrawLeavesHealthy(c: Config, s: State, aid: Aid, amt: int)
    requires Shaped(c, s) && aid in c.owner && s.bal[aid] != map[]
    ensures var r := Withdraw(c, s, aid, amt);
      r.Done? ==> Shaped(c, r.next) && Healthy(Risk(c, r.next, aid))
  {
    hide RiskAt, FreshFor;
    var r := Withdraw(c, s, aid, amt);
    if r.Done? {
      RiskFrame(c, s, r.next, s.cash[aid] - amt, s.bal[aid]);
    }
  }

  // ---------------------------------------------------------------------------------------------------------
  // INV-22
  // ---------------------------------------------------------------------------------------------------------

  /** A leg without volatilities of its own for each side is worth its two parts together, whatever their signs. */
  lemma {:induction false} PartValue(m: Margin.Market, l: Margin.Leg, a: real, b: real, sc: Option<Margin.Scenario>)
    requires l.q == a + b && l.sigmaShort.None? && l.sigmaLong.None? && !l.longIntrinsicOnly
    ensures Margin.LegValue(m, l, sc) == Margin.LegValue(m, l.(q := a), sc) + Margin.LegValue(m, l.(q := b), sc)
  {
    var price := Margin.LegUnitPrice(m, l, sc);
    assert Margin.LegUnitPrice(m, l.(q := a), sc) == price && Margin.LegUnitPrice(m, l.(q := b), sc) == price;
    ValuesAdd(a, b, l.size, price, l.q);
  }

  lemma {:induction false} ValuesAdd(a: real, b: real, size: real, price: real, q: real)
    requires q == a + b
    ensures q * size * price == a * size * price + b * size * price
  {
    assert q * size == a * size + b * size;
  }

  /** The moved legs carry exactly the value that the rest of the account loses. */
  lemma {:induction false} SliceSplitsValue(c: Config, s: State, row: Row, move: Row)
    requires Shaped(c, s) && move.Keys <= row.Keys <= c.series.Keys
    ensures var m := MarketOf(c, s.now, s.prices);
      Margin.BookValue(m, Legs(c, s, row), None)
        == Margin.BookValue(m, Legs(c, s, Less(row, move)), None) + SliceMark(c, s, move)
  {
    var m, rest := MarketOf(c, s.now, s.prices), Less(row, move);
    var vs, vr, vm := Margin.Values(m, Legs(c, s, row), None), Margin.Values(m, Legs(c, s, rest), None),
                      Margin.Values(m, Legs(c, s, move), None);
    forall sid | sid in vs ensures vs[sid] == GetR(vr, sid) + GetR(vm, sid) {
      EntrySplits(c, s, row, move, sid);
      ValueOfEntry(c, s, row, sid, None);
      ValueOfEntry(c, s, rest, sid, None);
      ValueOfEntry(c, s, move, sid, None);
    }
    RSumParts(vs, vr, vm);
  }

  lemma {:induction false} EntrySplits(c: Config, s: State, row: Row, move: Row, sid: Sid)
    requires Shaped(c, s) && move.Keys <= row.Keys <= c.series.Keys && sid in row
    ensures var m := MarketOf(c, s.now, s.prices);
      Margin.LegValue(m, Leg(c, s, sid, Get(row, sid)), None)
        == Margin.LegValue(m, Leg(c, s, sid, Get(Less(row, move), sid)), None)
         + Margin.LegValue(m, Leg(c, s, sid, Get(move, sid)), None)
  {
    hide Margin.LegValue;
    LessGet(row, move, sid);
    var l := Leg(c, s, sid, Get(row, sid));
    var a, b := Get(row, sid) - Get(move, sid), Get(move, sid);
    assert Leg(c, s, sid, a) == l.(q := WadToReal(a)) && Leg(c, s, sid, b) == l.(q := WadToReal(b));
    PartValue(MarketOf(c, s.now, s.prices), l, WadToReal(a), WadToReal(b), None);
  }

  /** The rise of equity - MM that `liquidate` looks at before it goes ahead. */
  ghost function SliceGain(c: Config, s: State, aid: Aid, move: Row, n: Liquidation.NativeSlice): real
    requires Shaped(c, s) && aid in c.owner
  {
    var r0, sim := Risk(c, s, aid), RiskAt(c, s, s.cash[aid] - n.payAcc - n.pen, Less(s.bal[aid], move));
    (sim.equity - sim.mm) - (r0.equity - r0.mm)
  }

  lemma {:induction false} SliceGainIs(c: Config, s: State, aid: Aid, move: Row, n: Liquidation.NativeSlice)
    requires Shaped(c, s) && aid in c.owner && move.Keys <= s.bal[aid].Keys
    ensures SliceGain(c, s, aid, move, n)
         == SliceMm(c, s, aid, move) - SliceMark(c, s, move) - Liquidation.Tokens(n.payAcc + n.pen)
  {
    SliceSplitsValue(c, s, s.bal[aid], move);
    CashOnlyMovesEquity(c, s, s.cash[aid], s.cash[aid] - n.payAcc - n.pen, Less(s.bal[aid], move));
  }

  /**
   * INV-22: whatever the prices, a slice raises the account's equity - MM by more than
   * sliceMm * (1 - bonus - penalty) less two native units.
   */
  lemma {:induction false} SliceImproves(c: Config, s: State, aid: Aid, u: Underlying, sliceBps: nat, bonusBps: nat)
    requires Core(c, s) && aid in c.owner
    requires 0.0 <= SliceMm(c, s, aid, Move(c, s, aid, u, sliceBps))
    ensures var move := Move(c, s, aid, u, sliceBps);
      var mm := SliceMm(c, s, aid, move);
      mm - Liquidation.Bps(mm, bonusBps) - Liquidation.Bps(mm, PENALTY_BPS) - Liquidation.Tokens(2)
        < SliceGain(c, s, aid, move, SliceCashFlow(c, s, aid, move, bonusBps))
  {
    hide SliceMm, SliceMark, SliceGain;
    MoveIsParts(c, s, aid, u, sliceBps);
    var move := Move(c, s, aid, u, sliceBps);
    SliceGainIs(c, s, aid, move, SliceCashFlow(c, s, aid, move, bonusBps));
    Liquidation.NativeSliceRaisesHealth(SliceMark(c, s, move), SliceMm(c, s, aid, move), bonusBps, PENALTY_BPS,
      s.cash[aid], s.insurance);
  }

  /**
   * INV-22: a slice whose margin, less bonus and penalty, is worth two native units or more is never turned down as
   * dust.
   */
  lemma {:induction false} OnlyDustIsReverted(c: Config, s: State, aid: Aid, u: Underlying, sliceBps: nat,
      bonusBps: nat)
    requires Core(c, s) && aid in c.owner && aid != c.liqAid && s.prices.isFresh(u)
    requires Risk(c, s, aid).equity < Risk(c, s, aid).mm && Move(c, s, aid, u, sliceBps) != map[]
    requires var mm := SliceMm(c, s, aid, Move(c, s, aid, u, sliceBps));
      && 0.0 < mm
      && Liquidation.Tokens(2) <= mm - Liquidation.Bps(mm, bonusBps) - Liquidation.Bps(mm, PENALTY_BPS)
    ensures !Liquidate(c, s, aid, u, sliceBps, bonusBps).Reverted?
  {
    hide SliceMm, SliceCashFlow, Move, RiskAt, Sliced, Liquidation.Bps, Liquidation.Tokens, Dust, ShortsHold;
    SliceImproves(c, s, aid, u, sliceBps, bonusBps);
  }

  // ---------------------------------------------------------------------------------------------------------
  // What decides a slice
  // ---------------------------------------------------------------------------------------------------------

  /** Every test that makes `liquidate` turn a slice down is passed. */
  ghost predicate Accepted(c: Config, s: State, aid: Aid, u: Underlying, sliceBps: nat, bonusBps: nat)
    requires Shaped(c, s) && aid in c.owner
  {
    var move := Move(c, s, aid, u, sliceBps);
    && aid != c.liqAid && s.prices.isFresh(u)
    && Risk(c, s, aid).equity < Risk(c, s, aid).mm && move != map[] && 0.0 < SliceMm(c, s, aid, move)
    && 0.0 < SliceGain(c, s, aid, move, SliceCashFlow(c, s, aid, move, bonusBps))
  }

  /**
   * The liquidator's cash after a slice, from values known before it: it pays the slice's value less the discount, or
   * gets what it is owed as far as the account and insurance have it.
   */
  ghost function TakerCash(c: Config, s: State, aid: Aid, move: Row, bonusBps: nat): int
    requires Shaped(c, s) && aid in c.owner && move.Keys <= c.series.Keys
  {
    var owed := Liquidation.Owed(SliceMark(c, s, move), Liquidation.Bps(SliceMm(c, s, aid, move), bonusBps));
    s.cash[c.liqAid] + Min(Liquidation.Pay(owed * (UNIT as real)), s.cash[aid] + s.insurance)
  }

  /** The liquidator's margin after a slice. */
  ghost function TakerRisk(c: Config, s: State, aid: Aid, move: Row, bonusBps: nat): Margin.Risk
    requires Shaped(c, s) && aid in c.owner && move.Keys <= c.series.Keys
  {
    RiskAt(c, s, TakerCash(c, s, aid, move, bonusBps), More(s.bal[c.liqAid], move))
  }

  lemma {:induction false} TakerCashIs(c: Config, s: State, aid: Aid, move: Row, bonusBps: nat)
    requires Shaped(c, s) && aid in c.owner && move.Keys <= c.series.Keys && 0 <= s.insurance
    ensures var n := SliceCashFlow(c, s, aid, move, bonusBps);
      TakerCash(c, s, aid, move, bonusBps) == s.cash[c.liqAid] + n.payAcc + n.topup
  {
    hide SliceMark, SliceMm, Liquidation.Owed, Liquidation.Pay, Liquidation.RoundUp;
    var cash, ins := Liquidation.Tokens(s.cash[aid]), Liquidation.Tokens(s.insurance);
    var r := Liquidation.SliceCash(SliceMark(c, s, move), SliceMm(c, s, aid, move), bonusBps, PENALTY_BPS, cash, ins);
    Liquidation.LiquidatorGets(r.cashToLiq * (UNIT as real), r.penalty * (UNIT as real), s.cash[aid], s.insurance);
  }

  /** The check of INV-22 where a slice is turned down never fires. */
  lemma {:induction false} NeverDust(c: Config, s: State, aid: Aid, u: Underlying, sliceBps: nat, bonusBps: nat)
    requires Core(c, s) && aid in c.owner && 0.0 <= SliceMm(c, s, aid, Move(c, s, aid, u, sliceBps))
    ensures var move := Move(c, s, aid, u, sliceBps);
      SliceGain(c, s, aid, move, SliceCashFlow(c, s, aid, move, bonusBps)) <= 0.0 ==>
        Dust(SliceMm(c, s, aid, move), bonusBps, Risk(c, s, aid).equity)
  {
    hide SliceMm, SliceCashFlow, SliceGain, Move, Risk, RiskAt, Liquidation.Bps, Liquidation.Tokens;
    SliceImproves(c, s, aid, u, sliceBps, bonusBps);
  }

  /** The state after a slice, as the last checks see it. */
  lemma {:induction false} TakenOver(c: Config, s: State, aid: Aid, u: Underlying, sliceBps: nat, bonusBps: nat)
    requires Core(c, s) && aid in c.owner && aid != c.liqAid
    requires 0.0 <= SliceMm(c, s, aid, Move(c, s, aid, u, sliceBps))
    ensures var move := Move(c, s, aid, u, sliceBps);
      var next := Sliced(c, s, aid, move, SliceCashFlow(c, s, aid, move, bonusBps));
      && Risk(c, next, c.liqAid) == TakerRisk(c, s, aid, move, bonusBps)
      && 0 <= next.insurance && next.bal == Moved(s.bal, aid, c.liqAid, move)
      && (sliceBps <= BPS ==> ShortsHold(c, s.bal, next.bal))
  {
    hide SliceMm, SliceCashFlow, RiskAt, Move, Less, More, ShortsHold;
    MoveIsParts(c, s, aid, u, sliceBps);
    var move := Move(c, s, aid, u, sliceBps);
    var n := SliceCashFlow(c, s, aid, move, bonusBps);
    var next := Sliced(c, s, aid, move, n);
    SliceWithinMeans(c, s, aid, move, bonusBps);
    TakerCashIs(c, s, aid, move, bonusBps);
    RiskFrame(c, s, next, next.cash[c.liqAid], next.bal[c.liqAid]);
    if sliceBps <= BPS {
      MovedShortsHold(c, s.bal, aid, c.liqAid, move);
    }
  }

  /** INV-24 cannot fire for parts of the account's legs. */
  lemma {:induction false} MovedShortsHold(c: Config, bal: map<Aid, Row>, aid: Aid, liq: Aid, move: Row)
    requires aid in bal && liq in bal && aid != liq && move.Keys <= bal[aid].Keys && Parts(bal[aid], move)
    ensures ShortsHold(c, bal, Moved(bal, aid, liq, move))
  {
    hide Moved, Parts;
    forall sid
      ensures Held(Moved(bal, aid, liq, move), sid) == Held(bal, sid)
      ensures Sum(ShortColumn(Moved(bal, aid, liq, move), sid)) <= Sum(ShortColumn(bal, sid))
    {
      MovedHeld(bal, aid, liq, move, sid);
      MovedShorts(bal, aid, liq, move, sid);
    }
  }

  /**
   * A slice is turned down exactly when it fails one of the tests, never against INV-22. An accepted one goes through
   * or ends the run, and values known before the call decide which: it goes through exactly when the liquidator's
   * margin with the slice, at the cash that the slice leaves it, is in order (INV-23) and no total short rises
   * (INV-24), which none does unless more than the whole position is asked for.
   */
  lemma {:induction false} SliceDecided(c: Config, s: State, aid: Aid, u: Underlying, sliceBps: nat, bonusBps: nat)
    requires Core(c, s) && aid in c.owner
    ensures var r, move := Liquidate(c, s, aid, u, sliceBps, bonusBps), Move(c, s, aid, u, sliceBps);
      && (r.Reverted? <==> !Accepted(c, s, aid, u, sliceBps, bonusBps))
      && (!r.Reverted? ==>
            && aid in s.bal && c.liqAid in s.bal && aid != c.liqAid
            && (r.Done? <==>
                  && Healthy(TakerRisk(c, s, aid, move, bonusBps))
                  && ShortsHold(c, s.bal, Moved(s.bal, aid, c.liqAid, move)))
            && (sliceBps <= BPS ==> ShortsHold(c, s.bal, Moved(s.bal, aid, c.liqAid, move))))
  {
    hide Move, SliceMm, SliceCashFlow, RiskAt, Sliced, Dust, ShortsHold, TakerRisk, Healthy, Moved;
    var move := Move(c, s, aid, u, sliceBps);
    if 0.0 <= SliceMm(c, s, aid, move) {
      NeverDust(c, s, aid, u, sliceBps, bonusBps);
    }
    if Accepted(c, s, aid, u, sliceBps, bonusBps) {
      TakenOver(c, s, aid, u, sliceBps, bonusBps);
    }
  }
}
