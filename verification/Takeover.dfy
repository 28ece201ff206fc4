/** What a liquidation slice does, told from balances, cash and margins before and after it. */
module Takeover {
  import opened Basics
  import opened Sums
  import opened Tables
  import opened Clearing
  import opened Invariant
  import opened Trading
  import opened Slices
  import opened Health
  import Margin
  import Liquidation

  /** The largest number of whole lots that is no more than a share of a balance, on its side of zero. */
  predicate LargestPart(lot: nat, q: int, m: int, sliceBps: nat)
    requires 0 < lot
  {
    && IsLots(lot, m)
    && (if 0 <= q then 0 <= m && m * 10_000 <= q * sliceBps < (m + lot) * 10_000
        else m <= 0 && (m - lot) * 10_000 < q * sliceBps <= m * 10_000)
  }

  lemma {:induction false} SliceIsLargest(lot: nat, q: int, sliceBps: nat)
    requires 0 < lot && IsLots(lot, q)
    ensures LargestPart(lot, q, SliceOf(lot, q, sliceBps), sliceBps)
  {
    hide IsLots;
    var size := Max(q, -q);
    var lots := size / lot * sliceBps / BPS;
    WholeSize(lot, q);
    LargestOfSize(lot, size / lot, sliceBps);
    LotsOf(lot, lots);
    LotsOf(lot, -lots);
    if q < 0 {
      Mirrored(q, sliceBps, lots, lot);
    }
  }

  lemma {:induction false} LargestOfSize(lot: nat, whole: nat, sliceBps: nat)
    requires 0 < lot
    ensures var lots := whole * sliceBps / BPS;
      0 <= lots * lot && lots * lot * 10_000 <= whole * lot * sliceBps < (lots * lot + lot) * 10_000
  {
    var lots := whole * sliceBps / BPS;
    FloorBounds(whole * sliceBps, BPS);
    MulAtMost(0, whole, sliceBps);
    AtMostFloor(0, whole * sliceBps, BPS);
    MulAtMost(0, lots, lot);
    TimesLot(lots, whole * sliceBps, lot);
    assert whole * sliceBps * lot == whole * lot * sliceBps;
  }

  lemma {:induction false} Mirrored(q: int, sliceBps: nat, lots: int, lot: nat)
    ensures (-q) * sliceBps == -(q * sliceBps) && (-lots) * lot == -(lots * lot)
  {
  }

  lemma {:induction false} WholeSize(lot: nat, q: int)
    requires 0 < lot && IsLots(lot, q)
    ensures var size := Max(q, -q); size == size / lot * lot && 0 <= size / lot
  {
    LotsNegate(lot, q);
    AtMostFloor(0, Max(q, -q), lot);
  }

  lemma {:induction false} TimesLot(lots: int, share: int, lot: nat)
    requires 0 < lot && lots * 10_000 <= share < (lots + 1) * 10_000
    ensures lots * lot * 10_000 <= share * lot < (lots * lot + lot) * 10_000
  {
    MulAtMost(lots * 10_000, share, lot);
    MulLess(share, (lots + 1) * 10_000, lot);
  }

  /** What leaves an account in one series. */
  lemma {:induction false} MovePart(c: Config, s: State, aid: Aid, u: Underlying, sliceBps: nat, sid: Sid)
    requires Shaped(c, s) && WholeLots(c.lot, s.bal) && aid in c.owner && sid in c.series
    ensures var m, q := Get(Move(c, s, aid, u, sliceBps), sid), Get(s.bal[aid], sid);
      if UnderlyingOf(c, sid) == u && Active(c, s.now, sid) then LargestPart(c.lot, q, m, sliceBps) else m == 0
  {
    BalanceIsLots(c.lot, s.bal, aid, sid);
    SliceIsLargest(c.lot, Get(s.bal[aid], sid), sliceBps);
    if sid !in s.bal[aid] {
      assert LargestPart(c.lot, 0, 0, sliceBps);
    }
  }

  /** The account's legs go to the liquidator, the largest part of each that the slice allows. */
  ghost predicate LegsTaken(c: Config, s: State, s': State, aid: Aid, u: Underlying, sliceBps: nat)
    requires Shaped(c, s)
  {
    && aid in s.bal && aid in s'.bal && c.liqAid in s'.bal && aid != c.liqAid && c.liqAid in s.bal
    && s'.bal == s.bal[aid := s'.bal[aid]][c.liqAid := s'.bal[c.liqAid]]
    && forall sid {:trigger Get(s'.bal[aid], sid)} :: sid in c.series ==>
         var q, m := Get(s.bal[aid], sid), Get(s.bal[aid], sid) - Get(s'.bal[aid], sid);
         && Get(s'.bal[c.liqAid], sid) == Get(s.bal[c.liqAid], sid) + m
         && var terms := c.groups[c.series[sid].group];
         if terms.underlying == u && s.now < terms.expiry then LargestPart(c.lot, q, m, sliceBps) else m == 0
  }

  /** Every series has the net it had, and is short in total no more than it was. */
  ghost predicate NoMoreShort(c: Config, bal: map<Aid, Row>, bal': map<Aid, Row>) {
    forall sid {:trigger Held(bal', sid)} :: sid in c.series ==>
      Held(bal', sid) == Held(bal, sid) && Sum(ShortColumn(bal', sid)) <= Sum(ShortColumn(bal, sid))
  }

  /**
   * What equity and MM of the account lose with its legs, its cash aside: the legs' value and the margin they needed.
   */
  ghost function Given(c: Config, s: State, s': State, aid: Aid): (real, real)
    requires Shaped(c, s) && Shaped(c, s') && aid in c.owner
  {
    var before, after := RiskAt(c, s, s.cash[aid], s.bal[aid]), RiskAt(c, s, s.cash[aid], s'.bal[aid]);
    (before.equity - after.equity, before.mm - after.mm)
  }

  /**
   * A slice that goes through moves the largest part of each leg that it may, and pays for it at fair terms: the
   * liquidator gets minus the value of the legs, plus its bonus on the margin they needed, and insurance the penalty of
   * 200 bps.
   */
  lemma {:induction false} LiquidateDoes(c: Config, s: State, aid: Aid, u: Underlying, sliceBps: nat, bonusBps: nat)
    requires Core(c, s) && aid in c.owner && Liquidate(c, s, aid, u, sliceBps, bonusBps).Done?
    ensures var s', liq := Liquidate(c, s, aid, u, sliceBps, bonusBps).next, c.liqAid;
      && Shaped(c, s') && aid in s.cash && aid in s'.cash && liq in s.cash && liq in s'.cash
      && s' == s.(bal := s'.bal, cash := s'.cash, insurance := s'.insurance)
      && s'.cash == s.cash[aid := s'.cash[aid]][liq := s'.cash[liq]]
      && LegsTaken(c, s, s', aid, u, sliceBps)
      && var (worth, relief) := Given(c, s, s', aid);
      && 0.0 < relief && Risk(c, s, aid).equity < Risk(c, s, aid).mm
      && Risk(c, s, aid).equity - Risk(c, s, aid).mm < Risk(c, s', aid).equity - Risk(c, s', aid).mm
      && Risk(c, s', liq).im <= Risk(c, s', liq).equity + 0.000000001
      && NoMoreShort(c, s.bal, s'.bal)
      && Liquidation.FairTerms(worth, relief, bonusBps, 200, s.cash[aid], s.insurance, s'.cash[aid], s'.insurance,
           s'.cash[liq] - s.cash[liq])
  {
    hide Liquidate, Move, SliceCashFlow, RiskAt, Balanced, GroupsCore, Liquidation.FairTerms, Less, More, Given;
    hide NoMoreShort, Risk;
    LiquidateIsSlice(c, s, aid, u, sliceBps, bonusBps);
    var s', move := Liquidate(c, s, aid, u, sliceBps, bonusBps).next, Move(c, s, aid, u, sliceBps);
    LegsAre(c, s, s', aid, u, sliceBps);
    TermsAre(c, s, s', aid, move, bonusBps);
    SlicePassed(c, s, aid, u, sliceBps, bonusBps);
  }

  /** The conditions of a slice that goes through, before and after it. */
  lemma {:induction false} SlicePassed(c: Config, s: State, aid: Aid, u: Underlying, sliceBps: nat, bonusBps: nat)
    requires Core(c, s) && aid in c.owner && Liquidate(c, s, aid, u, sliceBps, bonusBps).Done?
    ensures var s', liq := Liquidate(c, s, aid, u, sliceBps, bonusBps).next, c.liqAid;
      && Shaped(c, s') && Risk(c, s, aid).equity < Risk(c, s, aid).mm
      && Risk(c, s, aid).equity - Risk(c, s, aid).mm < Risk(c, s', aid).equity - Risk(c, s', aid).mm
      && Risk(c, s', liq).im <= Risk(c, s', liq).equity + 0.000000001
      && NoMoreShort(c, s.bal, s'.bal)
  {
    hide Move, SliceCashFlow, SliceMm, RiskAt, Balanced, GroupsCore, Dust, Less, More, Held, Sum;
    var s', move := Liquidate(c, s, aid, u, sliceBps, bonusBps).next, Move(c, s, aid, u, sliceBps);
    MoveIsParts(c, s, aid, u, sliceBps);
    var n := SliceCashFlow(c, s, aid, move, bonusBps);
    RiskFrame(c, s, s', s.cash[aid] - n.payAcc - n.pen, Less(s.bal[aid], move));
  }

  lemma {:induction false} LegsAre(c: Config, s: State, s': State, aid: Aid, u: Underlying, sliceBps: nat)
    requires Shaped(c, s) && WholeLots(c.lot, s.bal) && aid in c.owner && aid != c.liqAid
    requires var move := Move(c, s, aid, u, sliceBps);
      move.Keys <= s.bal[aid].Keys && s'.bal == Moved(s.bal, aid, c.liqAid, move)
    ensures LegsTaken(c, s, s', aid, u, sliceBps)
  {
    hide Move, WholeLots, LargestPart, Less, More;
    var move := Move(c, s, aid, u, sliceBps);
    forall sid | sid in c.series
      ensures var m := Get(move, sid);
        && Get(s'.bal[aid], sid) == Get(s.bal[aid], sid) - m
        && Get(s'.bal[c.liqAid], sid) == Get(s.bal[c.liqAid], sid) + m
        && if UnderlyingOf(c, sid) == u && Active(c, s.now, sid)
           then LargestPart(c.lot, Get(s.bal[aid], sid), m, sliceBps)
           else m == 0
    {
      LessGet(s.bal[aid], move, sid);
      MoreGet(s.bal[c.liqAid], move, sid);
      MovePart(c, s, aid, u, sliceBps, sid);
    }
  }

  lemma {:induction false} TermsAre(c: Config, s: State, s': State, aid: Aid, move: Row, bonusBps: nat)
    requires Shaped(c, s) && Shaped(c, s') && 0 <= s.insurance && aid in c.owner && move.Keys <= s.bal[aid].Keys
    requires s'.bal[aid] == Less(s.bal[aid], move) && 0.0 <= SliceMm(c, s, aid, move)
    ensures var n := SliceCashFlow(c, s, aid, move, bonusBps);
      var (worth, relief) := Given(c, s, s', aid);
      && relief == SliceMm(c, s, aid, move)
      && Liquidation.FairTerms(worth, relief, bonusBps, 200, s.cash[aid], s.insurance, s.cash[aid] - n.payAcc - n.pen,
           s.insurance + n.pen - n.topup, n.payAcc + n.topup)
  {
    hide Liquidation.FairTerms, Liquidation.SliceCash, Liquidation.NativeOf, Given, SliceMark, SliceMm, Less, Risk;
    hide RiskAt;
    GivenIs(c, s, s', aid, move);
    Liquidation.TermsAreFair(SliceMark(c, s, move), SliceMm(c, s, aid, move), bonusBps, PENALTY_BPS, s.cash[aid],
      s.insurance);
  }

  /** Equity falls by the value of the legs, MM by the margin they needed. */
  lemma {:induction false} GivenIs(c: Config, s: State, s': State, aid: Aid, move: Row)
    requires Shaped(c, s) && Shaped(c, s') && aid in c.owner && move.Keys <= s.bal[aid].Keys
    requires s'.bal[aid] == Less(s.bal[aid], move)
    ensures Given(c, s, s', aid) == (SliceMark(c, s, move), SliceMm(c, s, aid, move))
  {
    hide Less, SliceMark, Legs, Margin.BookValue, Margin.TotalLoss, Margin.Buffer;
    SliceSplitsValue(c, s, s.bal[aid], move);
  }
}
