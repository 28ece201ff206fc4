/** Liquidation slices: what they keep (INV-1, 6, 8, 24, 25) and what they improve (INV-22). */
module Slices {
  import opened Basics
  import opened Sums
  import opened Tables
  import opened Clearing
  import opened Invariant
  import opened Trading
  import Liquidation

  /** A slice of one balance: on its side of zero, not more than it, in whole lots. */
  ghost predicate PartOf(m: int, q: int) {
    0 <= m <= q || q <= m <= 0
  }

  /** A slice of a balance is whole lots, and a part of it unless it is more than the whole. */
  lemma {:induction false} SliceIsPart(lot: nat, q: int, sliceBps: nat)
    requires 0 < lot
    ensures IsLots(lot, SliceOf(lot, q, sliceBps))
    ensures sliceBps <= BPS ==> PartOf(SliceOf(lot, q, sliceBps), q)
  {
    var size := Max(q, -q);
    var whole := size / lot;
    var lots := whole * sliceBps / BPS;
    FloorBounds(size, lot);
    assert 0 <= whole by { AtMostFloor(0, size, lot); }
    if sliceBps <= BPS {
      LotsAtMost(whole, sliceBps);
      MulAtMost(lots, whole, lot);
      MulAtMost(0, lots, lot);
    }
    LotsOf(lot, lots);
    LotsOf(lot, -lots);
  }

  lemma {:induction false} LotsAtMost(whole: int, sliceBps: nat)
    requires 0 <= whole && sliceBps <= BPS
    ensures 0 <= whole * sliceBps / BPS <= whole
  {
    MulAtMost(sliceBps, BPS, whole);
    MulAtMost(0, sliceBps, whole);
  }

  /** `move` takes a part of each balance it names. */
  ghost predicate Parts(row: Row, move: Row) {
    forall sid :: sid in move ==> sid in row && PartOf(move[sid], row[sid])
  }

  /**
   * A slice names unexpired legs of the account, in whole lots, and takes parts of them unless it exceeds the whole.
   */
  lemma {:induction false} MoveIsParts(c: Config, s: State, aid: Aid, u: Underlying, sliceBps: nat)
    requires Shaped(c, s) && aid in c.owner
    ensures var move := Move(c, s, aid, u, sliceBps);
      && move.Keys <= s.bal[aid].Keys
      && (forall sid :: sid in move ==> IsLots(c.lot, move[sid]) && Active(c, s.now, sid))
      && (sliceBps <= BPS ==> Parts(s.bal[aid], move))
  {
    forall sid | sid in Move(c, s, aid, u, sliceBps)
      ensures sliceBps <= BPS ==> PartOf(Move(c, s, aid, u, sliceBps)[sid], s.bal[aid][sid])
      ensures IsLots(c.lot, Move(c, s, aid, u, sliceBps)[sid])
    {
      SliceIsPart(c.lot, s.bal[aid][sid], sliceBps);
    }
  }

  lemma {:induction false} LessGet(row: Row, move: Row, sid: Sid)
    requires move.Keys <= row.Keys
    ensures Get(Less(row, move), sid) == Get(row, sid) - Get(move, sid)
  {
  }

  lemma {:induction false} MoreGet(row: Row, move: Row, sid: Sid)
    ensures Get(More(row, move), sid) == Get(row, sid) + Get(move, sid)
  {
  }

  ghost function Moved(bal: map<Aid, Row>, aid: Aid, liq: Aid, move: Row): map<Aid, Row>
    requires aid in bal && liq in bal && aid != liq
  {
    bal[aid := Less(bal[aid], move)][liq := More(bal[liq], move)]
  }

  lemma {:induction false} MovedColumn(bal: map<Aid, Row>, aid: Aid, liq: Aid, move: Row, sid: Sid)
    requires aid in bal && liq in bal && aid != liq && move.Keys <= bal[aid].Keys
    ensures Column(Moved(bal, aid, liq, move), sid)
         == Column(bal, sid)[aid := Get(bal[aid], sid) - Get(move, sid)][liq := Get(bal[liq], sid) + Get(move, sid)]
  {
    LessGet(bal[aid], move, sid);
    MoreGet(bal[liq], move, sid);
  }

  /** INV-24: a slice leaves the net balance of every series as it is. */
  lemma {:induction false} MovedHeld(bal: map<Aid, Row>, aid: Aid, liq: Aid, move: Row, sid: Sid)
    requires aid in bal && liq in bal && aid != liq && move.Keys <= bal[aid].Keys
    ensures Held(Moved(bal, aid, liq, move), sid) == Held(bal, sid)
  {
    var col, m := Column(bal, sid), Get(move, sid);
    MovedColumn(bal, aid, liq, move, sid);
    SumPutTwo(col, aid, Get(bal[aid], sid) - m, liq, Get(bal[liq], sid) + m);
  }

  /** INV-24: a slice never raises the total short of a series; it falls when the liquidator nets. */
  lemma {:induction false} MovedShorts(bal: map<Aid, Row>, aid: Aid, liq: Aid, move: Row, sid: Sid)
    requires aid in bal && liq in bal && aid != liq && Parts(bal[aid], move)
    ensures Sum(ShortColumn(Moved(bal, aid, liq, move), sid)) <= Sum(ShortColumn(bal, sid))
  {
    hide Moved;
    var col, m := ShortColumn(bal, sid), Get(move, sid);
    var x, y := Max(-(Get(bal[aid], sid) - m), 0), Max(-(Get(bal[liq], sid) + m), 0);
    MovedShortColumn(bal, aid, liq, move, sid);
    SumPutTwo(col, aid, x, liq, y);
    assert sid in move ==> PartOf(move[sid], bal[aid][sid]);
    ShortsNet(Get(bal[aid], sid), Get(bal[liq], sid), m);
  }

  lemma {:induction false} MovedShortColumn(bal: map<Aid, Row>, aid: Aid, liq: Aid, move: Row, sid: Sid)
    requires aid in bal && liq in bal && aid != liq && move.Keys <= bal[aid].Keys
    ensures ShortColumn(Moved(bal, aid, liq, move), sid)
         == ShortColumn(bal, sid)[aid := Max(-(Get(bal[aid], sid) - Get(move, sid)), 0)]
                                 [liq := Max(-(Get(bal[liq], sid) + Get(move, sid)), 0)]
  {
    LessGet(bal[aid], move, sid);
    MoreGet(bal[liq], move, sid);
  }

  lemma {:induction false} ShortsNet(q: int, l: int, m: int)
    requires PartOf(m, q) || m == 0
    ensures Max(-(q - m), 0) + Max(-(l + m), 0) <= Max(-q, 0) + Max(-l, 0)
  {
  }

  lemma {:induction false} MovedKeepsLots(lot: nat, bal: map<Aid, Row>, aid: Aid, liq: Aid, move: Row)
    requires 0 < lot && WholeLots(lot, bal) && aid in bal && liq in bal && aid != liq && move.Keys <= bal[aid].Keys
    requires forall sid :: sid in move ==> IsLots(lot, move[sid])
    ensures WholeLots(lot, Moved(bal, aid, liq, move))
  {
    var bal' := Moved(bal, aid, liq, move);
    forall a, sid | a in bal' && sid in bal'[a] ensures bal'[a][sid] != 0 && IsLots(lot, bal'[a][sid]) {
      if a == aid {
        LessIsLots(lot, bal, aid, move, sid);
      } else if a == liq {
        MoreIsLots(lot, bal, liq, move, sid);
      } else {
        assert IsLots(lot, bal[a][sid]);
      }
    }
  }

  lemma {:induction false} LessIsLots(lot: nat, bal: map<Aid, Row>, a: Aid, move: Row, sid: Sid)
    requires 0 < lot && WholeLots(lot, bal) && a in bal && sid in Less(bal[a], move)
    requires sid in move ==> IsLots(lot, move[sid])
    ensures IsLots(lot, Less(bal[a], move)[sid])
  {
    var m := Get(move, sid);
    BalanceIsLots(lot, bal, a, sid);
    LotsOf(lot, 0);
    LotsNegate(lot, m);
    LotsAdd(lot, bal[a][sid], -m);
  }

  lemma {:induction false} MoreIsLots(lot: nat, bal: map<Aid, Row>, a: Aid, move: Row, sid: Sid)
    requires 0 < lot && WholeLots(lot, bal) && a in bal && sid in More(bal[a], move)
    requires sid in move ==> IsLots(lot, move[sid])
    ensures IsLots(lot, More(bal[a], move)[sid])
  {
    BalanceIsLots(lot, bal, a, sid);
    LotsOf(lot, 0);
    LotsAdd(lot, Get(bal[a], sid), Get(move, sid));
  }

  /** What a slice may do to the state, whatever prices led to it. */
  ghost predicate SliceTaken(c: Config, s: State, s': State, aid: Aid, move: Row, n: Liquidation.NativeSlice)
    requires Shaped(c, s)
  {
    && aid in c.owner && aid != c.liqAid && move.Keys <= s.bal[aid].Keys
    && (forall sid :: sid in move ==> IsLots(c.lot, move[sid]) && Active(c, s.now, sid))
    && s' == Sliced(c, s, aid, move, n)
  }

  /**
   * The liquidator has the cash a slice asks of it, by the value of the legs and the margin they free as they stand
   * before the call: the one thing `liquidate` does not check.
   */
  ghost predicate LiquidatorCanPay(c: Config, s: State, aid: Aid, move: Row, bonusBps: nat)
    requires Shaped(c, s) && aid in c.owner && move.Keys <= c.series.Keys
  {
    Liquidation.Ask(SliceMark(c, s, move), SliceMm(c, s, aid, move), bonusBps) <= s.cash[c.liqAid]
  }

  lemma {:induction false} SliceMoney(c: Config, s: State, s': State, aid: Aid, move: Row, n: Liquidation.NativeSlice)
    requires Shaped(c, s) && SliceTaken(c, s, s', aid, move, n)
    ensures Money(s') == Money(s)
  {
    SumPutTwo(s.cash, aid, s.cash[aid] - n.payAcc - n.pen, c.liqAid, s.cash[c.liqAid] + n.payAcc + n.topup);
  }

  lemma {:induction false} SliceIsTrade(c: Config, s: State, s': State, aid: Aid, move: Row, n: Liquidation.NativeSlice)
    requires Shaped(c, s) && WholeLots(c.lot, s.bal) && SliceTaken(c, s, s', aid, move, n)
    requires forall sid :: sid in move ==> Open(c, s, sid)
    ensures Traded(c, s, s', move.Keys) && WholeLots(c.lot, s'.bal)
  {
    assert s'.bal == Moved(s.bal, aid, c.liqAid, move);
    MovedKeepsLots(c.lot, s.bal, aid, c.liqAid, move);
    forall sid | sid in move ensures Held(s'.bal, sid) == Held(s.bal, sid) {
      MovedHeld(s.bal, aid, c.liqAid, move, sid);
    }
    forall a, sid | a in s.bal && sid !in move ensures Get(s'.bal[a], sid) == Get(s.bal[a], sid) {
      LessGet(s.bal[aid], move, sid);
      MoreGet(s.bal[c.liqAid], move, sid);
    }
  }

  /**
   * Nobody but the liquidator can be overdrawn by a slice; the whole invariant survives exactly when the liquidator's
   * cash does not end below zero.
   */
  lemma {:induction false} SliceKeepsInv(c: Config, s: State, s': State, aid: Aid, move: Row,
      n: Liquidation.NativeSlice)
    requires Core(c, s) && SliceTaken(c, s, s', aid, move, n)
    requires n.payAcc + n.pen <= s.cash[aid] && 0 <= n.pen && n.topup <= s.insurance
    ensures Core(c, s') && Harmless(c, s, s')
    ensures Inv(c, s) ==> (Inv(c, s') <==> 0 <= s.cash[c.liqAid] + n.payAcc + n.topup)
  {
    hide Balanced, GroupsCore, InOrder, Less, More, Parts;
    forall sid | sid in move ensures Open(c, s, sid) {
      ActiveIsOpen(c, s, sid);
    }
    SliceIsTrade(c, s, s', aid, move, n);
    TradeKeepsInv(c, s, s', move.Keys);
    assert s'.cash[c.liqAid] == s.cash[c.liqAid] + n.payAcc + n.topup;
  }

  /** Paying what is asked is all it takes for the liquidator's cash to stay non-negative. */
  lemma {:induction false} AskDecides(c: Config, s: State, aid: Aid, move: Row, bonusBps: nat)
    requires Inv(c, s) && aid in c.owner && move.Keys <= c.series.Keys && 0.0 <= SliceMm(c, s, aid, move)
    ensures var n := SliceCashFlow(c, s, aid, move, bonusBps);
      LiquidatorCanPay(c, s, aid, move, bonusBps) <==> 0 <= s.cash[c.liqAid] + n.payAcc + n.topup
  {
    hide SliceMark, SliceMm, Liquidation.SliceCash, Liquidation.NativeOf, Liquidation.Ask;
    Liquidation.LiquidatorPaysAsk(SliceMark(c, s, move), SliceMm(c, s, aid, move), bonusBps, PENALTY_BPS, s.cash[aid],
      s.insurance);
  }

  /** A slice worth no more than its discount is always safe. */
  lemma {:induction false} WorthlessSliceIsPayable(c: Config, s: State, aid: Aid, move: Row, bonusBps: nat)
    requires Inv(c, s) && aid in c.owner && move.Keys <= c.series.Keys
    requires SliceMark(c, s, move) <= Liquidation.Bps(SliceMm(c, s, aid, move), bonusBps)
    ensures LiquidatorCanPay(c, s, aid, move, bonusBps)
  {
    hide SliceMark, SliceMm, Liquidation.Bps;
  }

  lemma {:induction false} LiquidateIsSlice(c: Config, s: State, aid: Aid, u: Underlying, sliceBps: nat, bonusBps: nat)
    requires Shaped(c, s) && aid in c.owner && Liquidate(c, s, aid, u, sliceBps, bonusBps).Done?
    ensures var move := Move(c, s, aid, u, sliceBps);
      && SliceTaken(c, s, Liquidate(c, s, aid, u, sliceBps, bonusBps).next, aid, move,
                    SliceCashFlow(c, s, aid, move, bonusBps))
      && 0.0 < SliceMm(c, s, aid, move)
  {
    hide Risk, RiskAt, SliceMm, SliceCashFlow, ShortsHold, Dust, Healthy;
    MoveIsParts(c, s, aid, u, sliceBps);
  }

  lemma {:induction false} SliceWithinMeans(c: Config, s: State, aid: Aid, move: Row, bonusBps: nat)
    requires Core(c, s) && aid in c.owner && move.Keys <= c.series.Keys && 0.0 <= SliceMm(c, s, aid, move)
    ensures var n := SliceCashFlow(c, s, aid, move, bonusBps);
      n.payAcc + n.pen <= s.cash[aid] && 0 <= n.pen && 0 <= n.topup <= s.insurance
  {
    hide SliceMark, SliceMm;
    var cash, ins := Liquidation.Tokens(s.cash[aid]), Liquidation.Tokens(s.insurance);
    var mark, mm := SliceMark(c, s, move), SliceMm(c, s, aid, move);
    var r := Liquidation.SliceCash(mark, mm, bonusBps, PENALTY_BPS, cash, ins);
    Liquidation.PenaltyNonNegative(mark, mm, bonusBps, PENALTY_BPS, cash, ins);
    Liquidation.NativeWithinMeans(r.cashToLiq * (UNIT as real), r.penalty * (UNIT as real), s.cash[aid], s.insurance);
  }

  /**
   * A liquidation that goes through keeps everything but the liquidator's solvency, and that exactly when the
   * liquidator has the value of the slice less the discount in cash: nothing checks that, and a slice worth more than
   * its discount can drive the liquidator's cash below zero (INV-8).
   */
  lemma {:induction false} LiquidateSafe(c: Config, s: State, aid: Aid, u: Underlying, sliceBps: nat, bonusBps: nat)
    requires Core(c, s) && aid in c.owner
    ensures var r := Liquidate(c, s, aid, u, sliceBps, bonusBps);
      r.Done? ==>
        && Core(c, r.next) && Money(r.next) == Money(s) && Harmless(c, s, r.next)
        && (Inv(c, s) ==>
              (Inv(c, r.next) <==> LiquidatorCanPay(c, s, aid, Move(c, s, aid, u, sliceBps), bonusBps)))
  {
    hide Risk, RiskAt, SliceMm, SliceCashFlow, LiquidatorCanPay, Harmless, Sliced, Parts, Money, CashOk, GroupsOk;
    hide ShortsHold, Dust;
    var r := Liquidate(c, s, aid, u, sliceBps, bonusBps);
    if r.Done? {
      LiquidateIsSlice(c, s, aid, u, sliceBps, bonusBps);
      var move := Move(c, s, aid, u, sliceBps);
      var n := SliceCashFlow(c, s, aid, move, bonusBps);
      SliceWithinMeans(c, s, aid, move, bonusBps);
      SliceMoney(c, s, r.next, aid, move, n);
      SliceKeepsInv(c, s, r.next, aid, move, n);
      if Inv(c, s) {
        AskDecides(c, s, aid, move, bonusBps);
      }
    }
  }
}
