/** The cash side of a liquidation slice: `liquidation_cash` and the rounding to native units around it. */
module Liquidation {
  import opened Basics

  datatype SliceResult = SliceResult(discount: real, penalty: real, cashToLiq: real, topup: real, unpaid: real)

  function Bps(x: real, bps: nat): real {
    x * (bps as real) / (BPS as real)
  }

  /** What the account owes the liquidator for a slice; negative when the liquidator pays the account. */
  function Owed(sliceMark: real, discount: real): real {
    if sliceMark < 0.0 then -sliceMark + discount else -MaxR(0.0, sliceMark - discount)
  }

  function SliceCash(sliceMark: real, sliceMm: real, bonusBps: nat, penaltyBps: nat, cash: real, insurance: real)
    : SliceResult
  {
    var discount, penalty := Bps(sliceMm, bonusBps), Bps(sliceMm, penaltyBps);
    var owed := Owed(sliceMark, discount);
    if cash < owed then
      var topup := MinR(owed - cash, insurance);
      SliceResult(discount, 0.0, owed, topup, owed - cash - topup)
    else
      SliceResult(discount, MinR(penalty, cash - owed), owed, 0.0, 0.0)
  }

  /**
   * The cash rule of a slice. Nobody pays more than it has, what is owed is fully accounted for, and with a margin of
   * `sliceMm` and a value of `sliceMark` gone the account's health has risen by all but bonus and penalty (INV-22).
   */
  method LiquidationCash(sliceMark: real, sliceMm: real, bonusBps: nat, penaltyBps: nat, cash: real, insurance: real)
      returns (r: SliceResult)
    ensures r == SliceCash(sliceMark, sliceMm, bonusBps, penaltyBps, cash, insurance)
    ensures 0.0 <= cash && 0.0 <= insurance && 0.0 <= sliceMm ==>
      && r.cashToLiq == MinR(r.cashToLiq, cash) + r.topup + r.unpaid
      && PaidByAccount(r, cash) <= cash && 0.0 <= r.topup <= insurance && 0.0 <= r.unpaid
      && 0.0 <= r.penalty <= Bps(sliceMm, penaltyBps)
      && (0.0 < r.unpaid ==> r.topup == insurance && PaidByAccount(r, cash) == cash)
    ensures 0.0 <= sliceMm ==>
      sliceMm - Bps(sliceMm, bonusBps) - Bps(sliceMm, penaltyBps) <= sliceMm - sliceMark - PaidByAccount(r, cash)
  {
    if 0.0 <= sliceMm {
      SliceRaisesHealth(sliceMark, sliceMm, bonusBps, penaltyBps, cash, insurance);
      if 0.0 <= cash && 0.0 <= insurance {
        SliceCashAddsUp(sliceMark, sliceMm, bonusBps, penaltyBps, cash, insurance);
      }
    }
    var discount := sliceMm * (bonusBps as real) / (BPS as real);
    var penalty := sliceMm * (penaltyBps as real) / (BPS as real);
    var owed;
    if sliceMark < 0.0 {
      owed := -sliceMark + discount;
    } else {
      owed := -MaxR(0.0, sliceMark - discount);
    }
    var topup, unpaid := 0.0, 0.0;
    if cash < owed {
      topup := MinR(owed - cash, insurance);
      unpaid := owed - cash - topup;
      penalty := 0.0;
    } else {
      penalty := MinR(penalty, cash - owed);
    }
    r := SliceResult(discount, penalty, owed, topup, unpaid);
  }

  /** What leaves the account: the liquidator's cash as far as it has it, and the penalty. */
  function PaidByAccount(r: SliceResult, cash: real): real {
    MinR(r.cashToLiq, cash) + r.penalty
  }

  /** The slice's cash is fully accounted for: the account, insurance and an unpaid rest cover what is owed. */
  lemma {:induction false} SliceCashAddsUp(sliceMark: real, sliceMm: real, bonusBps: nat, penaltyBps: nat, cash: real,
      insurance: real)
    requires 0.0 <= cash && 0.0 <= insurance && 0.0 <= sliceMm
    ensures var r := SliceCash(sliceMark, sliceMm, bonusBps, penaltyBps, cash, insurance);
      && r.cashToLiq == MinR(r.cashToLiq, cash) + r.topup + r.unpaid
      && 0.0 <= r.topup <= insurance && 0.0 <= r.unpaid && 0.0 <= r.penalty <= Bps(sliceMm, penaltyBps)
      && PaidByAccount(r, cash) <= cash
      && (0.0 < r.unpaid ==> r.topup == insurance && PaidByAccount(r, cash) == cash)
  {
    BpsNonNegative(sliceMm, penaltyBps);
  }

  lemma {:induction false} PenaltyNonNegative(sliceMark: real, sliceMm: real, bonusBps: nat, penaltyBps: nat,
      cash: real, insurance: real)
    requires 0.0 <= sliceMm
    ensures 0.0 <= SliceCash(sliceMark, sliceMm, bonusBps, penaltyBps, cash, insurance).penalty
  {
    BpsNonNegative(sliceMm, penaltyBps);
  }

  lemma {:induction false} BpsNonNegative(x: real, bps: nat)
    requires 0.0 <= x
    ensures 0.0 <= Bps(x, bps)
  {
  }

  /**
   * INV-22: a slice takes the margin `sliceMm` and the value `sliceMark` away. Whatever branch the cash rule takes, the
   * account's equity - MM rises by at least sliceMm * (1 - bonus - penalty), and by exactly that when it pays in full
   * for a net liability.
   */
  lemma {:induction false} SliceRaisesHealth(sliceMark: real, sliceMm: real, bonusBps: nat, penaltyBps: nat, cash: real,
      insurance: real)
    requires 0.0 <= sliceMm
    ensures var r := SliceCash(sliceMark, sliceMm, bonusBps, penaltyBps, cash, insurance);
      var gain := sliceMm - sliceMark - PaidByAccount(r, cash);
      && sliceMm - Bps(sliceMm, bonusBps) - Bps(sliceMm, penaltyBps) <= gain
      && (sliceMark < 0.0 && r.cashToLiq + Bps(sliceMm, penaltyBps) <= cash ==>
            gain == sliceMm - Bps(sliceMm, bonusBps) - Bps(sliceMm, penaltyBps))
  {
    BpsNonNegative(sliceMm, bonusBps);
    BpsNonNegative(sliceMm, penaltyBps);
  }

  // ---------------------------------------------------------------------------------------------------------
  // Native units
  // ---------------------------------------------------------------------------------------------------------

  const SUBUNITS: int := 1_000_000

  /** Python's `int(x)`. */
  function Trunc(x: real): int {
    if x < 0.0 then -((-x).Floor) else x.Floor
  }

  /** `-(-int(x * 10**6) // 10**6)`: x truncated to a millionth of a unit, then rounded up to a whole one. */
  function RoundUp(x: real): int {
    CeilDiv(Trunc(x * (SUBUNITS as real)), SUBUNITS)
  }

  lemma {:induction false} RoundUpBounds(x: real)
    requires 0.0 <= x
    ensures 0 <= RoundUp(x) && RoundUp(x) as real < x + 1.0
    ensures x - 1.0 / (SUBUNITS as real) < RoundUp(x) as real
  {
    var f := Trunc(x * (SUBUNITS as real));
    assert f as real <= x * 1_000_000.0 < f as real + 1.0;
    assert (RoundUp(x) - 1) * 1_000_000 < f <= RoundUp(x) * 1_000_000;
  }

  datatype NativeSlice = NativeSlice(payAcc: int, pen: int, topup: int)

  /** Cash for the liquidator: rounded up when the account pays it, down when the liquidator pays the account. */
  function Pay(owed: real): int {
    if 0.0 < owed then RoundUp(owed) else -Trunc(-owed)
  }

  /** The slice's cash in native units, from what is owed and the penalty measured in native units. */
  function Native(owed: real, penalty: real, cash: int, insurance: int): NativeSlice {
    var pay := Pay(owed);
    if cash < pay then NativeSlice(cash, 0, Min(pay - cash, insurance))
    else NativeSlice(pay, Min(RoundUp(penalty), cash - pay), 0)
  }

  /**
   * What the liquidator gets out of a slice, or pays: all that is owed, as far as the account and insurance have it.
   */
  lemma {:induction false} LiquidatorGets(owed: real, penalty: real, cash: int, insurance: int)
    requires 0 <= insurance
    ensures var n := Native(owed, penalty, cash, insurance);
      n.payAcc + n.topup == Min(Pay(owed), cash + insurance)
  {
  }

  /** The account never pays what it does not have, nor insurance more than its balance. */
  lemma {:induction false} NativeWithinMeans(owed: real, penalty: real, cash: int, insurance: int)
    requires 0.0 <= penalty && 0 <= insurance
    ensures var n := Native(owed, penalty, cash, insurance);
      && n.payAcc + n.pen <= cash && 0 <= n.pen && 0 <= n.topup <= insurance
      && n.payAcc + n.topup <= Pay(owed)
  {
    RoundUpBounds(penalty);
  }

  /** Rounding costs the account less than two native units on top of the exact rule. */
  lemma {:induction false} NativeCost(owed: real, penalty: real, cash: int, insurance: int)
    requires 0.0 <= penalty
    ensures var n := Native(owed, penalty, cash, insurance);
      (n.payAcc + n.pen) as real < owed + penalty + 2.0
  {
    RoundUpBounds(penalty);
    if 0.0 < owed {
      RoundUpBounds(owed);
    }
  }

  /** Native units to whole tokens. */
  function Tokens(native: int): real {
    (native as real) / (UNIT as real)
  }

  function NativeOf(r: SliceResult, cash: int, insurance: int): NativeSlice {
    Native(r.cashToLiq * (UNIT as real), r.penalty * (UNIT as real), cash, insurance)
  }

  /**
   * INV-22 in native units: a slice raises equity - MM by more than sliceMm * (1 - bonus - penalty) less two units.
   * So only a dust slice can fail the strict-improvement check.
   */
  lemma {:induction false} NativeSliceRaisesHealth(sliceMark: real, sliceMm: real, bonusBps: nat, penaltyBps: nat,
      cash: int, insurance: int)
    requires 0 <= insurance && 0.0 <= sliceMm
    ensures var r := SliceCash(sliceMark, sliceMm, bonusBps, penaltyBps, Tokens(cash), Tokens(insurance));
      var n := NativeOf(r, cash, insurance);
      sliceMm - Bps(sliceMm, bonusBps) - Bps(sliceMm, penaltyBps) - Tokens(2)
        < sliceMm - sliceMark - Tokens(n.payAcc + n.pen)
  {
    var c, i := Tokens(cash), Tokens(insurance);
    var r := SliceCash(sliceMark, sliceMm, bonusBps, penaltyBps, c, i);
    PenaltyNonNegative(sliceMark, sliceMm, bonusBps, penaltyBps, c, i);
    NativeCost(r.cashToLiq * (UNIT as real), r.penalty * (UNIT as real), cash, insurance);
    NativeWithinMeans(r.cashToLiq * (UNIT as real), r.penalty * (UNIT as real), cash, insurance);
    var n := NativeOf(r, cash, insurance);
    RoundedSliceRaisesHealth(sliceMark, sliceMm, bonusBps, penaltyBps, c, i, Tokens(n.payAcc + n.pen), Tokens(2));
  }

  lemma {:induction false} RoundedSliceRaisesHealth(sliceMark: real, sliceMm: real, bonusBps: nat, penaltyBps: nat,
      cash: real, insurance: real, paid: real, slack: real)
    requires 0.0 <= sliceMm && 0.0 < slack && paid <= cash
    requires var r := SliceCash(sliceMark, sliceMm, bonusBps, penaltyBps, cash, insurance);
      paid < r.cashToLiq + r.penalty + slack
    ensures sliceMm - Bps(sliceMm, bonusBps) - Bps(sliceMm, penaltyBps) - slack < sliceMm - sliceMark - paid
  {
    SliceRaisesHealth(sliceMark, sliceMm, bonusBps, penaltyBps, cash, insurance);
  }

  /** What a slice asks of the liquidator: the slice's value less the discount, if that is anything, rounded down. */
  function Ask(sliceMark: real, sliceMm: real, bonusBps: nat): int {
    Trunc(MaxR(0.0, sliceMark - Bps(sliceMm, bonusBps)) * (UNIT as real))
  }

  /** The liquidator pays exactly what is asked, and when nothing is asked it never pays. */
  lemma {:induction false} LiquidatorPaysAsk(sliceMark: real, sliceMm: real, bonusBps: nat, penaltyBps: nat, cash: int,
      insurance: int)
    requires 0 <= cash && 0 <= insurance && 0.0 <= sliceMm
    ensures var r := SliceCash(sliceMark, sliceMm, bonusBps, penaltyBps, Tokens(cash), Tokens(insurance));
      var n := NativeOf(r, cash, insurance);
      var ask := Ask(sliceMark, sliceMm, bonusBps);
      && 0 <= ask
      && (if 0 < ask then n.payAcc + n.topup == -ask else 0 <= n.payAcc + n.topup)
  {
    BpsNonNegative(sliceMm, bonusBps);
    var owed := Owed(sliceMark, Bps(sliceMm, bonusBps)) * (UNIT as real);
    if 0.0 < owed {
      RoundUpBounds(owed);
    }
  }

  // ---------------------------------------------------------------------------------------------------------
  // The terms of a slice
  // ---------------------------------------------------------------------------------------------------------

  /** What the account owes the liquidator, in native units: minus the legs' value, plus the bonus on the margin. */
  function OwedNative(worth: real, relief: real, bonusBps: nat): real {
    var bonus := relief * (bonusBps as real) / 10_000.0;
    (if worth < 0.0 then bonus - worth else if worth < bonus then 0.0 else bonus - worth) * 1_000_000.0
  }

  /**
   * The terms of a slice of legs worth `worth` whose margin is `relief`, from the account's cash and the insurance fund
   * before and after, and what the liquidator got. It gets what it is owed, rounded up to a millionth of a native unit,
   * unless account and fund are left empty. Insurance gets its penalty, unless the account is left empty, and pays only
   * then.
   */
  ghost predicate FairTerms(worth: real, relief: real, bonusBps: nat, penaltyBps: nat, cash: int, insurance: int,
      cash': int, insurance': int, got: int)
  {
    var owed, due := OwedNative(worth, relief, bonusBps), relief * (penaltyBps as real) / 10_000.0 * 1_000_000.0;
    && cash + insurance == cash' + insurance' + got
    && (got as real) < owed + 1.0
    && ((if 0.0 < owed then owed - 0.000001 < got as real else owed <= got as real) || (cash' == 0 && insurance' == 0))
    && ((insurance' - insurance) as real) < due + 1.0
    && (due - 0.000001 < (insurance' - insurance) as real || cash' == 0)
    && (insurance' < insurance ==> cash' == 0)
    && 0 <= insurance' && (cash < got ==> cash' == 0) && (got <= cash ==> 0 <= cash')
  }

  lemma {:induction false} RoundUpBetween(x: real, k: int)
    requires 0.0 <= x
    ensures k as real <= x ==> k <= RoundUp(x)
    ensures x <= k as real ==> RoundUp(x) <= k
  {
    var f := Trunc(x * (SUBUNITS as real));
    assert f as real <= x * 1_000_000.0 < f as real + 1.0;
    assert (RoundUp(x) - 1) * 1_000_000 < f <= RoundUp(x) * 1_000_000;
  }

  /** Two parts of a whole number, each rounded up, cover it. */
  lemma {:induction false} RoundUpParts(x: real, y: real, k: int)
    requires 0.0 <= x && 0.0 <= y && x + y == k as real
    ensures k <= RoundUp(x) + RoundUp(y)
  {
    var f, g := Trunc(x * (SUBUNITS as real)), Trunc(y * (SUBUNITS as real));
    assert x * 1_000_000.0 < f as real + 1.0 && y * 1_000_000.0 < g as real + 1.0;
    assert f <= RoundUp(x) * 1_000_000 && g <= RoundUp(y) * 1_000_000;
    assert (k * 1_000_000) as real < (f + g + 2) as real;
  }

  /** Cash for the liquidator against what is owed. */
  lemma {:induction false} PayBounds(owed: real, cash: int)
    ensures (Pay(owed) as real) < owed + 1.0
    ensures if 0.0 < owed then owed - 0.000001 < Pay(owed) as real else owed <= Pay(owed) as real
    ensures cash as real < owed ==> cash <= Pay(owed)
    ensures owed <= cash as real ==> Pay(owed) <= cash
  {
    if 0.0 < owed {
      RoundUpBounds(owed);
      RoundUpBetween(owed, cash);
    } else {
      assert (-owed).Floor as real <= -owed < (-owed).Floor as real + 1.0;
    }
  }

  /** What is left after liquidator and penalty: nothing, if the penalty was cut short. */
  lemma {:induction false} PenaltyIsDue(owed: real, due: real, cash: int)
    requires 0.0 <= due && owed <= cash as real
    ensures var pen := Min(RoundUp(MinR(due, cash as real - owed)), cash - Pay(owed));
      && 0 <= pen && (pen as real) < due + 1.0
      && (due - 0.000001 < pen as real || pen == cash - Pay(owed))
  {
    PayBounds(owed, cash);
    var short := cash as real - owed;
    RoundUpBounds(MinR(due, short));
    RoundUpBounds(due);
    if short < due {
      if 0.0 < owed {
        RoundUpParts(owed, short, cash);
      } else {
        RoundUpBetween(short, cash - Pay(owed));
      }
    }
  }

  /** The terms are kept in every branch, with all rounding. */
  lemma {:induction false} TermsAreFair(sliceMark: real, sliceMm: real, bonusBps: nat, penaltyBps: nat, cash: int,
      insurance: int)
    requires 0 <= insurance && 0.0 <= sliceMm
    ensures var r := SliceCash(sliceMark, sliceMm, bonusBps, penaltyBps, Tokens(cash), Tokens(insurance));
      var n := NativeOf(r, cash, insurance);
      FairTerms(sliceMark, sliceMm, bonusBps, penaltyBps, cash, insurance, cash - n.payAcc - n.pen,
        insurance + n.pen - n.topup, n.payAcc + n.topup)
  {
    BpsNonNegative(sliceMm, bonusBps);
    BpsNonNegative(sliceMm, penaltyBps);
    var owed, due := Owed(sliceMark, Bps(sliceMm, bonusBps)) * 1_000_000.0, Bps(sliceMm, penaltyBps) * 1_000_000.0;
    assert owed == OwedNative(sliceMark, sliceMm, bonusBps);
    PayBounds(owed, cash);
    if owed <= cash as real {
      PenaltyIsDue(owed, due, cash);
    }
  }
}
