/** INV-32: cutting a redemption into portions never pays more, and every holder gets the same per unit. */
module Payouts {
  import opened Basics
  import opened Clearing

  /** A payout is its exact share rounded down: the one integer within a native unit below it. */
  lemma {:induction false} PayoutIsShare(claim: int, ratio: int, d: int)
    requires 0 < d
    ensures Payout(claim, ratio, d) * (d * WAD) <= claim * ratio < (Payout(claim, ratio, d) + 1) * (d * WAD)
  {
    FloorBounds(claim * ratio, d * WAD);
  }

  lemma {:induction false} Between(a: int, b: int, x: int, y: int, z: int, scale: int)
    requires 0 < scale && z == x + y
    requires a * scale <= x && b * scale <= y && x < (a + 1) * scale && y < (b + 1) * scale
    ensures (a + b) * scale <= z < (a + b + 2) * scale
  {
  }

  /** Two portions together pay at most what the whole pays, and less by no more than one native unit. */
  lemma {:induction false} TwoPortions(q: int, p: int, unit: int, ratio: int, d: int)
    requires 0 < d
    ensures var split := Payout(q * unit, ratio, d) + Payout(p * unit, ratio, d);
      split <= Payout((q + p) * unit, ratio, d) <= split + 1
  {
    var scale := d * WAD;
    var a, b, w := Payout(q * unit, ratio, d), Payout(p * unit, ratio, d), Payout((q + p) * unit, ratio, d);
    PayoutIsShare(q * unit, ratio, d);
    PayoutIsShare(p * unit, ratio, d);
    assert (q + p) * unit * ratio == q * unit * ratio + p * unit * ratio;
    Between(a, b, q * unit * ratio, p * unit * ratio, (q + p) * unit * ratio, scale);
    AtMostFloor(a + b, (q + p) * unit * ratio, scale);
    AtMostFloor(a + b + 2, (q + p) * unit * ratio, scale);
  }

  function Total(portions: seq<int>): int {
    if portions == [] then 0 else portions[0] + Total(portions[1..])
  }

  function TotalPaid(portions: seq<int>, unit: int, ratio: int, d: int): int
    requires 0 < d
  {
    if portions == [] then 0
    else Payout(portions[0] * unit, ratio, d) + TotalPaid(portions[1..], unit, ratio, d)
  }

  /** Redeeming in any portions pays at most what redeeming at once pays, and at most one unit less per portion. */
  lemma {:induction false} Portions(portions: seq<int>, unit: int, ratio: int, d: int)
    requires 0 < d
    ensures TotalPaid(portions, unit, ratio, d) <= Payout(Total(portions) * unit, ratio, d)
         <= TotalPaid(portions, unit, ratio, d) + |portions|
  {
    if portions == [] {
      AtMostFloor(0, 0, d * WAD);
      AtMostFloor(1, 0, d * WAD);
      assert 0 * unit == 0;
    } else {
      Portions(portions[1..], unit, ratio, d);
      TwoPortions(portions[0], Total(portions[1..]), unit, ratio, d);
    }
  }

  /** What one whole token got from a redemption of `q`, as the source measures it. */
  function PerToken(q: int, unit: int, ratio: int, d: int): int
    requires 0 < d && 0 < q
  {
    Payout(q * unit, ratio, d) * WAD / q
  }

  /** A token never gets more than its exact share, `unit * ratio * WAD / (d * WAD)`. */
  lemma {:induction false} PerTokenAtMost(q: int, unit: int, ratio: int, d: int)
    requires 0 < d && 0 < q
    ensures PerToken(q, unit, ratio, d) * (d * WAD) <= unit * ratio * WAD
  {
    var scale, pay, per := d * WAD, Payout(q * unit, ratio, d), PerToken(q, unit, ratio, d);
    PayoutIsShare(q * unit, ratio, d);
    FloorBounds(pay * WAD, q);
    ShareTimes(q, unit, ratio, scale, pay, per);
  }

  lemma {:induction false} ShareTimes(q: int, unit: int, ratio: int, scale: int, pay: int, per: int)
    requires 0 < q && 0 < scale && per * q <= pay * WAD && pay * scale <= q * unit * ratio
    ensures per * scale <= unit * ratio * WAD
  {
    calc {
      (per * scale) * q;
      (per * q) * scale;
    <= { MulAtMost(per * q, pay * WAD, scale); }
      pay * WAD * scale;
      (pay * scale) * WAD;
    <=
      (q * unit * ratio) * WAD;
      (unit * ratio * WAD) * q;
    }
    if unit * ratio * WAD < per * scale {
      MulLess(unit * ratio * WAD, per * scale, q);
    }
  }

  /** And it misses its share by less than rounding once per redemption and once per token can cost. */
  lemma {:induction false} PerTokenAtLeast(q: int, unit: int, ratio: int, d: int)
    requires 0 < d && 0 < q
    ensures q * (unit * ratio * WAD - (PerToken(q, unit, ratio, d) + 1) * (d * WAD)) < d * WAD * WAD
  {
    var scale, pay, per := d * WAD, Payout(q * unit, ratio, d), PerToken(q, unit, ratio, d);
    PayoutIsShare(q * unit, ratio, d);
    FloorBounds(pay * WAD, q);
    MissedShare(q, unit, ratio, scale, pay, per);
  }

  lemma {:induction false} MissedShare(q: int, unit: int, ratio: int, scale: int, pay: int, per: int)
    requires 0 < q && 0 < scale && pay * WAD < (per + 1) * q && q * unit * ratio < (pay + 1) * scale
    ensures q * (unit * ratio * WAD - (per + 1) * scale) < scale * WAD
  {
    calc {
      q * (unit * ratio * WAD - (per + 1) * scale);
      q * unit * ratio * WAD - ((per + 1) * q) * scale;
    <
      (pay + 1) * scale * WAD - ((per + 1) * q) * scale;
    <= { MulAtMost(pay * WAD, (per + 1) * q, scale); }
      (pay + 1) * scale * WAD - (pay * WAD) * scale;
      scale * WAD;
    }
  }

  /** Two redemptions of one series, each of at least a lot, pay the same per token up to WAD / LOT + 1. */
  lemma {:induction false} SamePerToken(q: int, p: int, lot: int, unit: int, ratio: int, d: int)
    requires 0 < d && 0 < lot <= p && 0 < q
    ensures PerToken(q, unit, ratio, d) - PerToken(p, unit, ratio, d) <= WAD / lot + 1
  {
    var scale, share := d * WAD, unit * ratio * WAD;
    var x, y := PerToken(q, unit, ratio, d), PerToken(p, unit, ratio, d);
    var k := x - y - 1;
    PerTokenAtMost(q, unit, ratio, d);
    PerTokenAtLeast(p, unit, ratio, d);
    if WAD / lot < k {
      assert k * scale == x * scale - (y + 1) * scale;
      MulAtMost(k * scale, share - (y + 1) * scale, p);
      assert p * (k * scale) < scale * WAD;
      TooMuch(p, k, lot, scale);
    }
  }

  lemma {:induction false} TooMuch(p: int, k: int, lot: int, scale: int)
    requires 0 < scale && 0 < lot <= p && WAD / lot < k
    ensures scale * WAD <= p * (k * scale)
  {
    AtMostFloor(k, WAD, lot);
    assert WAD <= k * lot;
    AtMostFloor(0, WAD, lot);
    MulAtMost(lot, p, k);
    MulAtMost(WAD, k * p, scale);
    assert k * p * scale == p * (k * scale);
  }
}
