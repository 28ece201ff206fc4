/** INV-32 about redemptions: in portions or at once, now or later, by whomever, a token brings the same. */
module Fairness {
  import opened Basics
  import opened Sums
  import opened Tables
  import opened Clearing
  import opened Invariant
  import opened Runs
  import opened Dues
  import opened Payouts

  /** A wallet redeems one portion after another. */
  function Redemptions(o: Owner, sid: Sid, portions: seq<int>): seq<Action> {
    if portions == [] then [] else [RedeemWrapper(o, sid, portions[0])] + Redemptions(o, sid, portions[1..])
  }

  /** A group in order with its ratio fixed, and a wallet that can redeem `q` of a series in it. */
  ghost predicate CanRedeem(c: Config, s: State, o: Owner, sid: Sid, q: int) {
    && Core(c, s) && o in c.wallets && sid in c.series && Shaped(c, s)
    && InOrder(c, s, c.series[sid].group) && s.groups[c.series[sid].group].ratio.Some?
    && q <= Get(s.wr[o], sid)
  }

  /** The claim of tokens against what they brought in `n` portions: each lost less than one native unit. */
  predicate Brought(claim: int, ratio: int, paid: int, n: nat, scale: int) {
    paid * scale <= claim * ratio <= (paid + n) * scale
  }

  lemma {:induction false} BroughtMore(claim: int, more: int, ratio: int, paid: int, pay: int, n: nat, scale: int)
    requires Brought(more, ratio, paid, n, scale) && pay * scale <= claim * ratio < (pay + 1) * scale
    ensures Brought(claim + more, ratio, pay + paid, n + 1, scale)
  {
    Distribute(claim, more, ratio);
    Distribute(pay, paid, scale);
    Distribute(pay + 1, paid + n, scale);
  }

  lemma {:induction false} ClaimsAdd(x: Series, q: int, p: int, price: int)
    ensures TokenClaim(x, q + p, price) == TokenClaim(x, q, price) + TokenClaim(x, p, price)
  {
    Distribute(q, p, IntrinsicInt(x, price) * x.size);
  }

  /** From `s` to `s'` the wallet redeemed `q` of a series, and the group's terms are what they were. */
  ghost predicate RedeemedOne(c: Config, s: State, s': State, o: Owner, sid: Sid, q: int) {
    && sid in c.series && c.series[sid].group in s.groups && c.series[sid].group in s'.groups
    && o in s.wr && o in s'.wr && o in s.usdc && o in s'.usdc
    && var x, x' := s.groups[c.series[sid].group], s'.groups[c.series[sid].group];
    && x.price.Some? && x.ratio.Some? && x'.price == x.price && x'.ratio == x.ratio
    && Get(s'.wr[o], sid) == Get(s.wr[o], sid) - q
    && PaysShare(s'.usdc[o] - s.usdc[o], TokenClaim(c.series[sid], q, x.price.value), x.ratio.value, Scale(DEC))
  }

  /** What one redemption changes for the next. */
  lemma {:induction false} OneRedemption(c: Config, s: State, o: Owner, sid: Sid, q: int, rest: int)
    requires CanRedeem(c, s, o, sid, q + rest) && 0 < q && 0 <= rest
    ensures var s' := After(c, s, RedeemWrapper(o, sid, q));
      CanRedeem(c, s', o, sid, rest) && RedeemedOne(c, s, s', o, sid, q)
  {
    hide Core, Shaped, InOrder, Redeem, PaysShare, TokenClaim, StepKeeps, Spared, Inv;
    InPlace(c, s, o, sid);
    RedeemDoes(c, s, o, sid, q);
    RedemptionKeeps(c, s, o, sid, q);
    InPlace(c, After(c, s, RedeemWrapper(o, sid, q)), o, sid);
  }

  lemma {:induction false} InPlace(c: Config, s: State, o: Owner, sid: Sid)
    requires Core(c, s) && o in c.wallets && sid in c.series
    ensures Shaped(c, s) && o in s.wr && o in s.usdc && c.series[sid].group in s.groups && WellFormed(c)
  {
  }

  lemma {:induction false} RedemptionKeeps(c: Config, s: State, o: Owner, sid: Sid, q: int)
    requires CanRedeem(c, s, o, sid, q)
    ensures var s' := After(c, s, RedeemWrapper(o, sid, q));
      Core(c, s') && Shaped(c, s') && InOrder(c, s', c.series[sid].group)
  {
    hide After, InOrder, Spared, Inv;
    StepSafe(c, s, RedeemWrapper(o, sid, q));
  }

  /** From `s` to `t` the wallet redeemed `q` of a series in `n` portions. */
  ghost predicate Portioned(c: Config, s: State, t: State, o: Owner, sid: Sid, q: int, n: nat) {
    && sid in c.series && c.series[sid].group in s.groups && o in s.wr && o in s.usdc && o in t.wr && o in t.usdc
    && var x := s.groups[c.series[sid].group];
    && x.price.Some? && x.ratio.Some? && Get(t.wr[o], sid) == Get(s.wr[o], sid) - q
    && Brought(TokenClaim(c.series[sid], q, x.price.value), x.ratio.value, t.usdc[o] - s.usdc[o], n, Scale(DEC) * WAD)
  }

  /** Tokens redeemed in portions: all of them go through, and each costs its owner less than a native unit. */
  lemma {:induction false} PortionsPay(c: Config, s: State, o: Owner, sid: Sid, portions: seq<int>)
    requires forall i :: 0 <= i < |portions| ==> 0 < portions[i]
    requires CanRedeem(c, s, o, sid, Total(portions))
    ensures CanRun(c, s, Redemptions(o, sid, portions))
    ensures Portioned(c, s, End(c, s, Redemptions(o, sid, portions)), o, sid, Total(portions), |portions|)
    decreases |portions|
  {
    hide After, Core, Shaped, InOrder, PaysShare, TokenClaim, Brought, Portioned, CanRun, End, RedeemedOne;
    InPlace(c, s, o, sid);
    RunNothing(c, s);
    if portions == [] {
      NothingBrought(c, s, o, sid);
    } else {
      var q, rest := portions[0], portions[1..];
      TotalNonNegative(rest);
      OneRedemption(c, s, o, sid, q, Total(rest));
      var s' := After(c, s, RedeemWrapper(o, sid, q));
      PortionsPay(c, s', o, sid, rest);
      RunFirst(c, s, o, sid, q, Redemptions(o, sid, rest));
      FirstPortion(c, s, s', End(c, s', Redemptions(o, sid, rest)), o, sid, q, Total(rest), |rest|);
    }
  }

  lemma {:induction false} RunNothing(c: Config, s: State)
    requires Shaped(c, s)
    ensures CanRun(c, s, []) && End(c, s, []) == s
  {
  }

  lemma {:induction false} RunFirst(c: Config, s: State, o: Owner, sid: Sid, q: int, rest: seq<Action>)
    requires Shaped(c, s) && o in c.wallets && sid in c.series
    requires CanRun(c, After(c, s, RedeemWrapper(o, sid, q)), rest)
    ensures var actions := [RedeemWrapper(o, sid, q)] + rest;
      CanRun(c, s, actions) && End(c, s, actions) == End(c, After(c, s, RedeemWrapper(o, sid, q)), rest)
  {
    hide After;
    assert ([RedeemWrapper(o, sid, q)] + rest)[1..] == rest;
  }

  lemma {:induction false} FirstPortion(c: Config, s: State, s': State, t: State, o: Owner, sid: Sid, q: int, rest: int,
      n: nat)
    requires Portioned(c, s', t, o, sid, rest, n) && RedeemedOne(c, s, s', o, sid, q)
    ensures Portioned(c, s, t, o, sid, q + rest, n + 1)
  {
    hide PaysShare, TokenClaim, Brought;
    var x := s.groups[c.series[sid].group];
    ClaimsAdd(c.series[sid], q, rest, x.price.value);
    OnePortion(TokenClaim(c.series[sid], q, x.price.value), TokenClaim(c.series[sid], rest, x.price.value),
      x.ratio.value, t.usdc[o] - s'.usdc[o], s'.usdc[o] - s.usdc[o], n);
  }

  lemma {:induction false} OnePortion(claim: int, more: int, ratio: int, paid: int, pay: int, n: nat)
    requires Brought(more, ratio, paid, n, Scale(DEC) * WAD) && PaysShare(pay, claim, ratio, Scale(DEC))
    ensures Brought(claim + more, ratio, pay + paid, n + 1, Scale(DEC) * WAD)
  {
    BroughtMore(claim, more, ratio, paid, pay, n, Scale(DEC) * WAD);
  }

  lemma {:induction false} NothingBrought(c: Config, s: State, o: Owner, sid: Sid)
    requires CanRedeem(c, s, o, sid, 0)
    ensures Portioned(c, s, s, o, sid, 0, 0)
  {
    hide Balanced, WholeLots, InOrder, NoNegativeWrapper;
    CoreGroup(c, s, c.series[sid].group);
  }

  lemma {:induction false} TotalNonNegative(portions: seq<int>)
    requires forall i :: 0 <= i < |portions| ==> 0 < portions[i]
    ensures 0 <= Total(portions) && (portions != [] ==> 0 < Total(portions))
  {
    if portions != [] {
      TotalNonNegative(portions[1..]);
    }
  }

  /**
   * Cutting a redemption into portions never pays more than redeeming at once, and at most one native unit less for
   * each portion.
   */
  lemma {:induction false} PortionsOrAtOnce(c: Config, s: State, o: Owner, sid: Sid, portions: seq<int>)
    requires portions != [] && forall i :: 0 <= i < |portions| ==> 0 < portions[i]
    requires CanRedeem(c, s, o, sid, Total(portions))
    ensures CanRun(c, s, Redemptions(o, sid, portions))
    ensures var t, once := End(c, s, Redemptions(o, sid, portions)), Redeem(c, s, o, sid, Total(portions));
      && once.Done? && o in t.usdc && o in s.usdc && o in once.next.usdc
      && t.usdc[o] <= once.next.usdc[o] <= t.usdc[o] + |portions|
  {
    hide After, Core, Shaped, InOrder, TokenClaim, Redeem, End, CanRun, Scale;
    InPlace(c, s, o, sid);
    TotalNonNegative(portions);
    PortionsPay(c, s, o, sid, portions);
    RedeemDoes(c, s, o, sid, Total(portions));
    var x, t := s.groups[c.series[sid].group], End(c, s, Redemptions(o, sid, portions));
    var claim := TokenClaim(c.series[sid], Total(portions), x.price.value);
    CloseTotals(claim * x.ratio.value, t.usdc[o] - s.usdc[o],
      Redeem(c, s, o, sid, Total(portions)).next.usdc[o] - s.usdc[o], |portions|, Scale(DEC) * WAD);
  }

  lemma {:induction false} CloseTotals(worth: int, paid: int, once: int, n: nat, scale: int)
    requires 0 < scale && paid * scale <= worth <= (paid + n) * scale
    requires once * scale <= worth < (once + 1) * scale
    ensures paid <= once <= paid + n
  {
    if once < paid {
      MulAtMost(once + 1, paid, scale);
    } else if paid + n < once {
      MulLess(paid + n, once, scale);
    }
  }

  /**
   * Two redemptions of a series, of at least a lot each, bring the same per token up to WAD / lot + 1, whoever redeems,
   * and whatever has happened between the first and the second.
   */
  lemma {:induction false} SameForEverybody(c: Config, s: State, o: Owner, q: int, actions: seq<Action>, o': Owner,
      q': int, sid: Sid)
    requires Core(c, s) && CanRun(c, s, actions) && o in c.wallets && o' in c.wallets && sid in c.series
    requires Shaped(c, End(c, s, actions)) && c.lot <= q && c.lot <= q' && 0 < c.lot
    requires Redeem(c, s, o, sid, q).Done? && Redeem(c, End(c, s, actions), o', sid, q').Done?
    ensures var t := End(c, s, actions);
      var first, second := Redeem(c, s, o, sid, q).next, Redeem(c, t, o', sid, q').next;
      && o in s.usdc && o in first.usdc && o' in t.usdc && o' in second.usdc
      && (first.usdc[o] - s.usdc[o]) * WAD / q - (second.usdc[o'] - t.usdc[o']) * WAD / q' <= WAD / c.lot + 1
      && (second.usdc[o'] - t.usdc[o']) * WAD / q' - (first.usdc[o] - s.usdc[o]) * WAD / q <= WAD / c.lot + 1
  {
    hide After, Core, Shaped, InOrder, Redeem, End, CanRun, Scale, PaysShare, PaidOut;
    var t, g := End(c, s, actions), c.series[sid].group;
    InPlace(c, s, o, sid);
    RedeemDoes(c, s, o, sid, q);
    PayoutsAddUp(c, s, actions, g);
    InPlace(c, t, o', sid);
    RedeemDoes(c, t, o', sid, q');
    TermsStay(s.groups[g], t.groups[g], Paid(c, s, actions, g));
    var unit := IntrinsicInt(c.series[sid], s.groups[g].price.value) * c.series[sid].size;
    SharesAreAlike(q, q', c.lot, unit, s.groups[g].ratio.value, Redeem(c, s, o, sid, q).next.usdc[o] - s.usdc[o],
      Redeem(c, t, o', sid, q').next.usdc[o'] - t.usdc[o']);
  }

  lemma {:induction false} TermsStay(x: Group, y: Group, paid: int)
    requires PaidOut(x, y, paid)
    ensures y.price == x.price && y.ratio == x.ratio
  {
  }

  lemma {:induction false} SharesAreAlike(q: int, q': int, lot: int, unit: int, ratio: int, pay: int, pay': int)
    requires 0 < lot <= q && lot <= q'
    requires PaysShare(pay, q * unit, ratio, Scale(DEC)) && PaysShare(pay', q' * unit, ratio, Scale(DEC))
    ensures pay * WAD / q - pay' * WAD / q' <= WAD / lot + 1 && pay' * WAD / q' - pay * WAD / q <= WAD / lot + 1
  {
    ShareIsPayout(q * unit, ratio, pay);
    ShareIsPayout(q' * unit, ratio, pay');
    SamePerToken(q, q', lot, unit, ratio, Scale(DEC));
    SamePerToken(q', q, lot, unit, ratio, Scale(DEC));
  }

  lemma {:induction false} ShareIsPayout(claim: int, ratio: int, pay: int)
    requires PaysShare(pay, claim, ratio, Scale(DEC))
    ensures pay == Payout(claim, ratio, Scale(DEC))
  {
    var scale, due := Scale(DEC) * WAD, Payout(claim, ratio, Scale(DEC));
    PayoutIsShare(claim, ratio, Scale(DEC));
    if pay < due {
      MulAtMost(pay + 1, due, scale);
    } else if due < pay {
      MulAtMost(due + 1, pay, scale);
    }
  }
}
