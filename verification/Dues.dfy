/**
 * What the settlement calls do, in the numbers a participant sees: who pays what, what insurance adds, at which ratio,
 * and what a token or a credit brings (reference/verify_invariants.py, from `finalize` on).
 */
module Dues {
  import opened Basics
  import opened Sums
  import opened Tables
  import opened Clearing
  import opened Invariant
  import opened Settlement
  import Payouts

  /** Nothing changes but accounts' balances, accounts' cash, wallets' money and tokens, and one group's record. */
  ghost predicate OnlyGroup(s: State, s': State, g: Gid) {
    && g in s.groups && g in s'.groups && s'.groups == s.groups[g := s'.groups[g]]
    && s'.now == s.now && s'.prices == s.prices && s'.treasury == s.treasury && s'.keeper == s.keeper
  }

  /** The least integer that, times `d`, is not below `n`. */
  predicate LeastCover(b: int, n: int, d: int) {
    (b - 1) * d < n <= b * d
  }

  lemma {:induction false} SixDecimals()
    ensures Scale(DEC) == 1_000_000_000_000_000_000_000_000_000_000_000_000_000_000_000_000
  {
    assert Pow10(8) == 100_000_000;
    assert Pow10(16) == 10_000_000_000_000_000;
    assert Pow10(24) == 1_000_000_000_000_000_000_000_000;
    assert Pow10(32) == 100_000_000_000_000_000_000_000_000_000_000;
    assert Pow10(40) == 10_000_000_000_000_000_000_000_000_000_000_000_000_000;
  }

  // ---------------------------------------------------------------------------------------------------------
  // Payoffs
  // ---------------------------------------------------------------------------------------------------------

  /** Call and put of one strike complement each other: one pays nothing, and they differ by price less strike. */
  lemma {:induction false} IntegerParity(strike: nat, size: nat, g: Gid, price: int)
    ensures var call := IntrinsicInt(Series(g, true, strike, size), price);
      var put := IntrinsicInt(Series(g, false, strike, size), price);
      0 <= call && 0 <= put && (call == 0 || put == 0) && call - put == price - strike
  {
  }

  // ---------------------------------------------------------------------------------------------------------
  // Finalization
  // ---------------------------------------------------------------------------------------------------------

  /**
   * A group is finalized exactly when it has expired without a price. It gets the price it is given and remembers how
   * many tokens of each of its series there are: as many as the accounts are short in it. Nothing else changes.
   */
  lemma {:induction false} FinalizeDoes(c: Config, s: State, g: Gid, price: int)
    requires Core(c, s) && g in c.groups
    ensures var r := Finalize(c, s, g, price);
      && (r.Done? <==> s.groups[g].price.None? && c.groups[g].expiry <= s.now)
      && (r.Done? ==>
            var x' := r.next.groups[g];
            && OnlyGroup(s, r.next, g) && r.next.bal == s.bal && r.next.cash == s.cash && r.next.usdc == s.usdc
            && r.next.wr == s.wr && r.next.insurance == s.insurance
            && x' == s.groups[g].(price := x'.price, snapshot := x'.snapshot) && x'.price == Some(price)
            && (forall sid :: sid in x'.snapshot <==> sid in c.series && c.series[sid].group == g)
            && forall sid :: sid in x'.snapshot ==>
                 x'.snapshot[sid] == Held(s.wr, sid) && x'.snapshot[sid] == -Held(s.bal, sid))
  {
    hide Held, GroupsCore, WholeLots;
    FinalizeSafe(c, s, g, price);
    forall sid | sid in SeriesOf(c, g) && s.groups[g].price.None? ensures Held(s.wr, sid) == -Held(s.bal, sid) {
      assert Held(s.bal, sid) + Held(s.wr, sid) == 0;
    }
  }

  // ---------------------------------------------------------------------------------------------------------
  // Settling an account
  // ---------------------------------------------------------------------------------------------------------

  /**
   * What an account with net `n` and cash `cash` owes a group: its debt is the least number of native units that covers
   * the net, it pays as much of it as it has, and something is left unpaid only if nothing is left of its cash.
   */
  predicate PaysDebt(n: int, cash: int, cash': int, paid: int, unpaid: int, d: int) {
    && cash' == cash - paid && 0 <= unpaid
    && (if n < 0 then LeastCover(paid + unpaid, -n, d) else paid == 0 && unpaid == 0)
    && (0 <= cash ==> 0 <= paid && 0 <= cash')
    && (0 < unpaid ==> cash' == 0)
    && (cash < 0 && n < 0 ==> cash' == 0)
  }

  lemma {:induction false} DebtIsPaid(n: int, cash: int, d: int)
    requires 0 < d
    ensures var paid := DebtPaid(n, cash, d);
      PaysDebt(n, cash, cash - paid, paid, if n < 0 then CeilDiv(-n, d) - paid else 0, d)
  {
    if n < 0 {
      var b := CeilDiv(-n, d);
      if b < 1 {
        MulAtMost(b, 0, d);
      }
    }
  }

  /** The record of a group after one account has settled with net `n`. */
  ghost predicate SettledOne(x: Group, x': Group, aid: Aid, n: int, cash: int, cash': int) {
    && x' == x.(collected := x'.collected, pool := x'.pool, unpaid := x'.unpaid, credits := x'.credits,
                settled := x'.settled)
    && PaysDebt(n, cash, cash', x'.collected - x.collected, x'.unpaid - x.unpaid, Scale(DEC))
    && x'.pool - x.pool == x'.collected - x.collected
    && x'.credits == (if 0 < n then x.credits[aid := n] else x.credits) && x'.settled == x.settled + {aid}
  }

  /**
   * An account settles exactly when the group has a price and it holds a series of the group. All its series of the
   * group go. A negative net is a debt, paid at once as far as the cash goes; a positive one becomes a credit.
   */
  lemma {:induction false} SettleDoes(c: Config, s: State, aid: Aid, g: Gid)
    requires Shaped(c, s) && aid in c.owner && g in c.groups
    ensures var r, x := Settle(c, s, aid, g), s.groups[g];
      && (r.Done? <==>
            x.price.Some? && exists sid :: sid in c.series && c.series[sid].group == g && Get(s.bal[aid], sid) != 0)
      && (r.Done? ==>
            var s' := r.next;
            && OnlyGroup(s, s', g) && s'.usdc == s.usdc && s'.wr == s.wr && s'.insurance == s.insurance
            && aid in s'.bal && aid in s'.cash && s'.bal == s.bal[aid := s'.bal[aid]]
            && (forall sid :: Get(s'.bal[aid], sid) ==
                  if sid in c.series && c.series[sid].group == g then 0 else Get(s.bal[aid], sid))
            && s'.cash == s.cash[aid := s'.cash[aid]]
            && SettledOne(x, s'.groups[g], aid, Claim(s.bal[aid], Units(c, g, x.price.value)), s.cash[aid],
                          s'.cash[aid]))
  {
    hide Units, Claim, DebtPaid, PaysDebt;
    var x := s.groups[g];
    if Settle(c, s, aid, g).Done? {
      DebtIsPaid(Claim(s.bal[aid], Units(c, g, x.price.value)), s.cash[aid], Scale(DEC));
    }
  }

  // ---------------------------------------------------------------------------------------------------------
  // The ratio
  // ---------------------------------------------------------------------------------------------------------

  /** What insurance adds: nothing beyond what the claims lack, and all it has unless they are covered. */
  predicate Drawn(gross: int, collected: int, insurance: int, ins: int, d: int) {
    && 0 <= ins <= insurance
    && (ins == insurance || gross <= (collected + ins) * d)
    && (0 < ins ==> (collected + ins - 1) * d < gross)
  }

  /** The greatest ratio, up to 1, at which a pool covers the gross claim. */
  predicate FairRatio(ratio: int, pool: int, gross: int, d: int) {
    && ratio <= WAD && (gross == 0 ==> ratio == WAD)
    && (0 < gross ==> ratio * gross <= pool * d * WAD)
    && (ratio < WAD ==> pool * d * WAD < (ratio + 1) * gross)
  }

  lemma {:induction false} RatioIsFair(pool: int, gross: int, d: int)
    requires 0 <= gross && 0 < d
    ensures FairRatio(RatioOf(pool, gross, d), pool, gross, d)
  {
    if 0 < gross {
      FloorBounds(pool * d * WAD, gross);
      AtMostFloor(RatioOf(pool, gross, d), pool * d * WAD, gross);
    }
  }

  lemma {:induction false} DrawIsNeeded(gross: int, collected: int, insurance: int, d: int)
    requires 0 < d && 0 <= insurance
    ensures Drawn(gross, collected, insurance, InsuranceDraw(gross, collected, insurance, d), d)
  {
    var ins := InsuranceDraw(gross, collected, insurance, d);
    CeilAtMost(gross, d, collected + ins);
    CeilAtMost(gross, d, collected + ins - 1);
  }

  /**
   * The ratio is fixed exactly once, when the group has a price and no participant is left. Insurance adds what the
   * claims lack, as far as it has it, and the ratio is the greatest at which the pool covers all claims.
   */
  lemma {:induction false} ComputeRatioDoes(c: Config, s: State, g: Gid)
    requires Core(c, s) && g in c.groups
    ensures var r, x := ComputeRatio(c, s, g), s.groups[g];
      && (r.Done? <==> x.price.Some? && x.ratio.None? && Holders(c, s.bal, g) == {})
      && (r.Done? ==>
            var s', x' := r.next, r.next.groups[g];
            var gross := Claim(x.snapshot, Units(c, g, x.price.value)) + Sum(x.credits);
            && OnlyGroup(s, s', g) && s'.bal == s.bal && s'.cash == s.cash && s'.usdc == s.usdc && s'.wr == s.wr
            && x' == x.(insurance := x'.insurance, pool := x'.pool, available := x'.pool, ratio := x'.ratio)
            && x'.insurance == s.insurance - s'.insurance && x'.pool == x.collected + x'.insurance
            && Drawn(gross, x.collected, s.insurance, x'.insurance, Scale(DEC))
            && x'.ratio.Some? && FairRatio(x'.ratio.value, x'.pool, gross, Scale(DEC)))
  {
    hide RatioOf, InsuranceDraw, Claim, Units, Holders, RatioChecked, GroupsCore, WholeLots, Balanced, Drawn, FairRatio;
    hide Scale, NoNegativeWrapper, FundsOk, GrossClaim;
    RatioGoesThrough(c, s, g);
    if ComputeRatio(c, s, g).Done? {
      RatioNumbers(c, s, g);
    }
  }

  lemma {:induction false} RatioGoesThrough(c: Config, s: State, g: Gid)
    requires Core(c, s) && g in c.groups
    ensures Shaped(c, s) && !ComputeRatio(c, s, g).Raised?
  {
    hide ComputeRatio, Harmless, Inv, Spared, InOrder, Money;
    ComputeRatioSafe(c, s, g);
  }

  lemma {:induction false} RatioNumbers(c: Config, s: State, g: Gid)
    requires Core(c, s) && g in s.groups && s.groups[g].price.Some? && s.groups[g].ratio.None?
    requires Holders(c, s.bal, g) == {}
    ensures var x := s.groups[g];
      var gross := GrossClaim(c, x, g);
      var ins := InsuranceDraw(gross, x.collected, s.insurance, Scale(DEC));
      && gross == Claim(x.snapshot, Units(c, g, x.price.value)) + Sum(x.credits) && x.pool == x.collected
      && Drawn(gross, x.collected, s.insurance, ins, Scale(DEC))
      && FairRatio(RatioOf(x.pool + ins, gross, Scale(DEC)), x.pool + ins, gross, Scale(DEC))
  {
    hide RatioOf, InsuranceDraw, Claim, Units, Holders, GroupsCore, WholeLots, Balanced, Drawn, FairRatio, Scale;
    var x := s.groups[g];
    CoreGroup(c, s, g);
    GrossIsCovered(c, s, g);
    var gross := GrossClaim(c, x, g);
    DrawIsNeeded(gross, x.collected, s.insurance, Scale(DEC));
    RatioIsFair(x.pool + InsuranceDraw(gross, x.collected, s.insurance, Scale(DEC)), gross, Scale(DEC));
  }

  // ---------------------------------------------------------------------------------------------------------
  // Payouts
  // ---------------------------------------------------------------------------------------------------------

  /** `pay` is the claim at the ratio, in native units, rounded down. */
  predicate PaysShare(pay: int, claim: int, ratio: int, d: int) {
    pay * (d * WAD) <= claim * ratio < (pay + 1) * (d * WAD)
  }

  /** What a quantity of a series claims, at scale 1e54. */
  function TokenClaim(x: Series, q: int, price: int): int {
    q * (IntrinsicInt(x, price) * x.size)
  }

  /**
   * From a group in order a redemption goes through exactly when the ratio is fixed and the wallet has the tokens. They
   * go, and their share comes from the pool to the wallet.
   */
  lemma {:induction false} RedeemDoes(c: Config, s: State, o: Owner, sid: Sid, q: int)
    requires Core(c, s) && o in c.wallets && sid in c.series
    ensures var r, g := Redeem(c, s, o, sid, q), c.series[sid].group;
      var x := s.groups[g];
      && (InOrder(c, s, g) ==> (r.Done? <==> x.ratio.Some? && 0 < q <= Get(s.wr[o], sid)))
      && (r.Done? ==>
            var s' := r.next;
            && OnlyGroup(s, s', g) && s'.bal == s.bal && s'.cash == s.cash && s'.insurance == s.insurance
            && x.ratio.Some? && x.price.Some? && 0 < q <= Get(s.wr[o], sid)
            && EntryRises(s.wr, s'.wr, o, sid, -q) && o in s.usdc && o in s'.usdc
            && var pay := s'.usdc[o] - s.usdc[o];
            && Rises(s.usdc, s'.usdc, o, pay) && s'.groups[g] == x.(pool := x.pool - pay) && pay <= x.pool
            && PaysShare(pay, TokenClaim(c.series[sid], q, x.price.value), x.ratio.value, Scale(DEC)))
  {
    hide Payout, PaysShare, Scale, GroupsCore, WholeLots, Balanced, InOrder, IntrinsicInt, NoNegativeWrapper, Kept;
    var g := c.series[sid].group;
    RedeemSafe(c, s, o, sid, q);
    CoreGroup(c, s, g);
    if Redeem(c, s, o, sid, q).Done? {
      var x := s.groups[g];
      ShareIsPaid(q * UnitOf(c, sid, x.price.value), x.ratio.value);
    }
  }

  lemma {:induction false} ShareIsPaid(claim: int, ratio: int)
    ensures PaysShare(Payout(claim, ratio, Scale(DEC)), claim, ratio, Scale(DEC))
  {
    Payouts.PayoutIsShare(claim, ratio, Scale(DEC));
  }

  /** The same for the credit of an account, which is paid once. */
  lemma {:induction false} ClaimDoes(c: Config, s: State, aid: Aid, g: Gid)
    requires Core(c, s) && aid in c.owner && g in c.groups
    ensures var r, x := ClaimCredit(c, s, aid, g), s.groups[g];
      && (InOrder(c, s, g) ==> (r.Done? <==> x.ratio.Some? && aid in x.credits && aid !in x.claimed))
      && (r.Done? ==>
            var s' := r.next;
            && OnlyGroup(s, s', g) && s'.bal == s.bal && s'.usdc == s.usdc && s'.wr == s.wr
            && s'.insurance == s.insurance
            && x.ratio.Some? && aid in x.credits && aid !in x.claimed && aid in s.cash && aid in s'.cash
            && var pay := s'.cash[aid] - s.cash[aid];
            && Rises(s.cash, s'.cash, aid, pay) && pay <= x.pool
            && s'.groups[g] == x.(pool := x.pool - pay, claimed := x.claimed + {aid})
            && PaysShare(pay, x.credits[aid], x.ratio.value, Scale(DEC)))
  {
    hide Payout, PaysShare, Scale, GroupsCore, WholeLots, Balanced, InOrder, NoNegativeWrapper, Kept;
    ClaimSafe(c, s, aid, g);
    if ClaimCredit(c, s, aid, g).Done? {
      var x := s.groups[g];
      ShareIsPaid(x.credits[aid], x.ratio.value);
    }
  }
}
