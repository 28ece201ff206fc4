/**
 * Margin and settlement speak of the same money: what margin says the legs of a finalized group are worth is the net
 * that settlement computes in integers, and settling takes just that out of an account's equity.
 */
module Worth {
  import opened Basics
  import opened Sums
  import opened Tables
  import opened Clearing
  import opened Health
  import opened Dues
  import Margin
  import Liquidation

  /** Claims are exact integers at scale 1e54. */
  const CLAIM: real := 1_000_000_000_000_000_000_000_000_000_000_000_000_000_000_000_000_000_000.0

  /** A native unit at that scale. */
  const NATIVE: int := 1_000_000_000_000_000_000_000_000_000_000_000_000_000_000_000_000

  /** The integer payoff of a series is the payoff that margin uses, at scale 1e18. */
  lemma {:induction false} PayoffIsScaled(x: Series, price: int)
    ensures Margin.Intrinsic(x.isCall, WadToReal(price), WadToReal(x.strike)) * 1_000_000_000_000_000_000.0
         == IntrinsicInt(x, price) as real
  {
  }

  lemma {:induction false} Scaled(q: int, size: int, payoff: real, intrinsic: int)
    requires payoff * 1_000_000_000_000_000_000.0 == intrinsic as real
    ensures WadToReal(q) * WadToReal(size) * payoff * CLAIM == (q * (intrinsic * size)) as real
  {
    var w := 1_000_000_000_000_000_000.0;
    var a, b := WadToReal(q), WadToReal(size);
    assert a * w == q as real && b * w == size as real;
    assert CLAIM == w * w * w;
    calc {
      a * b * payoff * CLAIM;
      (a * w) * (b * w) * (payoff * w);
      (q as real) * (size as real) * (intrinsic as real);
      (q * size * intrinsic) as real;
      (q * (intrinsic * size)) as real;
    }
  }

  /** The value of a leg of a finalized group, in every scenario. */
  lemma {:induction false} FinalizedLeg(c: Config, s: State, sid: Sid, q: int, sc: Option<Margin.Scenario>)
    requires Shaped(c, s) && sid in c.series && s.groups[c.series[sid].group].price.Some?
    ensures var price := s.groups[c.series[sid].group].price.value;
      Margin.LegValue(MarketOf(c, s.now, s.prices), Leg(c, s, sid, q), sc) * CLAIM
        == TokenClaim(c.series[sid], q, price) as real
  {
    var x, price := c.series[sid], s.groups[c.series[sid].group].price.value;
    PayoffIsScaled(x, price);
    Scaled(q, x.size, Margin.Intrinsic(x.isCall, WadToReal(price), WadToReal(x.strike)), IntrinsicInt(x, price));
  }

  /** Sums of integers and of their scaled values. */
  lemma {:induction false} ScaledSum<K>(m: map<K, int>, r: map<K, real>)
    requires r.Keys <= m.Keys && forall k :: k in m ==> GetR(r, k) * CLAIM == m[k] as real
    ensures RSum(r) * CLAIM == Sum(m) as real
    decreases |m|
  {
    if k :| k in m {
      SumRemove(m, k);
      RSumDrop(r, k);
      ScaledSum(m - {k}, r - {k});
    } else {
      assert m == map[] && r == map[];
    }
  }

  /** The part of a row in one group. */
  function Within(c: Config, row: Row, g: Gid): Row {
    map sid | sid in row && sid in SeriesOf(c, g) :: row[sid]
  }

  /** Margin's value of the legs of a finalized group is the account's net. */
  lemma {:induction false} FinalizedValueIsNet(c: Config, s: State, row: Row, g: Gid, sc: Option<Margin.Scenario>)
    requires Shaped(c, s) && row.Keys <= c.series.Keys && g in s.groups && s.groups[g].price.Some?
    ensures Margin.BookValue(MarketOf(c, s.now, s.prices), Legs(c, s, Within(c, row, g)), sc) * CLAIM
         == Claim(row, Units(c, g, s.groups[g].price.value)) as real
  {
    hide Margin.LegValue;
    var price, part := s.groups[g].price.value, Within(c, row, g);
    var values := Margin.Values(MarketOf(c, s.now, s.prices), Legs(c, s, part), sc);
    var products := Products(row, Units(c, g, price));
    forall sid | sid in products ensures GetR(values, sid) * CLAIM == products[sid] as real {
      FinalizedLeg(c, s, sid, Get(row, sid), sc);
    }
    ScaledSum(products, values);
  }

  /** A book is worth its part in a group and the rest. */
  lemma {:induction false} GroupAndRest(c: Config, s: State, row: Row, g: Gid)
    requires Shaped(c, s) && row.Keys <= c.series.Keys
    ensures Outside(c, row, g).Keys <= c.series.Keys
    ensures var m := MarketOf(c, s.now, s.prices);
      Margin.BookValue(m, Legs(c, s, row), None)
        == Margin.BookValue(m, Legs(c, s, Within(c, row, g)), None)
         + Margin.BookValue(m, Legs(c, s, Outside(c, row, g)), None)
  {
    hide Margin.LegValue;
    var m := MarketOf(c, s.now, s.prices);
    RSumParts(Margin.Values(m, Legs(c, s, row), None), Margin.Values(m, Legs(c, s, Within(c, row, g)), None),
      Margin.Values(m, Legs(c, s, Outside(c, row, g)), None));
  }

  /** What settling takes out of an account's equity: the net of its legs in the group, and what it pays. */
  lemma {:induction false} SettleTakesNet(c: Config, s: State, aid: Aid, g: Gid)
    requires Shaped(c, s) && aid in c.owner && g in c.groups && Settle(c, s, aid, g).Done?
    ensures var s' := Settle(c, s, aid, g).next;
      && Shaped(c, s') && s.groups[g].price.Some? && aid in s.cash && aid in s'.cash
      && (Risk(c, s, aid).equity - Risk(c, s', aid).equity) * CLAIM
           == (Claim(s.bal[aid], Units(c, g, s.groups[g].price.value)) + (s.cash[aid] - s'.cash[aid]) * NATIVE) as real
  {
    hide Margin.BookValue, Claim, Units, DebtPaid, Margin.TotalLoss, Margin.Buffer, HoldsIn, LegOf;
    var s', row := Settle(c, s, aid, g).next, s.bal[aid];
    FinalizedValueIsNet(c, s, row, g, None);
    GroupAndRest(c, s, row, g);
    SameLegs(c, s, s', Outside(c, row, g));
  }

  lemma {:induction false} SameLegs(c: Config, s: State, s': State, row: Row)
    requires Shaped(c, s) && Shaped(c, s') && row.Keys <= c.series.Keys && s'.prices == s.prices
    requires forall g :: g in s.groups ==> s'.groups[g].price == s.groups[g].price
    ensures Legs(c, s', row) == Legs(c, s, row)
  {
  }

  /**
   * Settling takes from a creditor exactly the credit that the group now owes it, and costs a debtor that can pay less
   * than one native unit. Only a debtor that cannot pay is better off, by what it leaves unpaid and less than a unit.
   */
  lemma {:induction false} SettlingIsFair(c: Config, s: State, aid: Aid, g: Gid)
    requires Shaped(c, s) && aid in c.owner && g in c.groups && Settle(c, s, aid, g).Done?
    ensures var s' := Settle(c, s, aid, g).next;
      && Shaped(c, s') && s.groups[g].price.Some?
      && var gain, x, x' := Risk(c, s', aid).equity - Risk(c, s, aid).equity, s.groups[g], s'.groups[g];
      var n, unpaid := Claim(s.bal[aid], Units(c, g, x.price.value)), Liquidation.Tokens(x'.unpaid - x.unpaid);
      if 0 < n then x'.credits == x.credits[aid := n] && gain * CLAIM == -(n as real)
      else x'.credits == x.credits && unpaid - 0.000001 < gain <= unpaid
  {
    hide Risk, Claim, Units, Settle, SettledOne, PaysDebt;
    SettleTakesNet(c, s, aid, g);
    SettleDoes(c, s, aid, g);
    var s' := Settle(c, s, aid, g).next;
    var x, x', n := s.groups[g], s'.groups[g], Claim(s.bal[aid], Units(c, g, s.groups[g].price.value));
    SettledGain(x, x', aid, n, s.cash[aid], s'.cash[aid], Risk(c, s', aid).equity - Risk(c, s, aid).equity);
  }

  lemma {:induction false} SettledGain(x: Group, x': Group, aid: Aid, n: int, cash: int, cash': int, gain: real)
    requires SettledOne(x, x', aid, n, cash, cash') && -gain * CLAIM == (n + (cash - cash') * NATIVE) as real
    ensures var unpaid := Liquidation.Tokens(x'.unpaid - x.unpaid);
      if 0 < n then x'.credits == x.credits[aid := n] && gain * CLAIM == -(n as real)
      else x'.credits == x.credits && unpaid - 0.000001 < gain <= unpaid
  {
    SixDecimals();
    if n <= 0 {
      var left := -n - (cash - cash') * NATIVE;
      var u := x'.unpaid - x.unpaid;
      assert (u - 1) * NATIVE < left <= u * NATIVE;
      assert gain * CLAIM == left as real;
    }
  }
}
