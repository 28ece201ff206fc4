/**
 * What the calls of traders do, and exactly when they go through, told from balances, tokens, money and margins before
 * and after them (reference/verify_invariants.py, `deposit` to `transfer_wrapper`).
 */
module Calls {
  import opened Basics
  import opened Sums
  import opened Tables
  import opened Clearing
  import opened Invariant
  import opened Trading
  import opened Health
  import Margin

  lemma {:induction false} SetRises(bal: map<Aid, Row>, aid: Aid, sid: Sid, q: int)
    requires aid in bal
    ensures EntryRises(bal, SetBalance(bal, aid, sid, Get(bal[aid], sid) + q), aid, sid, q)
  {
  }

  lemma {:induction false} GiveRises(wr: map<Owner, Row>, o: Owner, sid: Sid, q: int)
    requires o in wr
    ensures EntryRises(wr, Give(wr, o, sid, q), o, sid, q)
  {
  }

  /**
   * From `s` to `s'` the account's balance of a series rose by `q` and the wallet's tokens by `w`, and nothing else.
   */
  ghost predicate Exchanged(s: State, s': State, aid: Aid, o: Owner, sid: Sid, q: int, w: int) {
    && s' == s.(bal := s'.bal, wr := s'.wr)
    && EntryRises(s.bal, s'.bal, aid, sid, q) && EntryRises(s.wr, s'.wr, o, sid, w)
  }

  // ---------------------------------------------------------------------------------------------------------
  // What the tests ask for
  // ---------------------------------------------------------------------------------------------------------

  /** `x` is not more than `slack` below `y`. */
  predicate NotFarBelow(x: real, y: real, slack: real) {
    y - slack <= x
  }

  /** `slack` is a millionth of the greatest of 1 and the sizes of both margins. */
  predicate IsSlack(slack: real, r: Margin.Risk) {
    var unit := slack * 1_000_000.0;
    && 1.0 <= unit && -unit <= r.im <= unit && -unit <= r.equity <= unit
    && (unit == 1.0 || unit == r.im || unit == -r.im || unit == r.equity || unit == -r.equity)
  }

  /** An account is healthy if equity falls short of IM by a billionth at most. */
  lemma {:induction false} HealthyMeans(r: Margin.Risk)
    ensures Healthy(r) <==> NotFarBelow(r.equity, r.im, 0.000000001)
  {
  }

  /** INV-13 tolerates a millionth: neither equity - IM nor equity - MM falls by more. */
  lemma {:induction false} ToleratedMeans(before: Margin.Risk, after: Margin.Risk, slack: real)
    requires IsSlack(slack, before)
    ensures Tolerated(before, after) <==>
      && NotFarBelow(after.equity - after.im, before.equity - before.im, slack)
      && NotFarBelow(after.equity - after.mm, before.equity - before.mm, slack)
  {
  }

  /** Whole lots are the multiples of the lot; fresh prices are those of every underlying of a row. */
  lemma {:induction false} LotsAndFreshness(c: Config, s: State, row: Row, sid: Sid, n: int)
    requires Shaped(c, s) && row.Keys <= c.series.Keys && sid in c.series
    ensures IsLots(c.lot, n * c.lot)
    ensures IsLots(c.lot, n) ==> exists k :: n == k * c.lot
    ensures FreshFor(c, s, row) && sid in row ==> s.prices.isFresh(c.groups[c.series[sid].group].underlying)
    ensures !FreshFor(c, s, row) ==>
      exists t :: t in row && !s.prices.isFresh(c.groups[c.series[t].group].underlying)
    ensures Active(c, s.now, sid) <==> s.now < c.groups[c.series[sid].group].expiry
  {
    LotsOf(c.lot, n);
    if IsLots(c.lot, n) {
      assert n == n / c.lot * c.lot;
    }
  }

  // ---------------------------------------------------------------------------------------------------------
  // Cash
  // ---------------------------------------------------------------------------------------------------------

  /** A deposit goes through exactly when the wallet has the amount, which moves from it to the account. */
  lemma {:induction false} DepositDoes(c: Config, s: State, aid: Aid, amt: int)
    requires Shaped(c, s) && aid in c.owner
    ensures var r, o := Deposit(c, s, aid, amt), c.owner[aid];
      && (r.Done? <==> 0 < amt <= Get(s.usdc, o))
      && (r.Done? ==>
            && r.next == s.(usdc := r.next.usdc, cash := r.next.cash)
            && Rises(s.usdc, r.next.usdc, o, -amt) && Rises(s.cash, r.next.cash, aid, amt))
  {
    hide RiskAt, Tolerated, NotWorse;
    DepositNotWorse(c, s, aid, amt);
  }

  /**
   * A withdrawal goes through exactly when the account has the cash, and no positions or fresh prices and its margin
   * without it.
   */
  lemma {:induction false} WithdrawDoes(c: Config, s: State, aid: Aid, amt: int)
    requires Shaped(c, s) && aid in c.owner
    ensures var r, o, row := Withdraw(c, s, aid, amt), c.owner[aid], s.bal[aid];
      && (r.Done? <==>
            && 0 < amt <= s.cash[aid]
            && (row == map[] || (FreshFor(c, s, row) && Healthy(RiskAt(c, s, s.cash[aid] - amt, row)))))
      && (r.Done? ==>
            && r.next == s.(usdc := r.next.usdc, cash := r.next.cash)
            && Rises(s.usdc, r.next.usdc, o, amt) && Rises(s.cash, r.next.cash, aid, -amt))
  {
    hide RiskAt, Healthy, FreshFor;
  }

  // ---------------------------------------------------------------------------------------------------------
  // The seller fee
  // ---------------------------------------------------------------------------------------------------------

  /** 300 bps of a mark, at scale 1e18, are not above `fee` native units, and neither is the minimum of a tenth. */
  predicate CoversFee(mark: int, fee: int) {
    100_000 <= fee && mark * 300 <= fee * (10_000 * 1_000_000_000_000)
  }

  /** The fee is the least number of native units that covers it. */
  lemma {:induction false} FeeIsLeast(mark: int, fee: int)
    ensures SellerFee(mark) <= fee <==> CoversFee(mark, fee)
  {
    assert Pow10(12) == 1_000_000_000_000 by { assert Pow10(6) == 1_000_000; }
    CeilAtMost(mark * 300, 10_000 * 1_000_000_000_000, fee);
  }

  /** What margin says the new short is worth, at scale 1e18, rounded down. */
  ghost function MarkOf(c: Config, s: State, sid: Sid, q: int): int
    requires Shaped(c, s) && sid in c.series
  {
    (-Margin.LegValue(MarketOf(c, s.now, s.prices), Leg(c, s, sid, -q), None) * 1_000_000_000_000_000_000.0).Floor
  }

  /** `fee` is the least that covers the mark of the minted quantity. */
  ghost predicate IsMintFee(c: Config, s: State, sid: Sid, q: int, fee: int)
    requires Shaped(c, s) && sid in c.series
  {
    CoversFee(MarkOf(c, s, sid, q), fee) && !CoversFee(MarkOf(c, s, sid, q), fee - 1)
  }

  /** The fee is charged on the mark by which margin values the new short. */
  lemma {:induction false} MintFeeIs(c: Config, s: State, sid: Sid, q: int)
    requires Core(c, s) && Priced(c) && sid in c.series && 0 < q && Active(c, s.now, sid)
    ensures Shaped(c, s) && IsMintFee(c, s, sid, q, MintFee(c, s, sid, q))
  {
    hide CoversFee, MarkOf, SellerFee, MintFee, GroupsCore;
    OpenSeries(c, s, sid);
    MintMark(c, s, sid, q);
    FeeIsLeast(MarkOf(c, s, sid, q), MintFee(c, s, sid, q));
    FeeIsLeast(MarkOf(c, s, sid, q), MintFee(c, s, sid, q) - 1);
  }

  lemma {:induction false} OpenSeries(c: Config, s: State, sid: Sid)
    requires Core(c, s) && sid in c.series && Active(c, s.now, sid)
    ensures Shaped(c, s) && s.groups[c.series[sid].group].price.None?
  {
    hide Balanced, WholeLots, NoNegativeWrapper;
    CoreGroup(c, s, c.series[sid].group);
  }

  lemma {:induction false} MintMark(c: Config, s: State, sid: Sid, q: int)
    requires Shaped(c, s) && Priced(c) && sid in c.series && 0 < q && Active(c, s.now, sid)
    requires s.groups[c.series[sid].group].price.None?
    ensures MintFee(c, s, sid, q) == SellerFee(MarkOf(c, s, sid, q))
  {
    hide SellerFee, Worth, WadToReal, MintFee, Margin.LegValue, Leg, Shaped;
    var mark := MintQuote(c, s, sid, q);
    SizeNonNegative(c, sid);
    MarkIsValue(mark, WadToReal(c.series[sid].size), q,
      Margin.LegValue(MarketOf(c, s.now, s.prices), Leg(c, s, sid, -q), None));
  }

  lemma {:induction false} MintQuote(c: Config, s: State, sid: Sid, q: int) returns (mark: real)
    requires Shaped(c, s) && Priced(c) && sid in c.series && 0 < q && Active(c, s.now, sid)
    requires s.groups[c.series[sid].group].price.None?
    ensures 0.0 <= mark
    ensures var size := WadToReal(c.series[sid].size);
      && Margin.LegValue(MarketOf(c, s.now, s.prices), Leg(c, s, sid, -q), None) == WadToReal(-q) * size * mark
      && MintFee(c, s, sid, q) == SellerFee(Worth(mark, size, q))
  {
    hide SellerFee, Worth, WadToReal;
    var g := c.series[sid].group;
    var m, l := MarketOf(c, s.now, s.prices), Leg(c, s, sid, -q);
    var t := ((c.groups[g].expiry - s.now) as real) / Margin.YEAR;
    assert Margin.TimeLeft(m, l.expiry) == t;
    mark := c.black76(l.isCall, s.prices.spot(UnderlyingOf(c, sid)), l.strike, s.prices.iv(sid), t);
    assert Margin.LegUnitPrice(m, l, None) == mark;
  }

  lemma {:induction false} SizeNonNegative(c: Config, sid: Sid)
    requires sid in c.series
    ensures 0.0 <= WadToReal(c.series[sid].size)
  {
  }

  lemma {:induction false} MarkIsValue(mark: real, size: real, q: int, value: real)
    requires 0.0 <= mark && 0.0 <= size && 0 < q && value == WadToReal(-q) * size * mark
    ensures (-value * 1_000_000_000_000_000_000.0).Floor == Worth(mark, size, q)
  {
    ProductNonNegative(mark, size);
    ProductNonNegative(mark * size, q as real);
    assert WadToReal(-q) * 1_000_000_000_000_000_000.0 == -(q as real);
    assert -value * 1_000_000_000_000_000_000.0 == mark * size * (q as real);
  }

  /** `part` is `bps` ten-thousandths of a fee, rounded down. */
  predicate IsShare(fee: int, part: int, bps: nat) {
    part * 10_000 <= fee * bps < (part + 1) * 10_000
  }

  /** The fee goes to insurance (60%), keeper reserve (10%) and treasury (the rest). */
  ghost predicate FeePaid(s: State, s': State, aid: Aid, fee: int) {
    && Rises(s.cash, s'.cash, aid, -fee)
    && IsShare(fee, s'.insurance - s.insurance, 6_000) && IsShare(fee, s'.keeper - s.keeper, 1_000)
    && (s'.insurance - s.insurance) + (s'.keeper - s.keeper) + (s'.treasury - s.treasury) == fee
  }

  lemma {:induction false} SharesOfFee(fee: int)
    ensures IsShare(fee, FeeToInsurance(fee), 6_000) && IsShare(fee, FeeToKeeper(fee), 1_000)
  {
    FloorBounds(fee * 6_000, 10_000);
    FloorBounds(fee * 1_000, 10_000);
  }

  // ---------------------------------------------------------------------------------------------------------
  // Positions
  // ---------------------------------------------------------------------------------------------------------

  /**
   * A mint of whole lots goes through exactly before expiry, with fresh prices for the account and the series, when the
   * account can pay the fee and has its margin afterwards. The account is short the quantity, the wallet has the
   * tokens.
   */
  lemma {:induction false} MintDoes(c: Config, s: State, aid: Aid, sid: Sid, q: int, to: Owner, fee: int)
    requires Core(c, s) && Priced(c) && Known(c, aid, sid) && to in c.wallets
    requires Shaped(c, s) && (0 < q && Active(c, s.now, sid) ==> IsMintFee(c, s, sid, q, fee))
    ensures var r, row := Mint(c, s, aid, sid, q, to), s.bal[aid];
      && (r.Done? <==>
            && Active(c, s.now, sid) && 0 < q && IsLots(c.lot, q)
            && FreshFor(c, s, row) && s.prices.isFresh(UnderlyingOf(c, sid)) && fee <= s.cash[aid]
            && Healthy(RiskAt(c, s, s.cash[aid] - fee, Put(row, sid, Get(row, sid) - q))))
      && (r.Done? ==>
            && FeePaid(s, r.next, aid, fee)
            && EntryRises(s.bal, r.next.bal, aid, sid, -q) && EntryRises(s.wr, r.next.wr, to, sid, q)
            && r.next == s.(cash := r.next.cash, insurance := r.next.insurance, keeper := r.next.keeper,
                            treasury := r.next.treasury, bal := r.next.bal, wr := r.next.wr))
  {
    hide RiskAt, FreshFor, MintFee, Healthy, IsLots, Give, SetBalance, EntryRises, FeeToInsurance, FeeToKeeper, IsShare;
    hide IsMintFee, GroupsCore, Balanced, WholeLots, Shaped;
    InPlace(c, s, aid, to);
    if 0 < q && Active(c, s.now, sid) {
      MintFeeIs(c, s, sid, q);
      FeeIsOne(c, s, sid, q, fee);
      ZeroEntry(c, s, s.cash[aid] - fee, s.bal[aid], sid, Get(s.bal[aid], sid) - q);
      FreshRow(c, s, s.bal[aid], sid, Get(s.bal[aid], sid) - q);
      LotsEither(c, s, aid, sid, q);
      SetRises(s.bal, aid, sid, -q);
      GiveRises(s.wr, to, sid, q);
      SharesOfFee(fee);
    }
  }

  lemma {:induction false} InPlace(c: Config, s: State, aid: Aid, o: Owner)
    requires Shaped(c, s) && aid in c.owner && o in c.wallets
    ensures aid in s.bal && aid in s.cash && o in s.wr && o in s.usdc && s.bal[aid].Keys <= c.series.Keys
    ensures 0 < c.lot
  {
  }

  lemma {:induction false} AccountRow(c: Config, s: State, aid: Aid)
    requires Shaped(c, s) && aid in c.owner
    ensures aid in s.bal && aid in s.cash && s.bal[aid].Keys <= c.series.Keys && 0 < c.lot
  {
  }

  lemma {:induction false} FeeIsOne(c: Config, s: State, sid: Sid, q: int, fee: int)
    requires Shaped(c, s) && sid in c.series && c.series[sid].group in c.groups
    requires IsMintFee(c, s, sid, q, fee) && IsMintFee(c, s, sid, q, MintFee(c, s, sid, q))
    ensures fee == MintFee(c, s, sid, q)
  {
    hide MarkOf, MintFee;
    var mark, other := MarkOf(c, s, sid, q), MintFee(c, s, sid, q);
    FeeIsLeast(mark, fee);
    FeeIsLeast(mark, fee - 1);
    FeeIsLeast(mark, other);
    FeeIsLeast(mark, other - 1);
  }

  /** A balance of zero needs no margin. */
  lemma {:induction false} ZeroEntry(c: Config, s: State, cash: int, row: Row, sid: Sid, v: int)
    requires Shaped(c, s) && Priced(c) && sid in c.series && row.Keys <= c.series.Keys
    ensures Healthy(RiskAt(c, s, cash, row[sid := v])) <==> Healthy(RiskAt(c, s, cash, Put(row, sid, v)))
  {
    hide RiskAt;
    assert row[sid := v] - {sid} == Put(row, sid, v) - {sid};
    RaisingKeepsHealth(c, s, cash, row[sid := v], Put(row, sid, v), sid);
    RaisingKeepsHealth(c, s, cash, Put(row, sid, v), row[sid := v], sid);
  }

  lemma {:induction false} FreshRow(c: Config, s: State, row: Row, sid: Sid, v: int)
    requires Shaped(c, s) && row.Keys <= c.series.Keys && sid in c.series
    ensures FreshFor(c, s, row[sid := v]) <==> FreshFor(c, s, row) && s.prices.isFresh(UnderlyingOf(c, sid))
  {
  }

  /** With whole lots held, a balance moves to whole lots exactly by whole lots. */
  lemma {:induction false} LotsEither(c: Config, s: State, aid: Aid, sid: Sid, q: int)
    requires Shaped(c, s) && WholeLots(c.lot, s.bal) && aid in s.bal
    ensures IsLots(c.lot, Get(s.bal[aid], sid) - q) <==> IsLots(c.lot, q)
    ensures IsLots(c.lot, Get(s.bal[aid], sid) + q) <==> IsLots(c.lot, q)
  {
    hide IsLots;
    var x := Get(s.bal[aid], sid);
    BalanceIsLots(c.lot, s.bal, aid, sid);
    LotsNegate(c.lot, x);
    if IsLots(c.lot, q) {
      LotsNegate(c.lot, q);
      LotsAdd(c.lot, x, q);
      LotsAdd(c.lot, x, -q);
    }
    if IsLots(c.lot, x + q) {
      LotsAdd(c.lot, x + q, -x);
    }
    if IsLots(c.lot, x - q) {
      LotsNegate(c.lot, x - q);
      LotsAdd(c.lot, -(x - q), x);
    }
  }

  /** Whole lots are zero or at least a lot. */
  lemma {:induction false} NoDust(lot: nat, x: int)
    requires 0 < lot && IsLots(lot, x)
    ensures x == 0 || lot <= x || lot <= -x
  {
  }

  /**
   * An unwrap goes through exactly before expiry, in whole lots, for the account's owner with the tokens: no margin is
   * asked for, the test for dust never stops it, and INV-13 only negative quantities.
   */
  lemma {:induction false} UnwrapDoes(c: Config, s: State, owner: Owner, aid: Aid, sid: Sid, q: int)
    requires Core(c, s) && Priced(c) && Known(c, aid, sid) && owner in c.wallets
    ensures var r := Unwrap(c, s, owner, aid, sid, q);
      && Shaped(c, s)
      && (r.Done? <==>
            && c.owner[aid] == owner && Active(c, s.now, sid) && q <= Get(s.wr[owner], sid) && IsLots(c.lot, q)
            && (0 <= q || RaiseTolerated(c, s, aid, sid, Get(s.bal[aid], sid) + q)))
      && (r.Done? ==> Exchanged(s, r.next, aid, owner, sid, q, -q))
  {
    hide RiskAt, RaiseTolerated, IsLots, Give, SetBalance, EntryRises, GroupsCore, Balanced, WholeLots, Shaped;
    InPlace(c, s, aid, owner);
    LotsEither(c, s, aid, sid, q);
    if IsLots(c.lot, q) {
      NoDust(c.lot, Get(s.bal[aid], sid) + q);
    }
    if 0 <= q {
      RaiseNotWorse(c, s, aid, sid, Get(s.bal[aid], sid) + q);
    }
    SetRises(s.bal, aid, sid, q);
    GiveRises(s.wr, owner, sid, -q);
  }

  /** A wrap: the account needs the balance, fresh prices and its margin afterwards. */
  lemma {:induction false} WrapDoes(c: Config, s: State, aid: Aid, sid: Sid, q: int, to: Owner)
    requires Core(c, s) && Known(c, aid, sid) && to in c.wallets
    ensures var r := Wrap(c, s, aid, sid, q, to);
      && Shaped(c, s)
      && (r.Done? <==>
            && Active(c, s.now, sid) && 0 < q <= Get(s.bal[aid], sid) && IsLots(c.lot, q) && FreshFor(c, s, s.bal[aid])
            && Healthy(RiskAt(c, s, s.cash[aid], Put(s.bal[aid], sid, Get(s.bal[aid], sid) - q))))
      && (r.Done? ==> Exchanged(s, r.next, aid, to, sid, -q, q))
  {
    hide RiskAt, IsLots, Give, SetBalance, EntryRises, GroupsCore, Balanced, WholeLots, Shaped, Healthy, FreshFor;
    InPlace(c, s, aid, to);
    LotsEither(c, s, aid, sid, q);
    SetRises(s.bal, aid, sid, -q);
    GiveRises(s.wr, to, sid, q);
  }

  /** Tokens close a short of the same owner, also after expiry until the group has its price. */
  lemma {:induction false} CloseWithWrapperDoes(c: Config, s: State, owner: Owner, aid: Aid, sid: Sid, q: int)
    requires Core(c, s) && Priced(c) && Known(c, aid, sid) && owner in c.wallets
    ensures var r := CloseWithWrapper(c, s, owner, aid, sid, q);
      && Shaped(c, s)
      && (r.Done? <==>
            && c.owner[aid] == owner && s.groups[c.series[sid].group].price.None?
            && Get(s.bal[aid], sid) + q <= 0 && q <= Get(s.wr[owner], sid) && IsLots(c.lot, q) && sid in s.bal[aid]
            && (0 <= q || RaiseTolerated(c, s, aid, sid, Get(s.bal[aid], sid) + q)))
      && (r.Done? ==> Exchanged(s, r.next, aid, owner, sid, q, -q))
  {
    hide RiskAt, RaiseTolerated, IsLots, Give, SetBalance, EntryRises, GroupsCore, Balanced, WholeLots, Shaped;
    InPlace(c, s, aid, owner);
    GroupInPlace(c, s, sid);
    LotsEither(c, s, aid, sid, q);
    if 0 <= q {
      RaiseNotWorse(c, s, aid, sid, Get(s.bal[aid], sid) + q);
    }
    SetRises(s.bal, aid, sid, q);
    GiveRises(s.wr, owner, sid, -q);
  }

  lemma {:induction false} GroupInPlace(c: Config, s: State, sid: Sid)
    requires Shaped(c, s) && sid in c.series
    ensures c.series[sid].group in s.groups
  {
  }

  /** From `bal` to `bal'` one account gave `q` of a series to another. */
  ghost predicate Passed(bal: map<Aid, Row>, bal': map<Aid, Row>, frm: Aid, to: Aid, sid: Sid, q: int) {
    && bal'.Keys == bal.Keys
    && forall a, t {:trigger Get(bal'[a], t)} :: a in bal ==>
         Get(bal'[a], t) == Get(bal[a], t) + if t != sid then 0 else if a == frm then -q else if a == to then q else 0
  }

  lemma {:induction false} PassedOn(bal: map<Aid, Row>, frm: Aid, to: Aid, sid: Sid, q: int)
    requires frm in bal && to in bal && frm != to
    ensures Passed(bal, SetBalance(SetBalance(bal, frm, sid, Get(bal[frm], sid) - q), to, sid, Get(bal[to], sid) + q),
      frm, to, sid, q)
  {
  }

  /** A long in one account closes a short in another of the same owner. */
  lemma {:induction false} CloseInternalDoes(c: Config, s: State, frm: Aid, to: Aid, sid: Sid, q: int)
    requires Core(c, s) && Priced(c) && Known(c, frm, sid) && to in c.owner
    ensures var r := CloseInternal(c, s, frm, to, sid, q);
      && Shaped(c, s)
      && (r.Done? <==>
            && frm != to && c.owner[frm] == c.owner[to] && s.groups[c.series[sid].group].price.None?
            && q <= Get(s.bal[frm], sid) && Get(s.bal[to], sid) + q <= 0 && IsLots(c.lot, q) && sid in s.bal[frm]
            && FreshFor(c, s, s.bal[frm])
            && Healthy(RiskAt(c, s, s.cash[frm], Put(s.bal[frm], sid, Get(s.bal[frm], sid) - q)))
            && (0 <= q || RaiseTolerated(c, s, to, sid, Get(s.bal[to], sid) + q)))
      && (r.Done? ==> r.next == s.(bal := r.next.bal) && Passed(s.bal, r.next.bal, frm, to, sid, q))
  {
    hide RiskAt, RaiseTolerated, IsLots, SetBalance, Passed, GroupsCore, Balanced, WholeLots, Shaped, Healthy, FreshFor;
    AccountRow(c, s, frm);
    AccountRow(c, s, to);
    GroupInPlace(c, s, sid);
    LotsEither(c, s, frm, sid, q);
    LotsEither(c, s, to, sid, q);
    if 0 <= q {
      RaiseNotWorse(c, s, to, sid, Get(s.bal[to], sid) + q);
    }
    if frm != to {
      PassedOn(s.bal, frm, to, sid, q);
    }
  }

  /** Tokens go from one wallet to another; a wallet may send them to itself. */
  lemma {:induction false} TransferWrapperDoes(c: Config, s: State, frm: Owner, to: Owner, sid: Sid, q: int)
    requires Shaped(c, s) && frm in c.wallets && to in c.wallets && sid in c.series
    ensures var r := TransferWrapper(c, s, frm, to, sid, q);
      && (r.Done? <==> 0 < q <= Get(s.wr[frm], sid))
      && (r.Done? ==>
            && r.next == s.(wr := r.next.wr) && r.next.wr.Keys == s.wr.Keys
            && forall o, t {:trigger Get(r.next.wr[o], t)} :: o in s.wr ==>
                 Get(r.next.wr[o], t)
                   == Get(s.wr[o], t)
                    + if t != sid || frm == to then 0 else if o == frm then -q else if o == to then q else 0)
  {
  }
}
