/**
 * INV-8 and the liquidator: runs from an empty protocol, with the fees, lot, scenario sets and buffer of the source.
 *
 * Calls are sold while they are worthless, then spot rises. A spread that is worth less than its margin is liquidated,
 * and the liquidator has no cash to pay for it: the slice goes through all the same, because its other calls carry the
 * margin. When the liquidator then settles, its negative cash becomes a negative pool, and a creditor's claim on that
 * pool takes money from the creditor.
 */
module Shortfall {
  import opened Basics
  import opened Sums
  import opened Tables
  import opened Clearing
  import opened Invariant
  import opened Slices
  import opened Settlement
  import opened Runs
  import opened Scene
  import Margin
  import Liquidation
  import Health

  // ---------------------------------------------------------------------------------------------------------
  // Runs, piece by piece
  // ---------------------------------------------------------------------------------------------------------

  ghost predicate Leads(c: Config, s: State, actions: seq<Action>, t: State) {
    CanRun(c, s, actions) && End(c, s, actions) == t
  }

  lemma {:induction false} OneStep(c: Config, s: State, a: Action, t: State)
    requires Shaped(c, s) && Legal(c, s, a) && Step(c, s, a) == Done(t)
    ensures Shaped(c, t) && Leads(c, s, [a], t)
  {
    hide Step, Legal, Shaped;
    StepConserves(c, s, a);
    var actions := [a];
    assert After(c, s, actions[0]) == t && actions[1..] == [];
    assert CanRun(c, t, actions[1..]) && End(c, t, actions[1..]) == t;
    assert CanRun(c, s, actions);
  }

  lemma {:induction false} Onward(c: Config, s: State, first: seq<Action>, t: State, second: seq<Action>, u: State)
    requires Leads(c, s, first, t) && Leads(c, t, second, u)
    ensures Leads(c, s, first + second, u)
    decreases |first|
  {
    hide After, Legal, Shaped;
    if first == [] {
      assert first + second == second;
    } else {
      Onward(c, After(c, s, first[0]), first[1..], t, second, u);
      assert (first + second)[1..] == first[1..] + second;
    }
  }

  // ---------------------------------------------------------------------------------------------------------
  // The calls are sold
  // ---------------------------------------------------------------------------------------------------------

  const FUND: int := 1_000_000 * UNIT

  /** One second before expiry. */
  function Before(n: Names, prices: Prices, bal: seq<Row>, cash: seq<int>, usdc: seq<int>, wr: seq<Row>, insurance: int,
      fees: int): State
    requires |bal| == |cash| == 3 && |usdc| == |wr| == 2
  {
    At(n, SOON, prices, bal, cash, usdc, wr, NEW_GROUP, insurance, fees)
  }

  function Start(n: Names): State {
    Genesis(ConfigOf(n), 0, Quiet(n), map[n.writer := 300_000, n.liquidator := 0], FUND)
  }

  function MintedFrom(s: State, aid: Aid, sid: Sid, q: int, to: Owner): State
    requires aid in s.bal && aid in s.cash && to in s.wr
  {
    s.(cash := s.cash[aid := s.cash[aid] - 100_000], insurance := s.insurance + 60_000, keeper := s.keeper + 10_000,
       treasury := s.treasury + 30_000, bal := SetBalance(s.bal, aid, sid, Get(s.bal[aid], sid) - q),
       wr := Give(s.wr, to, sid, q))
  }

  /** A mint while the calls are worthless costs the minimum fee and always goes through. */
  lemma {:induction false} QuietMint(n: Names, s: State, aid: Aid, sid: Sid, q: int, to: Owner)
    requires Unpriced(n, s) && s.prices == Quiet(n) && s.now == SOON && Known(ConfigOf(n), aid, sid)
    requires to in ConfigOf(n).wallets && 0 < q && IsLots(LOT, Get(s.bal[aid], sid) - q) && MIN_FEE <= s.cash[aid]
    ensures aid in s.bal && aid in s.cash && to in s.wr
    ensures Mint(ConfigOf(n), s, aid, sid, q, to) == Done(MintedFrom(s, aid, sid, q, to))
  {
    hide Defaults, RiskAt, SetBalance, Give, MintFee, FeeToInsurance, FeeToKeeper, Put, IsLots, Health.Priced;
    PricesAreValues(n);
    Health.MintLeavesHealthy(ConfigOf(n), s, aid, sid, q, to);
    QuietFee(n, s, sid, q);
    QuietRisk(n, s, s.cash[aid] - 100_000, s.bal[aid][sid := Get(s.bal[aid], sid) - q]);
    FeeShares();
    assert !Mint(ConfigOf(n), s, aid, sid, q, to).Reverted?;
  }

  lemma {:induction false} PricesAreValues(n: Names)
    ensures Health.Priced(ConfigOf(n))
  {
    hide Defaults, SeriesMap;
  }

  lemma {:induction false} FeeShares()
    ensures FeeToInsurance(100_000) == 60_000 && FeeToKeeper(100_000) == 10_000
  {
  }

  lemma {:induction false} QuietFee(n: Names, s: State, sid: Sid, q: int)
    requires Unpriced(n, s) && s.prices == Quiet(n) && sid in SeriesMap(n)
    ensures MintFee(ConfigOf(n), s, sid, q) == 100_000
  {
    hide Shaped, Defaults;
    WadsToReals();
  }

  /** Rows of known series, for everybody. */
  predicate Rows(n: Names, bal: seq<Row>, cash: seq<int>, usdc: seq<int>, wr: seq<Row>) {
    && Apart(n) && |bal| == |cash| == 3 && |usdc| == |wr| == 2
    && (forall i :: 0 <= i < 3 ==> bal[i].Keys <= SeriesMap(n).Keys)
    && forall i :: 0 <= i < 2 ==> wr[i].Keys <= SeriesMap(n).Keys
  }

  lemma {:induction false} BeforeIsShaped(n: Names, prices: Prices, bal: seq<Row>, cash: seq<int>, usdc: seq<int>,
      wr: seq<Row>, insurance: int, fees: int)
    requires Rows(n, bal, cash, usdc, wr)
    ensures Unpriced(n, Before(n, prices, bal, cash, usdc, wr, insurance, fees))
  {
    hide Shaped;
    AtIsShaped(n, SOON, prices, bal, cash, usdc, wr, NEW_GROUP, insurance, fees);
  }

  lemma {:induction false} IsKnown(n: Names, aid: Aid, sid: Sid, o: Owner)
    requires Apart(n) && 1 <= aid <= 3 && o in {n.writer, n.liquidator}
    ensures o in ConfigOf(n).wallets && ConfigOf(n).lot == LOT
    ensures aid in ConfigOf(n).owner && ConfigOf(n).owner[aid] == if aid == 3 then n.liquidator else n.writer
    ensures sid in SeriesMap(n) ==> Known(ConfigOf(n), aid, sid) && Active(ConfigOf(n), SOON, sid)
  {
    hide Defaults;
  }

  function Minted(n: Names, bal: seq<Row>, cash: seq<int>, usdc: seq<int>, wr: seq<Row>, insurance: int, fees: int,
      aid: Aid, sid: Sid, q: int, to: Owner): State
    requires Rows(n, bal, cash, usdc, wr) && 1 <= aid <= 3
  {
    var i, w := aid - 1, IndexOf(n, to);
    Before(n, Quiet(n), bal[i := Put(bal[i], sid, Get(bal[i], sid) - q)], cash[i := cash[i] - 100_000], usdc,
      wr[w := wr[w][sid := Get(wr[w], sid) + q]], insurance + 60_000, fees + 1)
  }

  lemma {:induction false} MintReady(n: Names, bal: seq<Row>, cash: seq<int>, usdc: seq<int>, wr: seq<Row>,
      insurance: int, fees: int, aid: Aid, sid: Sid, q: int, to: Owner)
    requires Rows(n, bal, cash, usdc, wr) && 1 <= aid <= 3 && sid in SeriesMap(n) && to in {n.writer, n.liquidator}
    requires 0 < q && IsLots(LOT, Get(bal[aid - 1], sid) - q) && 100_000 <= cash[aid - 1]
    ensures var c, s := ConfigOf(n), Before(n, Quiet(n), bal, cash, usdc, wr, insurance, fees);
      && Unpriced(n, s) && s.prices == Quiet(n) && s.now == SOON && Known(c, aid, sid) && to in c.wallets
      && aid in s.bal && aid in s.cash && to in s.wr
      && s.bal[aid] == bal[aid - 1] && s.cash[aid] == cash[aid - 1] && s.wr[to] == wr[IndexOf(n, to)]
  {
    hide ConfigOf, ByAccount, ByWallet, Shaped, SeriesMap, Quiet, IsLots, IndexOf;
    BeforeIsShaped(n, Quiet(n), bal, cash, usdc, wr, insurance, fees);
    AccountEntry(bal, aid, bal[aid - 1]);
    AccountEntry(cash, aid, cash[aid - 1]);
    WalletEntry(n, wr, to, wr[IndexOf(n, to)]);
    IsKnown(n, aid, sid, to);
  }

  lemma {:induction false} MintIs(n: Names, bal: seq<Row>, cash: seq<int>, usdc: seq<int>, wr: seq<Row>,
      insurance: int, fees: int, aid: Aid, sid: Sid, q: int, to: Owner)
    requires Rows(n, bal, cash, usdc, wr) && 1 <= aid <= 3 && sid in SeriesMap(n) && to in {n.writer, n.liquidator}
    requires 0 < q && IsLots(LOT, Get(bal[aid - 1], sid) - q) && 100_000 <= cash[aid - 1]
    ensures var s := Before(n, Quiet(n), bal, cash, usdc, wr, insurance, fees);
      && Shaped(ConfigOf(n), s) && Known(ConfigOf(n), aid, sid) && to in ConfigOf(n).wallets
      && Mint(ConfigOf(n), s, aid, sid, q, to)
        == Done(Minted(n, bal, cash, usdc, wr, insurance, fees, aid, sid, q, to))
  {
    hide ConfigOf, Before, Minted, MintedFrom, Mint, Shaped, Unpriced, Known, Put, SeriesMap, Quiet, IsLots;
    var s := Before(n, Quiet(n), bal, cash, usdc, wr, insurance, fees);
    MintReady(n, bal, cash, usdc, wr, insurance, fees, aid, sid, q, to);
    UnpricedIsShaped(n, s);
    QuietMint(n, s, aid, sid, q, to);
    MintedIs(n, bal, cash, usdc, wr, insurance, fees, aid, sid, q, to);
  }

  lemma {:induction false} MintedIs(n: Names, bal: seq<Row>, cash: seq<int>, usdc: seq<int>, wr: seq<Row>,
      insurance: int, fees: int, aid: Aid, sid: Sid, q: int, to: Owner)
    requires Rows(n, bal, cash, usdc, wr) && 1 <= aid <= 3 && to in {n.writer, n.liquidator}
    ensures var s := Before(n, Quiet(n), bal, cash, usdc, wr, insurance, fees);
      && aid in s.bal && aid in s.cash && to in s.wr
      && MintedFrom(s, aid, sid, q, to) == Minted(n, bal, cash, usdc, wr, insurance, fees, aid, sid, q, to)
  {
    hide ByAccount, ByWallet, Put, SeriesMap, Quiet, IndexOf;
    var i, w := aid - 1, IndexOf(n, to);
    AccountEntry(bal, aid, Put(bal[i], sid, Get(bal[i], sid) - q));
    AccountEntry(cash, aid, cash[i] - 100_000);
    WalletEntry(n, wr, to, wr[w][sid := Get(wr[w], sid) + q]);
  }

  lemma {:induction false} UnpricedIsShaped(n: Names, s: State)
    requires Unpriced(n, s)
    ensures Shaped(ConfigOf(n), s)
  {
  }

  lemma {:induction false} MintAt(n: Names, bal: seq<Row>, cash: seq<int>, usdc: seq<int>, wr: seq<Row>,
      insurance: int, fees: int, aid: Aid, sid: Sid, q: int, to: Owner)
    requires Rows(n, bal, cash, usdc, wr) && 1 <= aid <= 3 && sid in SeriesMap(n) && to in {n.writer, n.liquidator}
    requires 0 < q && IsLots(LOT, Get(bal[aid - 1], sid) - q) && 100_000 <= cash[aid - 1]
    ensures Leads(ConfigOf(n), Before(n, Quiet(n), bal, cash, usdc, wr, insurance, fees), [MintLong(aid, sid, q, to)],
      Minted(n, bal, cash, usdc, wr, insurance, fees, aid, sid, q, to))
  {
    hide ConfigOf, Before, Minted, Mint, Shaped, Leads, WellFormed, IsLots;
    var s := Before(n, Quiet(n), bal, cash, usdc, wr, insurance, fees);
    MintIs(n, bal, cash, usdc, wr, insurance, fees, aid, sid, q, to);
    ShapedIsWellFormed(ConfigOf(n), s);
    OneStep(ConfigOf(n), s, MintLong(aid, sid, q, to),
      Minted(n, bal, cash, usdc, wr, insurance, fees, aid, sid, q, to));
  }

  lemma {:induction false} ShapedIsWellFormed(c: Config, s: State)
    requires Shaped(c, s)
    ensures WellFormed(c)
  {
  }

  function Unwrapped(n: Names, prices: Prices, bal: seq<Row>, cash: seq<int>, usdc: seq<int>, wr: seq<Row>,
      insurance: int, fees: int, o: Owner, aid: Aid, sid: Sid, q: int): State
    requires Rows(n, bal, cash, usdc, wr) && 1 <= aid <= 3
  {
    var i, w := aid - 1, IndexOf(n, o);
    Before(n, prices, bal[i := Put(bal[i], sid, Get(bal[i], sid) + q)], cash, usdc,
      wr[w := wr[w][sid := Get(wr[w], sid) - q]], insurance, fees)
  }

  lemma {:induction false} UnwrapAllowed(n: Names, prices: Prices, bal: seq<Row>, cash: seq<int>, usdc: seq<int>,
      wr: seq<Row>, insurance: int, fees: int, o: Owner, aid: Aid, sid: Sid, q: int)
    requires Rows(n, bal, cash, usdc, wr) && 1 <= aid <= 3 && sid in SeriesMap(n)
    requires o == if aid == 3 then n.liquidator else n.writer
    requires LOT <= q <= Get(wr[IndexOf(n, o)], sid) && 0 <= Get(bal[aid - 1], sid)
    requires IsLots(LOT, Get(bal[aid - 1], sid) + q)
    ensures var s := Before(n, prices, bal, cash, usdc, wr, insurance, fees);
      && Shaped(ConfigOf(n), s) && Known(ConfigOf(n), aid, sid) && o in ConfigOf(n).wallets
      && Unwrap(ConfigOf(n), s, o, aid, sid, q).Done?
  {
    hide ConfigOf, ByAccount, ByWallet, Shaped, Put, SeriesMap, Active, IsLots, Health.Priced, RaiseTolerated;
    hide Health.MarginKept, SetBalance, Give;
    var s := Before(n, prices, bal, cash, usdc, wr, insurance, fees);
    BeforeIsShaped(n, prices, bal, cash, usdc, wr, insurance, fees);
    AccountEntry(bal, aid, bal[aid - 1]);
    WalletEntry(n, wr, o, wr[IndexOf(n, o)]);
    IsKnown(n, aid, sid, o);
    PricesAreValues(n);
    Health.UnwrapNotWorse(ConfigOf(n), s, o, aid, sid, q);
  }

  lemma {:induction false} UnwrapIs(n: Names, prices: Prices, bal: seq<Row>, cash: seq<int>, usdc: seq<int>,
      wr: seq<Row>, insurance: int, fees: int, o: Owner, aid: Aid, sid: Sid, q: int)
    requires Rows(n, bal, cash, usdc, wr) && 1 <= aid <= 3 && sid in SeriesMap(n)
    requires o == if aid == 3 then n.liquidator else n.writer
    requires LOT <= q <= Get(wr[IndexOf(n, o)], sid) && 0 <= Get(bal[aid - 1], sid)
    requires IsLots(LOT, Get(bal[aid - 1], sid) + q)
    ensures var s := Before(n, prices, bal, cash, usdc, wr, insurance, fees);
      && Shaped(ConfigOf(n), s) && Known(ConfigOf(n), aid, sid) && o in ConfigOf(n).wallets
      && Unwrap(ConfigOf(n), s, o, aid, sid, q)
        == Done(Unwrapped(n, prices, bal, cash, usdc, wr, insurance, fees, o, aid, sid, q))
  {
    hide ConfigOf, ByAccount, ByWallet, Shaped, Put, SeriesMap, Active, IsLots, RaiseTolerated, IndexOf;
    var i, w := aid - 1, IndexOf(n, o);
    UnwrapAllowed(n, prices, bal, cash, usdc, wr, insurance, fees, o, aid, sid, q);
    AccountEntry(bal, aid, Put(bal[i], sid, Get(bal[i], sid) + q));
    WalletEntry(n, wr, o, wr[w][sid := Get(wr[w], sid) - q]);
  }

  lemma {:induction false} UnwrapAt(n: Names, prices: Prices, bal: seq<Row>, cash: seq<int>, usdc: seq<int>,
      wr: seq<Row>, insurance: int, fees: int, o: Owner, aid: Aid, sid: Sid, q: int)
    requires Rows(n, bal, cash, usdc, wr) && 1 <= aid <= 3 && sid in SeriesMap(n)
    requires o == if aid == 3 then n.liquidator else n.writer
    requires LOT <= q <= Get(wr[IndexOf(n, o)], sid) && 0 <= Get(bal[aid - 1], sid)
    requires IsLots(LOT, Get(bal[aid - 1], sid) + q)
    ensures Leads(ConfigOf(n), Before(n, prices, bal, cash, usdc, wr, insurance, fees), [UnwrapLong(o, aid, sid, q)],
      Unwrapped(n, prices, bal, cash, usdc, wr, insurance, fees, o, aid, sid, q))
  {
    hide ConfigOf, Before, Unwrapped, Unwrap, Shaped, Leads, WellFormed, IsLots;
    var s := Before(n, prices, bal, cash, usdc, wr, insurance, fees);
    UnwrapIs(n, prices, bal, cash, usdc, wr, insurance, fees, o, aid, sid, q);
    ShapedIsWellFormed(ConfigOf(n), s);
    OneStep(ConfigOf(n), s, UnwrapLong(o, aid, sid, q),
      Unwrapped(n, prices, bal, cash, usdc, wr, insurance, fees, o, aid, sid, q));
  }

  lemma {:induction false} DepositAt(n: Names, prices: Prices, bal: seq<Row>, cash: seq<int>, usdc: seq<int>,
      wr: seq<Row>, insurance: int, fees: int, aid: Aid, amt: int)
    requires Rows(n, bal, cash, usdc, wr) && 1 <= aid <= 2 && 0 < amt <= usdc[0]
    ensures var s := Before(n, prices, bal, cash, usdc, wr, insurance, fees);
      Leads(ConfigOf(n), s, [DepositCash(aid, amt)], Before(n, prices, bal, cash[aid - 1 := cash[aid - 1] + amt],
        usdc[0 := usdc[0] - amt], wr, insurance, fees))
  {
    hide ConfigOf, ByAccount, ByWallet, Shaped, SeriesMap, Leads, WellFormed, Active, RiskAt, Tolerated, NotWorse;
    var s := Before(n, prices, bal, cash, usdc, wr, insurance, fees);
    BeforeIsShaped(n, prices, bal, cash, usdc, wr, insurance, fees);
    AccountEntry(cash, aid, cash[aid - 1] + amt);
    WalletEntry(n, usdc, n.writer, usdc[0] - amt);
    IsKnown(n, aid, n.near, n.writer);
    Health.DepositNotWorse(ConfigOf(n), s, aid, amt);
    ShapedIsWellFormed(ConfigOf(n), s);
    OneStep(ConfigOf(n), s, DepositCash(aid, amt), Deposit(ConfigOf(n), s, aid, amt).next);
  }

  /** Nothing to secure: whatever is there may be taken out. */
  lemma {:induction false} WithdrawAt(n: Names, prices: Prices, bal: seq<Row>, cash: seq<int>, usdc: seq<int>,
      wr: seq<Row>, insurance: int, fees: int, amt: int)
    requires Rows(n, bal, cash, usdc, wr) && bal[0] == map[] && 0 < amt <= cash[0]
    ensures var s := Before(n, prices, bal, cash, usdc, wr, insurance, fees);
      Leads(ConfigOf(n), s, [WithdrawCash(1, amt)], Before(n, prices, bal, cash[0 := cash[0] - amt],
        usdc[0 := usdc[0] + amt], wr, insurance, fees))
  {
    hide ConfigOf, ByAccount, ByWallet, Shaped, SeriesMap, Leads, WellFormed, Active;
    var s := Before(n, prices, bal, cash, usdc, wr, insurance, fees);
    BeforeIsShaped(n, prices, bal, cash, usdc, wr, insurance, fees);
    AccountEntry(bal, 1, map[]);
    AccountEntry(cash, 1, cash[0] - amt);
    WalletEntry(n, usdc, n.writer, usdc[0] + amt);
    IsKnown(n, 1, n.near, n.writer);
    ShapedIsWellFormed(ConfigOf(n), s);
    OneStep(ConfigOf(n), s, WithdrawCash(1, amt), Withdraw(ConfigOf(n), s, 1, amt).next);
  }

  // Three calls are sold: two find their way to the account that is liquidated and to the liquidator, one to the writer

  const NONE: Row := map[]

  function SellNear(n: Names): seq<Action> {
    [MarketMove(SOON, Quiet(n))] + [DepositCash(2, 200_000)] + [MintLong(2, n.near, NEAR, n.writer)]
    + [UnwrapLong(n.writer, 1, n.near, NEAR)]
  }

  function NearSold(n: Names): State {
    Before(n, Quiet(n), [map[n.near := NEAR], map[n.near := -NEAR], NONE], [0, 100_000, 0], [100_000, 0],
      [map[n.near := 0], NONE], FUND + 60_000, 1)
  }

  lemma {:induction false} NearIsSold(n: Names)
    requires Apart(n)
    ensures Leads(ConfigOf(n), Start(n), SellNear(n), NearSold(n))
  {
    hide Before, ConfigOf, Leads, SeriesMap, Start, Quiet;
    var c, p := ConfigOf(n), Quiet(n);
    assert {} <= SeriesMap(n).Keys && n.near in SeriesMap(n) by { NamesKnown(n); }
    var b0, b1 := [NONE, NONE, NONE], [NONE, map[n.near := -NEAR], NONE];
    TimePasses(n);
    var s1 := Before(n, p, b0, [0, 0, 0], [300_000, 0], [NONE, NONE], FUND, 0);
    DepositAt(n, p, b0, [0, 0, 0], [300_000, 0], [NONE, NONE], FUND, 0, 2, 200_000);
    var s2 := Before(n, p, b0, [0, 200_000, 0], [100_000, 0], [NONE, NONE], FUND, 0);
    assert [0, 0, 0][1 := 200_000] == [0, 200_000, 0] && [300_000, 0][0 := 100_000] == [100_000, 0];
    WholeLotsOfThem();
    MintAt(n, b0, [0, 200_000, 0], [100_000, 0], [NONE, NONE], FUND, 0, 2, n.near, NEAR, n.writer);
    var w1 := [map[n.near := NEAR], NONE];
    var s3 := Before(n, p, b1, [0, 100_000, 0], [100_000, 0], w1, FUND + 60_000, 1);
    assert b0[1 := Put(NONE, n.near, -NEAR)] == b1 && [NONE, NONE][0 := NONE[n.near := NEAR]] == w1;
    assert [0, 200_000, 0][1 := 100_000] == [0, 100_000, 0];
    assert Minted(n, b0, [0, 200_000, 0], [100_000, 0], [NONE, NONE], FUND, 0, 2, n.near, NEAR, n.writer) == s3;
    UnwrapAt(n, p, b1, [0, 100_000, 0], [100_000, 0], w1, FUND + 60_000, 1, n.writer, 1, n.near, NEAR);
    assert b1[0 := Put(NONE, n.near, NEAR)] == [map[n.near := NEAR], map[n.near := -NEAR], NONE];
    assert w1[0][n.near := 0] == map[n.near := 0];
    assert w1[0 := w1[0][n.near := 0]] == [map[n.near := 0], NONE];
    Onward(c, Start(n), [MarketMove(SOON, p)], s1, [DepositCash(2, 200_000)], s2);
    Onward(c, Start(n), [MarketMove(SOON, p)] + [DepositCash(2, 200_000)], s2, [MintLong(2, n.near, NEAR, n.writer)],
      s3);
    Onward(c, Start(n), [MarketMove(SOON, p)] + [DepositCash(2, 200_000)] + [MintLong(2, n.near, NEAR, n.writer)], s3,
      [UnwrapLong(n.writer, 1, n.near, NEAR)], NearSold(n));
  }

  lemma {:induction false} NamesKnown(n: Names)
    ensures SeriesMap(n).Keys == {n.near, n.far, n.other}
  {
  }

  lemma {:induction false} WholeLotsOfThem()
    ensures IsLots(LOT, NEAR) && IsLots(LOT, FAR) && IsLots(LOT, HEDGE) && IsLots(LOT, 0)
    ensures IsLots(LOT, -NEAR) && IsLots(LOT, -FAR) && IsLots(LOT, -HEDGE)
  {
  }

  /** The empty protocol, seen from its accounts and wallets. */
  function Empty(n: Names): State {
    At(n, 0, Quiet(n), [NONE, NONE, NONE], [0, 0, 0], [300_000, 0], [NONE, NONE], NEW_GROUP, FUND, 0)
  }

  lemma {:induction false} StartIsEmpty(n: Names)
    requires Apart(n)
    ensures Start(n) == Empty(n)
  {
    hide Quiet, SeriesMap, ConfigOf, ByAccount, ByWallet;
    var c := ConfigOf(n);
    ConfigKeys(n);
    EmptyAccounts(c.owner);
    EmptyWallets(n, c.wallets, c.groups);
  }

  lemma {:induction false} ConfigKeys(n: Names)
    ensures ConfigOf(n).owner.Keys == {1, 2, 3} && ConfigOf(n).wallets == {n.writer, n.liquidator}
    ensures ConfigOf(n).groups.Keys == {n.g, n.h}
  {
    hide Defaults, SeriesMap;
  }

  lemma {:induction false} EmptyAccounts(owner: map<Aid, Owner>)
    requires owner.Keys == {1, 2, 3}
    ensures (map a | a in owner :: NONE) == ByAccount([NONE, NONE, NONE])
    ensures (map a | a in owner :: 0) == ByAccount([0, 0, 0])
  {
  }

  lemma {:induction false} EmptyWallets(n: Names, wallets: set<Owner>, groups: map<Gid, Terms>)
    requires Apart(n) && wallets == {n.writer, n.liquidator} && groups.Keys == {n.g, n.h}
    ensures (map o | o in wallets :: NONE) == ByWallet(n, [NONE, NONE])
    ensures map[n.writer := 300_000, n.liquidator := 0] == ByWallet(n, [300_000, 0])
    ensures (map g | g in groups :: NEW_GROUP) == map[n.g := NEW_GROUP, n.h := NEW_GROUP]
  {
  }

  lemma {:induction false} TimePasses(n: Names)
    requires Apart(n)
    ensures Leads(ConfigOf(n), Start(n), [MarketMove(SOON, Quiet(n))],
      Before(n, Quiet(n), [NONE, NONE, NONE], [0, 0, 0], [300_000, 0], [NONE, NONE], FUND, 0))
  {
    hide ConfigOf, Quiet, Leads, Shaped, Start, ByAccount, ByWallet, WellFormed, SeriesMap;
    StartIsEmpty(n);
    var none := [NONE, NONE, NONE];
    AtIsShaped(n, 0, Quiet(n), none, [0, 0, 0], [300_000, 0], [NONE, NONE], NEW_GROUP, FUND, 0);
    ShapedIsWellFormed(ConfigOf(n), Start(n));
    OneStep(ConfigOf(n), Start(n), MarketMove(SOON, Quiet(n)),
      Before(n, Quiet(n), none, [0, 0, 0], [300_000, 0], [NONE, NONE], FUND, 0));
  }

  function SellOther(n: Names): seq<Action> {
    [MintLong(2, n.other, HEDGE, n.liquidator)] + [UnwrapLong(n.liquidator, 3, n.other, HEDGE)]
  }

  function Shorts(n: Names): Row {
    map[n.near := -NEAR, n.other := -HEDGE]
  }

  function OtherSold(n: Names): State {
    Before(n, Quiet(n), [map[n.near := NEAR], Shorts(n), map[n.other := HEDGE]], [0, 0, 0], [100_000, 0],
      [map[n.near := 0], map[n.other := 0]], FUND + 120_000, 2)
  }

  lemma {:induction false} OtherIsSold(n: Names)
    requires Apart(n)
    ensures Leads(ConfigOf(n), NearSold(n), SellOther(n), OtherSold(n))
  {
    hide Before, ConfigOf, Leads, SeriesMap, Quiet;
    var c, p := ConfigOf(n), Quiet(n);
    NamesKnown(n);
    WholeLotsOfThem();
    var b0, w0 := [map[n.near := NEAR], map[n.near := -NEAR], NONE], [map[n.near := 0], NONE];
    MintAt(n, b0, [0, 100_000, 0], [100_000, 0], w0, FUND + 60_000, 1, 2, n.other, HEDGE, n.liquidator);
    var b1, w1 := [map[n.near := NEAR], Shorts(n), NONE], [map[n.near := 0], map[n.other := HEDGE]];
    var s1 := Before(n, p, b1, [0, 0, 0], [100_000, 0], w1, FUND + 120_000, 2);
    assert Put(b0[1], n.other, -HEDGE) == Shorts(n);
    assert b0[1 := Put(b0[1], n.other, -HEDGE)] == b1 && w0[1 := NONE[n.other := HEDGE]] == w1;
    assert [0, 100_000, 0][1 := 0] == [0, 0, 0];
    assert Minted(n, b0, [0, 100_000, 0], [100_000, 0], w0, FUND + 60_000, 1, 2, n.other, HEDGE, n.liquidator) == s1;
    UnwrapAt(n, p, b1, [0, 0, 0], [100_000, 0], w1, FUND + 120_000, 2, n.liquidator, 3, n.other, HEDGE);
    assert b1[2 := Put(NONE, n.other, HEDGE)] == [map[n.near := NEAR], Shorts(n), map[n.other := HEDGE]];
    assert w1[1][n.other := 0] == map[n.other := 0];
    assert w1[1 := w1[1][n.other := 0]] == [map[n.near := 0], map[n.other := 0]];
    Onward(c, NearSold(n), [MintLong(2, n.other, HEDGE, n.liquidator)], s1,
      [UnwrapLong(n.liquidator, 3, n.other, HEDGE)], OtherSold(n));
  }

  function SellFar(n: Names): seq<Action> {
    [DepositCash(1, 100_000)] + [MintLong(1, n.far, FAR, n.writer)]
  }

  /** Everything sold, at the prices given. */
  function AllSold(n: Names, prices: Prices): State {
    Before(n, prices, [Spread(n), Shorts(n), map[n.other := HEDGE]], [0, 0, 0], [0, 0],
      [map[n.near := 0, n.far := FAR], map[n.other := 0]], FUND + 180_000, 3)
  }

  lemma {:induction false} FarIsSold(n: Names)
    requires Apart(n)
    ensures Leads(ConfigOf(n), OtherSold(n), SellFar(n), AllSold(n, Quiet(n)))
  {
    hide Before, ConfigOf, Leads, SeriesMap, Quiet;
    var c, p := ConfigOf(n), Quiet(n);
    NamesKnown(n);
    WholeLotsOfThem();
    var b0 := [map[n.near := NEAR], Shorts(n), map[n.other := HEDGE]];
    var w0 := [map[n.near := 0], map[n.other := 0]];
    DepositAt(n, p, b0, [0, 0, 0], [100_000, 0], w0, FUND + 120_000, 2, 1, 100_000);
    assert [0, 0, 0][0 := 100_000] == [100_000, 0, 0] && [100_000, 0][0 := 0] == [0, 0];
    var s1 := Before(n, p, b0, [100_000, 0, 0], [0, 0], w0, FUND + 120_000, 2);
    MintAt(n, b0, [100_000, 0, 0], [0, 0], w0, FUND + 120_000, 2, 1, n.far, FAR, n.writer);
    assert Put(b0[0], n.far, -FAR) == Spread(n);
    assert b0[0 := Put(b0[0], n.far, -FAR)] == [Spread(n), Shorts(n), map[n.other := HEDGE]];
    assert w0[0][n.far := FAR] == map[n.near := 0, n.far := FAR];
    assert w0[0 := w0[0][n.far := FAR]] == [map[n.near := 0, n.far := FAR], map[n.other := 0]];
    assert [100_000, 0, 0][0 := 0] == [0, 0, 0];
    assert Minted(n, b0, [100_000, 0, 0], [0, 0], w0, FUND + 120_000, 2, 1, n.far, FAR, n.writer) == AllSold(n, p);
    Onward(c, OtherSold(n), [DepositCash(1, 100_000)], s1, [MintLong(1, n.far, FAR, n.writer)], AllSold(n, p));
  }

  /** The calls are sold one second before expiry, and then spot rises. */
  function Sale(n: Names): seq<Action> {
    SellNear(n) + SellOther(n) + SellFar(n) + [MarketMove(SOON, Loud(n))]
  }

  lemma {:induction false} SoldIsRows(n: Names)
    requires Apart(n)
    ensures Rows(n, [Spread(n), Shorts(n), map[n.other := HEDGE]], [0, 0, 0], [0, 0],
      [map[n.near := 0, n.far := FAR], map[n.other := 0]])
  {
    NamesKnown(n);
  }

  lemma {:induction false} SpotRises(n: Names)
    requires Apart(n)
    ensures Leads(ConfigOf(n), AllSold(n, Quiet(n)), [MarketMove(SOON, Loud(n))], AllSold(n, Loud(n)))
    ensures Unpriced(n, AllSold(n, Loud(n)))
  {
    hide ConfigOf, Quiet, Loud, Leads, Shaped, WellFormed, SeriesMap, ByAccount, ByWallet;
    SoldIsRows(n);
    var bal := [Spread(n), Shorts(n), map[n.other := HEDGE]];
    var wr := [map[n.near := 0, n.far := FAR], map[n.other := 0]];
    BeforeIsShaped(n, Quiet(n), bal, [0, 0, 0], [0, 0], wr, FUND + 180_000, 3);
    BeforeIsShaped(n, Loud(n), bal, [0, 0, 0], [0, 0], wr, FUND + 180_000, 3);
    ShapedIsWellFormed(ConfigOf(n), AllSold(n, Quiet(n)));
    OneStep(ConfigOf(n), AllSold(n, Quiet(n)), MarketMove(SOON, Loud(n)), AllSold(n, Loud(n)));
  }

  lemma {:induction false} SaleLeads(n: Names)
    requires Apart(n)
    ensures Leads(ConfigOf(n), Start(n), Sale(n), AllSold(n, Loud(n)))
  {
    hide ConfigOf, Leads, Start, SellNear, SellOther, SellFar, NearSold, OtherSold, AllSold;
    var c := ConfigOf(n);
    NearIsSold(n);
    OtherIsSold(n);
    FarIsSold(n);
    SpotRises(n);
    Onward(c, Start(n), SellNear(n), NearSold(n), SellOther(n), OtherSold(n));
    Onward(c, Start(n), SellNear(n) + SellOther(n), OtherSold(n), SellFar(n), AllSold(n, Quiet(n)));
    Onward(c, Start(n), SellNear(n) + SellOther(n) + SellFar(n), AllSold(n, Quiet(n)), [MarketMove(SOON, Loud(n))],
      AllSold(n, Loud(n)));
  }

  // ---------------------------------------------------------------------------------------------------------
  // The slice
  // ---------------------------------------------------------------------------------------------------------

  const ASKED: int := 1_350_000 * UNIT
  const PENALTY: int := 60_000 * UNIT
  const PAID: Liquidation.NativeSlice := Liquidation.NativeSlice(-ASKED, PENALTY, 0)

  lemma {:induction false} EmptyRisk(c: Config, s: State, cash: int)
    requires Shaped(c, s)
    ensures var r := RiskAt(c, s, cash, NONE);
      r.equity == Liquidation.Tokens(cash) && r.im == 0.0 && r.mm == 0.0
  {
    hide Shaped, Margin.RiskOf;
    WorthlessRisk(MarketOf(c, s.now, s.prices), Liquidation.Tokens(cash), Legs(c, s, NONE));
  }

  lemma {:induction false} AllLots()
    ensures SliceOf(LOT, NEAR, 10_000) == NEAR && SliceOf(LOT, -FAR, 10_000) == -FAR
  {
  }

  /** The spread on the eve of expiry, in the hands of account 1; the liquidator holds `row`. */
  function Facing(n: Names, row: Row, wr: seq<Row>): State
    requires |wr| == 2
  {
    Before(n, Loud(n), [Spread(n), Shorts(n), row], [0, 0, 0], [0, 0], wr, FUND + 180_000, 3)
  }

  function Taken(n: Names, row: Row, wr: seq<Row>): State
    requires |wr| == 2
  {
    Before(n, Loud(n), [NONE, Shorts(n), More(row, Spread(n))], [ASKED - PENALTY, 0, -ASKED], [0, 0], wr,
      FUND + 180_000 + PENALTY, 3)
  }

  predicate Exposed(n: Names, row: Row, wr: seq<Row>) {
    Rows(n, [Spread(n), Shorts(n), row], [0, 0, 0], [0, 0], wr)
  }

  lemma {:induction false} WholeSpread(n: Names, row: Row, wr: seq<Row>)
    requires Exposed(n, row, wr)
    ensures var s := Facing(n, row, wr);
      Unpriced(n, s) && Move(ConfigOf(n), s, 1, n.eth, 10_000) == Spread(n)
  {
    hide Shaped, SliceOf, Defaults, Loud, Put, ByWallet, ByAccount;
    var s := Facing(n, row, wr);
    BeforeIsShaped(n, Loud(n), [Spread(n), Shorts(n), row], [0, 0, 0], [0, 0], wr, FUND + 180_000, 3);
    AccountEntry([Spread(n), Shorts(n), row], 1, NONE);
    AllLots();
    assert Movable(ConfigOf(n), s, 1, n.eth) == {n.near, n.far};
  }

  lemma {:induction false} CashOfSlice(insurance: real, fund: int)
    ensures var r := Liquidation.SliceCash(1_500_000.0, 3_000_000.0, 500, PENALTY_BPS, 0.0, insurance);
      Liquidation.NativeOf(r, 0, fund) == PAID
  {
    assert Liquidation.SliceCash(1_500_000.0, 3_000_000.0, 500, PENALTY_BPS, 0.0, insurance)
      == Liquidation.SliceResult(150_000.0, 60_000.0, -1_350_000.0, 0.0, 0.0);
    assert Liquidation.Pay(-1_350_000_000_000.0) == -ASKED;
    assert Liquidation.Trunc(60_000_000_000.0 * 1_000_000.0) == 60_000_000_000_000_000;
    assert Liquidation.RoundUp(60_000_000_000.0) == PENALTY;
  }

  /** What the slice asks and pays: 1,500,000 of value less a discount of 150,000, of which 60,000 go to insurance. */
  lemma {:induction false} SliceIs(n: Names, row: Row, wr: seq<Row>)
    requires Exposed(n, row, wr) && Shaped(ConfigOf(n), Facing(n, row, wr)) && Spread(n).Keys <= SeriesMap(n).Keys
    ensures var c, s := ConfigOf(n), Facing(n, row, wr);
      && SliceMm(c, s, 1, Spread(n)) == 3_000_000.0 && SliceCashFlow(c, s, 1, Spread(n), 500) == PAID
  {
    hide Shaped, RiskAt, SliceMark, Loud, ByAccount, ByWallet, Liquidation.SliceCash, Liquidation.NativeOf, Defaults;
    var c, s := ConfigOf(n), Facing(n, row, wr);
    WholeSpread(n, row, wr);
    AccountEntry([Spread(n), Shorts(n), row], 1, NONE);
    AccountEntry([0, 0, 0], 1, 0);
    RiskOfSpread(n, s, 0);
    EmptyRisk(c, s, 0);
    assert Less(Spread(n), Spread(n)) == NONE;
    CashOfSlice(Liquidation.Tokens(s.insurance), s.insurance);
  }

  lemma {:induction false} SpreadTaken(n: Names, row: Row, wr: seq<Row>)
    requires Exposed(n, row, wr) && Shaped(ConfigOf(n), Facing(n, row, wr)) && Spread(n).Keys <= SeriesMap(n).Keys
    ensures Sliced(ConfigOf(n), Facing(n, row, wr), 1, Spread(n), PAID) == Taken(n, row, wr)
    ensures Unpriced(n, Taken(n, row, wr))
  {
    hide Shaped, Loud, ByAccount, ByWallet, Defaults, More, Less, SeriesMap;
    var next := [NONE, Shorts(n), More(row, Spread(n))];
    AccountEntry([Spread(n), Shorts(n), row], 1, NONE);
    AccountEntry([NONE, Shorts(n), row], 3, More(row, Spread(n)));
    AccountEntry([0, 0, 0], 1, ASKED - PENALTY);
    AccountEntry([ASKED - PENALTY, 0, 0], 3, -ASKED);
    NothingLeft(n);
    assert [Spread(n), Shorts(n), row][0 := NONE] == [NONE, Shorts(n), row];
    assert [NONE, Shorts(n), row][2 := More(row, Spread(n))] == next;
    assert [0, 0, 0][0 := ASKED - PENALTY] == [ASKED - PENALTY, 0, 0];
    assert [ASKED - PENALTY, 0, 0][2 := -ASKED] == [ASKED - PENALTY, 0, -ASKED];
    TakenKeys(n, row);
    BeforeIsShaped(n, Loud(n), next, [ASKED - PENALTY, 0, -ASKED], [0, 0], wr, FUND + 180_000 + PENALTY, 3);
  }

  lemma {:induction false} NothingLeft(n: Names)
    ensures Less(Spread(n), Spread(n)) == NONE
  {
  }

  lemma {:induction false} TakenKeys(n: Names, row: Row)
    requires row.Keys <= SeriesMap(n).Keys
    ensures More(row, Spread(n)).Keys <= SeriesMap(n).Keys
  {
  }

  /** The slice passes every check on the account; what is left to decide is the liquidator's own margin. */
  lemma {:induction false} SliceOutcome(n: Names, row: Row, wr: seq<Row>)
    requires Exposed(n, row, wr)
    ensures var c, s, s' := ConfigOf(n), Facing(n, row, wr), Taken(n, row, wr);
      && Shaped(c, s) && Unpriced(n, s') && s'.bal[3] == More(row, Spread(n)) && s'.cash[3] == -ASKED
      && Liquidate(c, s, 1, n.eth, 10_000, 500)
        == if Healthy(RiskAt(c, s', -ASKED, More(row, Spread(n)))) then Done(s') else Raised
  {
    hide Shaped, RiskAt, Loud, ByAccount, ByWallet, Defaults, More, Less, SliceMm, SliceCashFlow, Move, Sliced;
    hide SeriesMap, Healthy, ShortsHold;
    var c, s, s' := ConfigOf(n), Facing(n, row, wr), Taken(n, row, wr);
    WholeSpread(n, row, wr);
    RiskOfSpread(n, s, 0);
    SliceIs(n, row, wr);
    SpreadTaken(n, row, wr);
    AccountEntry([Spread(n), Shorts(n), row], 1, NONE);
    AccountEntry([0, 0, 0], 1, 0);
    AccountEntry([NONE, Shorts(n), More(row, Spread(n))], 3, NONE);
    AccountEntry([ASKED - PENALTY, 0, -ASKED], 3, 0);
    NothingLeft(n);
    EmptyRisk(c, s, ASKED - PENALTY);
    EthIsFresh(n);
    NoMoreShorts(n, row, wr);
  }

  lemma {:induction false} NoMoreShorts(n: Names, row: Row, wr: seq<Row>)
    requires |wr| == 2
    ensures ShortsHold(ConfigOf(n), Facing(n, row, wr).bal, Taken(n, row, wr).bal) && 0 <= Taken(n, row, wr).insurance
  {
    hide ConfigOf, Less, More, Loud;
    var bal := Facing(n, row, wr).bal;
    NothingLeft(n);
    assert Taken(n, row, wr).bal == Moved(bal, 1, 3, Spread(n));
    forall sid
      ensures Held(Moved(bal, 1, 3, Spread(n)), sid) == Held(bal, sid)
      ensures Sum(ShortColumn(Moved(bal, 1, 3, Spread(n)), sid)) <= Sum(ShortColumn(bal, sid))
    {
      MovedHeld(bal, 1, 3, Spread(n), sid);
      MovedShorts(bal, 1, 3, Spread(n), sid);
    }
  }

  lemma {:induction false} EthIsFresh(n: Names)
    ensures Loud(n).isFresh(n.eth)
  {
  }

  function TheSlice(n: Names): Action {
    Slice(1, n.eth, 10_000, 500)
  }

  function SoldWrappers(n: Names): seq<Row> {
    [map[n.near := 0, n.far := FAR], map[n.other := 0]]
  }

  function HedgeRow(n: Names): Row {
    map[n.other := HEDGE]
  }

  lemma {:induction false} HedgedTaken(n: Names)
    requires Apart(n)
    ensures More(HedgeRow(n), Spread(n)) == Hedged(n) && More(NONE, Spread(n)) == Spread(n)
  {
  }

  /** With the hedge, the liquidator's margin is in order although its cash is not. */
  lemma {:induction false} SliceGoesThrough(n: Names)
    requires Apart(n)
    ensures Leads(ConfigOf(n), AllSold(n, Loud(n)), [TheSlice(n)], Taken(n, HedgeRow(n), SoldWrappers(n)))
  {
    hide Leads, Shaped, RiskAt, Loud, ByAccount, ByWallet, ConfigOf, More, WellFormed, Liquidate, SeriesMap, Before;
    var c, s, s' := ConfigOf(n), Facing(n, HedgeRow(n), SoldWrappers(n)), Taken(n, HedgeRow(n), SoldWrappers(n));
    SoldIsRows(n);
    SliceOutcome(n, HedgeRow(n), SoldWrappers(n));
    HedgedTaken(n);
    TakenPrices(n, HedgeRow(n), SoldWrappers(n));
    RiskOfHedged(n, s', -ASKED);
    ShapedIsWellFormed(c, s);
    IsKnown(n, 1, n.near, n.writer);
    OneStep(c, s, TheSlice(n), s');
  }

  lemma {:induction false} TakenPrices(n: Names, row: Row, wr: seq<Row>)
    requires |wr| == 2
    ensures Taken(n, row, wr).prices == Loud(n)
  {
  }

  /** Where the sale and the slice lead: the liquidator has taken the spread over with money it does not have. */
  function Broke(n: Names): State {
    Taken(n, HedgeRow(n), SoldWrappers(n))
  }

  /** The sale and the slice go through, and the liquidator ends with negative cash. */
  lemma {:induction false} SliceOverdraws(n: Names)
    requires Apart(n)
    ensures Inv(ConfigOf(n), Start(n)) && Margin.NonNegative(ConfigOf(n).black76)
    ensures Leads(ConfigOf(n), Start(n), Sale(n) + [TheSlice(n)], Broke(n)) && Broke(n).cash[3] == -ASKED < 0
  {
    hide Start, Sale, Before, AllSold, ConfigOf, Inv, Shaped, Leads, ByAccount, Liquidate, RiskAt, More;
    StartIsSafe(n);
    SaleLeads(n);
    SliceGoesThrough(n);
    SoldIsRows(n);
    SliceOutcome(n, HedgeRow(n), SoldWrappers(n));
    Onward(ConfigOf(n), Start(n), Sale(n), AllSold(n, Loud(n)), [TheSlice(n)], Broke(n));
  }

  lemma {:induction false} StartIsSafe(n: Names)
    requires Apart(n)
    ensures Inv(ConfigOf(n), Start(n)) && Margin.NonNegative(ConfigOf(n).black76)
  {
    hide Defaults, Inv, SeriesMap, WellFormed, Shaped, Quiet;
    var none := [NONE, NONE, NONE];
    AtIsShaped(n, 0, Quiet(n), none, [0, 0, 0], [300_000, 0], [NONE, NONE], NEW_GROUP, FUND, 0);
    ShapedIsWellFormed(ConfigOf(n), Empty(n));
    GenesisInv(ConfigOf(n), 0, Quiet(n), map[n.writer := 300_000, n.liquidator := 0], FUND);
  }

  // The same slice when the liquidator has put its hedge into wrapper tokens first

  function Unhedged(n: Names): State {
    Facing(n, NONE, [map[n.near := 0, n.far := FAR], HedgeRow(n)])
  }

  lemma {:induction false} HedgeWrapped(n: Names)
    requires Apart(n)
    ensures Leads(ConfigOf(n), AllSold(n, Loud(n)), [WrapLong(3, n.other, HEDGE, n.liquidator)], Unhedged(n))
  {
    hide Leads, Shaped, RiskAt, Loud, ByAccount, ByWallet, ConfigOf, WellFormed, SeriesMap, Active, IsLots;
    var c, s := ConfigOf(n), AllSold(n, Loud(n));
    var bal, wr := [Spread(n), Shorts(n), HedgeRow(n)], SoldWrappers(n);
    SpotRises(n);
    AccountEntry(bal, 3, NONE);
    AccountEntry([0, 0, 0], 3, 0);
    WalletEntry(n, wr, n.liquidator, HedgeRow(n));
    assert Put(HedgeRow(n), n.other, 0) == NONE && map[n.other := 0][n.other := HEDGE] == HedgeRow(n);
    assert bal[2 := NONE] == [Spread(n), Shorts(n), NONE];
    assert wr[1 := HedgeRow(n)] == [map[n.near := 0, n.far := FAR], HedgeRow(n)];
    NamesKnown(n);
    IsKnown(n, 3, n.other, n.liquidator);
    WholeLotsOfThem();
    EmptyRisk(c, s, 0);
    ShapedIsWellFormed(c, s);
    AlwaysFresh(n);
    OneStep(c, s, WrapLong(3, n.other, HEDGE, n.liquidator), Unhedged(n));
  }

  lemma {:induction false} AlwaysFresh(n: Names)
    ensures forall u :: Loud(n).isFresh(u)
  {
  }

  /** Without the hedge, the same slice leaves the liquidator below its margin, and the run stops there. */
  lemma {:induction false} SliceRaises(n: Names)
    requires Apart(n)
    ensures Leads(ConfigOf(n), Start(n), Sale(n) + [WrapLong(3, n.other, HEDGE, n.liquidator)], Unhedged(n))
    ensures Legal(ConfigOf(n), Unhedged(n), TheSlice(n)) && Shaped(ConfigOf(n), Unhedged(n))
    ensures Step(ConfigOf(n), Unhedged(n), TheSlice(n)) == Raised
  {
    hide Start, Sale, AllSold, Leads, Shaped, RiskAt, Loud, ByAccount, ByWallet, ConfigOf, WellFormed, SeriesMap, More;
    hide Before, Liquidate;
    var c, wr := ConfigOf(n), [map[n.near := 0, n.far := FAR], HedgeRow(n)];
    SaleLeads(n);
    HedgeWrapped(n);
    Onward(c, Start(n), Sale(n), AllSold(n, Loud(n)), [WrapLong(3, n.other, HEDGE, n.liquidator)], Unhedged(n));
    UnhedgedRows(n);
    SliceOutcome(n, NONE, wr);
    HedgedTaken(n);
    TakenPrices(n, NONE, wr);
    RiskOfSpread(n, Taken(n, NONE, wr), -ASKED);
    ShapedIsWellFormed(c, Unhedged(n));
    IsKnown(n, 1, n.near, n.writer);
  }

  lemma {:induction false} UnhedgedRows(n: Names)
    requires Apart(n)
    ensures Exposed(n, NONE, [map[n.near := 0, n.far := FAR], HedgeRow(n)])
  {
    NamesKnown(n);
  }

  // ---------------------------------------------------------------------------------------------------------
  // Settlement with an overdrawn liquidator
  // ---------------------------------------------------------------------------------------------------------

  const EXPIRY: int := 20 * DAY
  const FINAL: int := 20_000 * WAD
  const GAIN: int := FAR * (15_000 * WAD * WAD)
  const LEFT: int := FUND + 180_000 + PENALTY

  /** The account that was liquidated takes its cash out and unwraps the calls it had sold to its own wallet. */
  function Leave(n: Names): seq<Action> {
    [WithdrawCash(1, ASKED - PENALTY)] + [UnwrapLong(n.writer, 1, n.far, FAR)] + [MarketMove(EXPIRY, Loud(n))]
  }

  /** From expiry on. */
  function Late(n: Names, bal: seq<Row>, cash: seq<int>, x: Group, insurance: int): State
    requires |bal| == |cash| == 3
  {
    At(n, EXPIRY, Loud(n), bal, cash, [ASKED - PENALTY, 0], [map[n.near := 0, n.far := 0], map[n.other := 0]], x,
      insurance, 3)
  }

  function Owned(n: Names): seq<Row> {
    [map[n.far := FAR], Shorts(n), Hedged(n)]
  }

  function Expired(n: Names): State {
    Late(n, Owned(n), [0, 0, -ASKED], NEW_GROUP, LEFT)
  }

  lemma {:induction false} EverybodyLeaves(n: Names)
    requires Apart(n)
    ensures Leads(ConfigOf(n), Broke(n), Leave(n), Expired(n))
  {
    hide Before, ConfigOf, Leads, SeriesMap, Loud, More;
    var c, p := ConfigOf(n), Loud(n);
    NamesKnown(n);
    HedgedTaken(n);
    WholeLotsOfThem();
    var b0, b1, w0 := [NONE, Shorts(n), Hedged(n)], Owned(n), SoldWrappers(n);
    WithdrawAt(n, p, b0, [ASKED - PENALTY, 0, -ASKED], [0, 0], w0, LEFT, 3, ASKED - PENALTY);
    assert [ASKED - PENALTY, 0, -ASKED][0 := 0] == [0, 0, -ASKED];
    assert [0, 0][0 := ASKED - PENALTY] == [ASKED - PENALTY, 0];
    var usdc := [ASKED - PENALTY, 0];
    var s1 := Before(n, p, b0, [0, 0, -ASKED], usdc, w0, LEFT, 3);
    UnwrapAt(n, p, b0, [0, 0, -ASKED], usdc, w0, LEFT, 3, n.writer, 1, n.far, FAR);
    assert b0[0 := Put(NONE, n.far, FAR)] == b1;
    var w1 := [map[n.near := 0, n.far := 0], map[n.other := 0]];
    assert w0[0][n.far := 0] == w1[0];
    assert w0[0 := w0[0][n.far := 0]] == w1;
    var s2 := Before(n, p, b1, [0, 0, -ASKED], usdc, w1, LEFT, 3);
    Expires(n, b1, [0, 0, -ASKED], usdc, w1, LEFT);
    Onward(c, Broke(n), [WithdrawCash(1, ASKED - PENALTY)], s1, [UnwrapLong(n.writer, 1, n.far, FAR)], s2);
    Onward(c, Broke(n), [WithdrawCash(1, ASKED - PENALTY)] + [UnwrapLong(n.writer, 1, n.far, FAR)], s2,
      [MarketMove(EXPIRY, Loud(n))], Expired(n));
  }

  lemma {:induction false} Expires(n: Names, bal: seq<Row>, cash: seq<int>, usdc: seq<int>, wr: seq<Row>,
      insurance: int)
    requires Rows(n, bal, cash, usdc, wr)
    ensures Leads(ConfigOf(n), Before(n, Loud(n), bal, cash, usdc, wr, insurance, 3), [MarketMove(EXPIRY, Loud(n))],
      At(n, EXPIRY, Loud(n), bal, cash, usdc, wr, NEW_GROUP, insurance, 3))
  {
    hide ConfigOf, Loud, Leads, Shaped, WellFormed, SeriesMap, ByAccount, ByWallet;
    var s := Before(n, Loud(n), bal, cash, usdc, wr, insurance, 3);
    BeforeIsShaped(n, Loud(n), bal, cash, usdc, wr, insurance, 3);
    ShapedIsWellFormed(ConfigOf(n), s);
    OneStep(ConfigOf(n), s, MarketMove(EXPIRY, Loud(n)),
      At(n, EXPIRY, Loud(n), bal, cash, usdc, wr, NEW_GROUP, insurance, 3));
  }

  // Finalization and settlement

  function Finalized(n: Names): Group {
    NEW_GROUP.(price := Some(FINAL), snapshot := map[n.near := 0, n.far := 0])
  }

  lemma {:induction false} OwnedIsRows(n: Names, bal: seq<Row>, cash: seq<int>, x: Group, insurance: int)
    requires Apart(n) && |bal| == |cash| == 3 && forall i :: 0 <= i < 3 ==> bal[i].Keys <= SeriesMap(n).Keys
    ensures Shaped(ConfigOf(n), Late(n, bal, cash, x, insurance)) && WellFormed(ConfigOf(n))
  {
    hide Shaped, WellFormed, SeriesMap, ConfigOf, Loud, At;
    NamesKnown(n);
    var wr := [map[n.near := 0, n.far := 0], map[n.other := 0]];
    assert wr[0].Keys == {n.near, n.far} && wr[1].Keys == {n.other};
    AtIsShaped(n, EXPIRY, Loud(n), bal, cash, [ASKED - PENALTY, 0], [map[n.near := 0, n.far := 0], map[n.other := 0]],
      x, insurance, 3);
    ShapedIsWellFormed(ConfigOf(n), Late(n, bal, cash, x, insurance));
  }

  lemma {:induction false} InGroup(n: Names)
    requires Apart(n)
    ensures SeriesOf(ConfigOf(n), n.g) == {n.near, n.far} && n.g in ConfigOf(n).groups
      && ConfigOf(n).groups[n.g].expiry == EXPIRY
    ensures Units(ConfigOf(n), n.g, FINAL) == map[n.near := 15_500 * WAD * WAD, n.far := 15_000 * WAD * WAD]
    ensures ConfigOf(n).owner.Keys == {1, 2, 3}
  {
    hide Defaults;
    assert SeriesOf(ConfigOf(n), n.g) == {n.near, n.far};
  }

  lemma {:induction false} GroupIsFinalized(n: Names)
    requires Apart(n) && Core(ConfigOf(n), Expired(n))
    ensures Leads(ConfigOf(n), Expired(n), [FinalizeGroup(n.g, FINAL)],
      Late(n, Owned(n), [0, 0, -ASKED], Finalized(n), LEFT))
  {
    hide ConfigOf, Loud, Leads, Shaped, WellFormed, SeriesMap, ByAccount, ByWallet, SeriesOf, Units, Supply, Core;
    hide BooksAgree, Kept, Scale, IndexOf;
    var c, s := ConfigOf(n), Expired(n);
    NamesKnown(n);
    OwnedIsRows(n, Owned(n), [0, 0, -ASKED], NEW_GROUP, LEFT);
    InGroup(n);
    NoWrappersLeft(n);
    FinalizeSafe(c, s, n.g, FINAL);
    assert Snapshot(c, s.wr, n.g) == map[n.near := 0, n.far := 0];
    OneStep(c, s, FinalizeGroup(n.g, FINAL), Late(n, Owned(n), [0, 0, -ASKED], Finalized(n), LEFT));
  }

  lemma {:induction false} NoWrappersLeft(n: Names)
    requires Apart(n)
    ensures Supply(Expired(n).wr, n.near) == 0 && Supply(Expired(n).wr, n.far) == 0
  {
    SumZero(Column(Expired(n).wr, n.near));
    SumZero(Column(Expired(n).wr, n.far));
  }

  const DEBT: int := NEAR * (15_500 * WAD * WAD)

  /** The writer's account owes what it sold, the liquidator the rest of the spread, the liquidated account is owed. */
  lemma {:induction false} Nets(n: Names)
    requires Apart(n)
    ensures var units := Units(ConfigOf(n), n.g, FINAL);
      && Claim(map[n.far := FAR], units) == GAIN
      && Claim(Shorts(n), units) == -DEBT
      && Claim(Hedged(n), units) == DEBT - GAIN
    ensures DEBT < GAIN
  {
    hide ConfigOf, Units, Claim;
    TwoClaims(n, map[n.far := FAR]);
    TwoClaims(n, Shorts(n));
    TwoClaims(n, Hedged(n));
    Positions(n);
  }

  lemma {:induction false} Positions(n: Names)
    requires Apart(n)
    ensures Get(Shorts(n), n.near) == -NEAR && Get(Shorts(n), n.far) == 0
    ensures Get(Hedged(n), n.near) == NEAR && Get(Hedged(n), n.far) == -FAR
  {
  }

  lemma {:induction false} TwoClaims(n: Names, row: Row)
    requires Apart(n)
    ensures Claim(row, Units(ConfigOf(n), n.g, FINAL))
      == Get(row, n.near) * (15_500 * WAD * WAD) + Get(row, n.far) * (15_000 * WAD * WAD)
  {
    hide ConfigOf, Units;
    InGroup(n);
    var units := Units(ConfigOf(n), n.g, FINAL);
    var products := Products(row, units);
    SumRemove(products, n.near);
    SumRemove(products - {n.near}, n.far);
    assert products - {n.near} - {n.far} == map[];
  }

  /** One account settles: its series of the group go, it pays what it has. */
  lemma {:induction false} SettleAt(n: Names, bal: seq<Row>, cash: seq<int>, x: Group, aid: Aid, net: int, row: Row)
    requires Apart(n) && |bal| == |cash| == 3 && 1 <= aid <= 3 && x.price == Some(FINAL)
    requires forall i :: 0 <= i < 3 ==> bal[i].Keys <= SeriesMap(n).Keys
    requires net == Claim(bal[aid - 1], Units(ConfigOf(n), n.g, FINAL))
    requires Get(bal[aid - 1], n.far) != 0 || Get(bal[aid - 1], n.near) != 0
    requires row == bal[aid - 1] - {n.near, n.far}
    ensures var paid := DebtPaid(net, cash[aid - 1], Scale(DEC));
      Leads(ConfigOf(n), Late(n, bal, cash, x, LEFT), [SettleAccount(aid, n.g)],
        Late(n, bal[aid - 1 := row], cash[aid - 1 := cash[aid - 1] - paid],
          Settled(x, aid, net, paid, Scale(DEC)), LEFT))
  {
    hide ConfigOf, Loud, Leads, Shaped, WellFormed, SeriesMap, ByAccount, ByWallet, SeriesOf, Units, Settled, DebtPaid;
    hide Claim;
    hide Scale, IndexOf;
    var c, s := ConfigOf(n), Late(n, bal, cash, x, LEFT);
    var paid := DebtPaid(net, cash[aid - 1], Scale(DEC));
    OwnedIsRows(n, bal, cash, x, LEFT);
    InGroup(n);
    AccountEntry(bal, aid, row);
    AccountEntry(cash, aid, cash[aid - 1] - paid);
    assert HoldsIn(c, s.bal[aid], n.g) by {
      assert n.near in SeriesOf(c, n.g) && n.far in SeriesOf(c, n.g);
    }
    OneStep(c, s, SettleAccount(aid, n.g), Late(n, bal[aid - 1 := row], cash[aid - 1 := cash[aid - 1] - paid],
      Settled(x, aid, net, paid, Scale(DEC)), LEFT));
  }

  function AfterWriter(n: Names): Group {
    Settled(Finalized(n), 2, -DEBT, 0, Scale(DEC))
  }

  function AfterLiquidator(n: Names): Group {
    Settled(AfterWriter(n), 3, DEBT - GAIN, -ASKED, Scale(DEC))
  }

  function AfterAll(n: Names): Group {
    Settled(AfterLiquidator(n), 1, GAIN, 0, Scale(DEC))
  }

  function Everybody(n: Names): seq<Action> {
    [SettleAccount(2, n.g)] + [SettleAccount(3, n.g)] + [SettleAccount(1, n.g)]
  }

  function AllSettled(n: Names): State {
    Late(n, [NONE, map[n.other := -HEDGE], HedgeRow(n)], [0, 0, 0], AfterAll(n), LEFT)
  }

  lemma {:induction false} Payments()
    ensures DebtPaid(-DEBT, 0, Scale(DEC)) == 0 && DebtPaid(DEBT - GAIN, -ASKED, Scale(DEC)) == -ASKED
    ensures DebtPaid(GAIN, 0, Scale(DEC)) == 0
  {
    hide Scale;
    CeilAtMost(DEBT, Scale(DEC), -1);
    CeilAtMost(GAIN - DEBT, Scale(DEC), -1);
  }

  lemma {:induction false} EverybodySettles(n: Names)
    requires Apart(n)
    ensures Leads(ConfigOf(n), Late(n, Owned(n), [0, 0, -ASKED], Finalized(n), LEFT), Everybody(n), AllSettled(n))
  {
    hide ConfigOf, Loud, Leads, SeriesMap, ByAccount, ByWallet, SeriesOf, Units, Settled, DebtPaid, Claim, Scale, Late;
    var c := ConfigOf(n);
    NamesKnown(n);
    Nets(n);
    Payments();
    var b0, b1 := Owned(n), [map[n.far := FAR], map[n.other := -HEDGE], Hedged(n)];
    var b2 := [map[n.far := FAR], map[n.other := -HEDGE], HedgeRow(n)];
    assert Shorts(n) - {n.near, n.far} == map[n.other := -HEDGE] && Hedged(n) - {n.near, n.far} == HedgeRow(n);
    assert map[n.far := FAR] - {n.near, n.far} == NONE;
    SettledPool(Finalized(n), 2, -DEBT, 0);
    SettledPool(AfterWriter(n), 3, DEBT - GAIN, -ASKED);
    var s0 := Late(n, b0, [0, 0, -ASKED], Finalized(n), LEFT);
    var s1 := Late(n, b1, [0, 0, -ASKED], AfterWriter(n), LEFT);
    var s2 := Late(n, b2, [0, 0, 0], AfterLiquidator(n), LEFT);
    SettleAt(n, b0, [0, 0, -ASKED], Finalized(n), 2, -DEBT, map[n.other := -HEDGE]);
    assert b0[1 := map[n.other := -HEDGE]] == b1 && [0, 0, -ASKED][1 := 0] == [0, 0, -ASKED];
    SettleAt(n, b1, [0, 0, -ASKED], AfterWriter(n), 3, DEBT - GAIN, HedgeRow(n));
    assert b1[2 := HedgeRow(n)] == b2 && [0, 0, -ASKED][2 := 0] == [0, 0, 0];
    SettleAt(n, b2, [0, 0, 0], AfterLiquidator(n), 1, GAIN, NONE);
    assert b2[0 := NONE] == [NONE, map[n.other := -HEDGE], HedgeRow(n)] && [0, 0, 0][0 := 0] == [0, 0, 0];
    Onward(c, s0, [SettleAccount(2, n.g)], s1, [SettleAccount(3, n.g)], s2);
    Onward(c, s0, [SettleAccount(2, n.g)] + [SettleAccount(3, n.g)], s2, [SettleAccount(1, n.g)], AllSettled(n));
  }

  // The ratio, and a claim

  const DEFICIT: int := LEFT - ASKED

  /** The group with a negative ratio: what insurance has left does not make up for what the liquidator "paid". */
  function Fixed(n: Names): Group {
    AfterAll(n).(insurance := LEFT, pool := DEFICIT, available := DEFICIT,
                 ratio := Some(RatioOf(DEFICIT, GAIN, Scale(DEC))))
  }

  lemma {:induction false} RecordOfAll(n: Names)
    ensures var x := AfterAll(n);
      && x.collected == x.pool == -ASKED && x.credits == map[1 := GAIN] && x.snapshot == map[n.near := 0, n.far := 0]
      && x.price == Some(FINAL) && x.ratio.None? && x.claimed == {}
  {
    hide Scale;
    assert DEBT < GAIN;
  }

  lemma {:induction false} GrossOfAll(n: Names)
    requires Apart(n)
    ensures AfterAll(n).price == Some(FINAL) && GrossClaim(ConfigOf(n), AfterAll(n), n.g) == GAIN
  {
    hide ConfigOf, Units, AfterAll, Claim;
    RecordOfAll(n);
    TwoClaims(n, AfterAll(n).snapshot);
    SumPut(map[], 1, GAIN);
    assert AfterAll(n).credits == map[][1 := GAIN];
  }

  lemma {:induction false} AllInsurance()
    ensures InsuranceDraw(GAIN, -ASKED, LEFT, Scale(DEC)) == LEFT && DEFICIT < 0 < GAIN
  {
    hide Scale;
    CeilAtMost(GAIN, Scale(DEC), -1);
  }

  function RatioFixed(n: Names): State {
    Late(n, [NONE, map[n.other := -HEDGE], HedgeRow(n)], [0, 0, 0], Fixed(n), 0)
  }

  lemma {:induction false} NobodyHolds(n: Names)
    requires Apart(n)
    ensures Holders(ConfigOf(n), AllSettled(n).bal, n.g) == {}
  {
    hide ConfigOf, SeriesOf, Units, AfterAll;
    InGroup(n);
  }

  lemma {:induction false} RatioIsFixed(n: Names)
    requires Apart(n) && Core(ConfigOf(n), AllSettled(n))
    ensures Leads(ConfigOf(n), AllSettled(n), [FixRatio(n.g)], RatioFixed(n))
  {
    hide ConfigOf, Loud, Leads, Shaped, WellFormed, SeriesMap, ByWallet, SeriesOf, Units, Claim, Scale, AfterAll;
    hide ByAccount, Holders, GrossClaim, RatioOf, InsuranceDraw, IndexOf, Core, RatioChecked, Harmless, InOrder, Money;
    var c, s := ConfigOf(n), AllSettled(n);
    NamesKnown(n);
    OwnedIsRows(n, [NONE, map[n.other := -HEDGE], HedgeRow(n)], [0, 0, 0], AfterAll(n), LEFT);
    InGroup(n);
    RecordOfAll(n);
    GrossOfAll(n);
    AllInsurance();
    NobodyHolds(n);
    ComputeRatioSafe(c, s, n.g);
    OneStep(c, s, FixRatio(n.g), RatioFixed(n));
  }

  /** A claim on a negative pool takes at least the whole deficit from the claimant. */
  lemma {:induction false} NegativePayout(pool: int, gross: int, d: int)
    requires pool < 0 < gross && 0 < d
    ensures Payout(gross, RatioOf(pool, gross, d), d) <= pool
  {
    var ratio, total, scale := RatioOf(pool, gross, d), pool * d * WAD, d * WAD;
    RatioIsNegative(pool, gross, d);
    AtMostFloor(WAD, total, gross);
    FloorBounds(total, gross);
    assert ratio * gross <= total == pool * scale;
    AtMostFloor(pool + 1, gross * ratio, scale);
    MulLess(pool, pool + 1, scale);
  }

  function Aftermath(n: Names): seq<Action> {
    Leave(n) + [FinalizeGroup(n.g, FINAL)] + Everybody(n) + [FixRatio(n.g)] + [ClaimSettlement(1, n.g)]
  }

  function Robbed(n: Names): State {
    var amt := Payout(GAIN, RatioOf(DEFICIT, GAIN, Scale(DEC)), Scale(DEC));
    Late(n, [NONE, map[n.other := -HEDGE], HedgeRow(n)], [amt, 0, 0],
      Fixed(n).(pool := DEFICIT - amt, claimed := {1}), 0)
  }

  lemma {:induction false} ClaimGoesThrough(n: Names)
    requires Apart(n)
    ensures Shaped(ConfigOf(n), RatioFixed(n)) && 1 in ConfigOf(n).owner && n.g in ConfigOf(n).groups
    ensures ClaimCredit(ConfigOf(n), RatioFixed(n), 1, n.g) == Done(Robbed(n)) && Robbed(n).cash[1] <= DEFICIT < 0
  {
    hide ConfigOf, Loud, Shaped, WellFormed, SeriesMap, ByAccount, ByWallet, Scale, AfterAll, Payout, RatioOf;
    var s := RatioFixed(n);
    NamesKnown(n);
    OwnedIsRows(n, [NONE, map[n.other := -HEDGE], HedgeRow(n)], [0, 0, 0], Fixed(n), 0);
    InGroup(n);
    RecordOfAll(n);
    AllInsurance();
    var amt := Payout(GAIN, RatioOf(DEFICIT, GAIN, Scale(DEC)), Scale(DEC));
    NegativePayout(DEFICIT, GAIN, Scale(DEC));
    AccountEntry([0, 0, 0], 1, amt);
    AccountEntry([amt, 0, 0], 1, amt);
    assert [0, 0, 0][0 := amt] == [amt, 0, 0];
    assert s.groups[n.g] == Fixed(n) && {} + {1} == {1};
    assert s.groups[n.g := Robbed(n).groups[n.g]] == Robbed(n).groups;
  }

  lemma {:induction false} ClaimIsPaid(n: Names)
    requires Apart(n)
    ensures Leads(ConfigOf(n), RatioFixed(n), [ClaimSettlement(1, n.g)], Robbed(n)) && Robbed(n).cash[1] < 0
  {
    hide ConfigOf, Leads, Shaped, WellFormed, RatioFixed, Robbed, ClaimCredit;
    ClaimGoesThrough(n);
    ShapedIsWellFormed(ConfigOf(n), RatioFixed(n));
    OneStep(ConfigOf(n), RatioFixed(n), ClaimSettlement(1, n.g), Robbed(n));
  }

  lemma {:induction false} InvIsCore(c: Config, s: State)
    requires Inv(c, s)
    ensures Core(c, s)
  {
  }

  lemma {:induction false} LeadsCore(c: Config, s: State, actions: seq<Action>, t: State)
    requires Core(c, s) && Leads(c, s, actions, t)
    ensures Core(c, t)
  {
    hide Core, CanRun, End;
    RunSurvives(c, s, actions);
  }

  lemma {:induction false} AftermathLeads(n: Names)
    requires Apart(n) && Core(ConfigOf(n), Broke(n))
    ensures Leads(ConfigOf(n), Broke(n), Aftermath(n), Robbed(n))
  {
    hide Leads, Core, Broke, Leave, Expired, Late, Everybody, AllSettled, RatioFixed, Robbed, ConfigOf, Finalized;
    var c := ConfigOf(n);
    EverybodyLeaves(n);
    LeadsCore(c, Broke(n), Leave(n), Expired(n));
    GroupIsFinalized(n);
    var s1, run := Late(n, Owned(n), [0, 0, -ASKED], Finalized(n), LEFT), Leave(n) + [FinalizeGroup(n.g, FINAL)];
    Onward(c, Broke(n), Leave(n), Expired(n), [FinalizeGroup(n.g, FINAL)], s1);
    EverybodySettles(n);
    Onward(c, Broke(n), run, s1, Everybody(n), AllSettled(n));
    LeadsCore(c, Broke(n), run + Everybody(n), AllSettled(n));
    RatioIsFixed(n);
    ClaimIsPaid(n);
    Onward(c, Broke(n), run + Everybody(n), AllSettled(n), [FixRatio(n.g)], RatioFixed(n));
    Onward(c, Broke(n), run + Everybody(n) + [FixRatio(n.g)], RatioFixed(n), [ClaimSettlement(1, n.g)], Robbed(n));
  }

  /** Account 3, the liquidator, settles while overdrawn; the claim on the negative pool overdraws account 1. */
  lemma {:induction false} ClaimOverdraws(n: Names)
    requires Apart(n)
    ensures Leads(ConfigOf(n), Start(n), Sale(n) + [TheSlice(n)] + Aftermath(n), Robbed(n)) && Robbed(n).cash[1] < 0
  {
    hide Leads, Start, Sale, Broke, Robbed, ConfigOf, Aftermath, TheSlice, Inv, Core;
    SliceOverdraws(n);
    InvIsCore(ConfigOf(n), Start(n));
    LeadsCore(ConfigOf(n), Start(n), Sale(n) + [TheSlice(n)], Broke(n));
    AftermathLeads(n);
    ClaimIsPaid(n);
    Onward(ConfigOf(n), Start(n), Sale(n) + [TheSlice(n)], Broke(n), Aftermath(n), Robbed(n));
  }

  // ---------------------------------------------------------------------------------------------------------
  // The runs, by the names of the source
  // ---------------------------------------------------------------------------------------------------------

  /** The three series of reference/verify_invariants.py, their groups and underlyings, and two of its owners. */
  function Reference(): Names {
    Names("C4500", "C5000", "C70K", "G1", "G3", "W1", "LIQ", "ETH", "BTC")
  }

  lemma {:induction false} ReferenceApart()
    ensures Apart(Reference())
  {
    assert "C4500"[1] != "C5000"[1] && "G1"[1] != "G3"[1] && "ETH"[0] != "BTC"[0];
  }

  /**
   * INV-8 fails in a run that the source allows: from an empty protocol, with every fee paid and every check passed,
   * to a slice that leaves the liquidator with negative cash.
   */
  lemma {:induction false} LiquidatorGoesNegative()
    ensures var n := Reference();
      && Inv(ConfigOf(n), Start(n)) && Margin.NonNegative(ConfigOf(n).black76)
      && Leads(ConfigOf(n), Start(n), Sale(n) + [TheSlice(n)], Broke(n)) && Broke(n).cash[3] == -ASKED < 0
  {
    hide Reference, ConfigOf, Start, Sale, Broke, Leads, Inv;
    ReferenceApart();
    SliceOverdraws(Reference());
  }

  /** INV-23 does fire: if the liquidator wraps its hedge first, the same slice ends the run. */
  lemma {:induction false} MarginCheckFires()
    ensures var n := Reference();
      && Leads(ConfigOf(n), Start(n), Sale(n) + [WrapLong(3, n.other, HEDGE, n.liquidator)], Unhedged(n))
      && Shaped(ConfigOf(n), Unhedged(n)) && Legal(ConfigOf(n), Unhedged(n), TheSlice(n))
      && Step(ConfigOf(n), Unhedged(n), TheSlice(n)) == Raised
  {
    hide Reference, ConfigOf, Start, Sale, Unhedged, Leads, Shaped, Legal, Step, TheSlice;
    ReferenceApart();
    SliceRaises(Reference());
  }

  /**
   * A shortfall of the liquidator, account 3, can reach everybody. In the same run the liquidator settles while
   * overdrawn, the ratio is fixed on a pool that is a debt beyond what insurance has, and its claim leaves account 1
   * with negative cash.
   */
  lemma {:induction false} OthersCanGoNegative()
    ensures var n := Reference();
      && ConfigOf(n).liqAid == 3 && ConfigOf(n).owner.Keys == {1, 2, 3}
      && Leads(ConfigOf(n), Start(n), Sale(n) + [TheSlice(n)] + Aftermath(n), Robbed(n)) && Robbed(n).cash[1] < 0
  {
    hide Reference, ConfigOf, Start, Sale, Aftermath, Robbed, Leads;
    ReferenceApart();
    LiquidatorIs(Reference());
    ClaimOverdraws(Reference());
  }

  lemma {:induction false} LiquidatorIs(n: Names)
    ensures ConfigOf(n).liqAid == 3 && ConfigOf(n).owner.Keys == {1, 2, 3}
  {
    hide Defaults, SeriesMap;
  }
}
