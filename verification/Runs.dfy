/**
 * Whole runs of the clearing protocol: any sequence of actions, price moves and time, from genesis to the last payout.
 */
module Runs {
  import opened Basics
  import opened Sums
  import opened Tables
  import opened Clearing
  import opened Invariant
  import opened Trading
  import opened Slices
  import opened Health
  import opened Settlement

  datatype Action =
    | DepositCash(aid: Aid, amt: int)
    | WithdrawCash(aid: Aid, amt: int)
    | MintLong(aid: Aid, sid: Sid, q: int, to: Owner)
    | UnwrapLong(o: Owner, aid: Aid, sid: Sid, q: int)
    | WrapLong(aid: Aid, sid: Sid, q: int, to: Owner)
    | CloseShort(o: Owner, aid: Aid, sid: Sid, q: int)
    | CloseAcross(frm: Aid, aid: Aid, sid: Sid, q: int)
    | Transfer(o: Owner, to: Owner, sid: Sid, q: int)
    | Slice(aid: Aid, u: Underlying, sliceBps: nat, bonusBps: nat)
    | FinalizeGroup(g: Gid, price: int)
    | SettleAccount(aid: Aid, g: Gid)
    | FixRatio(g: Gid)
    | RedeemWrapper(o: Owner, sid: Sid, q: int)
    | ClaimSettlement(aid: Aid, g: Gid)
    | MarketMove(now: int, prices: Prices)

  /** What the source takes for granted of a call: known names, and time that does not go back. */
  predicate Legal(c: Config, s: State, a: Action) {
    && WellFormed(c)
    && match a
       case DepositCash(aid, _) => aid in c.owner
       case WithdrawCash(aid, _) => aid in c.owner
       case MintLong(aid, sid, _, to) => Known(c, aid, sid) && to in c.wallets
       case UnwrapLong(o, aid, sid, _) => Known(c, aid, sid) && o in c.wallets
       case WrapLong(aid, sid, _, to) => Known(c, aid, sid) && to in c.wallets
       case CloseShort(o, aid, sid, _) => Known(c, aid, sid) && o in c.wallets
       case CloseAcross(frm, aid, sid, _) => Known(c, frm, sid) && aid in c.owner
       case Transfer(o, to, sid, _) => o in c.wallets && to in c.wallets && sid in c.series
       case Slice(aid, _, _, _) => aid in c.owner
       case FinalizeGroup(g, _) => g in c.groups
       case SettleAccount(aid, g) => aid in c.owner && g in c.groups
       case FixRatio(g) => g in c.groups
       case RedeemWrapper(o, sid, _) => o in c.wallets && sid in c.series
       case ClaimSettlement(aid, g) => aid in c.owner && g in c.groups
       case MarketMove(now, _) => s.now <= now
  }

  ghost function Step(c: Config, s: State, a: Action): Outcome
    requires Shaped(c, s) && Legal(c, s, a)
  {
    match a
    case DepositCash(aid, amt) => Deposit(c, s, aid, amt)
    case WithdrawCash(aid, amt) => Withdraw(c, s, aid, amt)
    case MintLong(aid, sid, q, to) => Mint(c, s, aid, sid, q, to)
    case UnwrapLong(o, aid, sid, q) => Unwrap(c, s, o, aid, sid, q)
    case WrapLong(aid, sid, q, to) => Wrap(c, s, aid, sid, q, to)
    case CloseShort(o, aid, sid, q) => CloseWithWrapper(c, s, o, aid, sid, q)
    case CloseAcross(frm, aid, sid, q) => CloseInternal(c, s, frm, aid, sid, q)
    case Transfer(o, to, sid, q) => TransferWrapper(c, s, o, to, sid, q)
    case Slice(aid, u, sliceBps, bonusBps) => Liquidate(c, s, aid, u, sliceBps, bonusBps)
    case FinalizeGroup(g, price) => Finalize(c, s, g, price)
    case SettleAccount(aid, g) => Settle(c, s, aid, g)
    case FixRatio(g) => ComputeRatio(c, s, g)
    case RedeemWrapper(o, sid, q) => Redeem(c, s, o, sid, q)
    case ClaimSettlement(aid, g) => ClaimCredit(c, s, aid, g)
    case MarketMove(now, prices) => Done(s.(now := now, prices := prices))
  }

  /** The state an action leaves: a reverted action changes nothing. */
  ghost function After(c: Config, s: State, a: Action): State
    requires Shaped(c, s) && Legal(c, s, a)
  {
    var r := Step(c, s, a);
    if r.Done? then r.next else s
  }

  /** A slice that goes through is one the liquidator can pay; nothing is asked of the other actions. */
  ghost predicate Payable(c: Config, s: State, a: Action)
    requires Shaped(c, s) && Legal(c, s, a)
  {
    a.Slice? && Step(c, s, a).Done? ==> LiquidatorCanPay(c, s, a.aid, Move(c, s, a.aid, a.u, a.sliceBps), a.bonusBps)
  }

  /** A ratio is fixed on a pool that is no debt beyond what insurance has; nothing is asked of the other actions. */
  ghost predicate Backed(c: Config, s: State, a: Action)
    requires Shaped(c, s) && Legal(c, s, a)
  {
    a.FixRatio? && Step(c, s, a).Done? ==> 0 <= s.groups[a.g].collected + s.insurance
  }

  // ---------------------------------------------------------------------------------------------------------
  // One action
  // ---------------------------------------------------------------------------------------------------------

  /** Every action keeps every native unit of money, whatever state it meets. */
  lemma {:induction false} StepConserves(c: Config, s: State, a: Action)
    requires Shaped(c, s) && Legal(c, s, a)
    ensures Shaped(c, After(c, s, a)) && Money(After(c, s, a)) == Money(s)
  {
    hide Step, After, Shaped, Money;
    match a
    case DepositCash(aid, amt) => CashMoves(c, s, a, aid, amt);
    case WithdrawCash(aid, amt) => CashMoves(c, s, a, aid, -amt);
    case MintLong(aid, sid, q, to) => MintConserves(c, s, aid, sid, q, to);
    case Slice(aid, u, sliceBps, bonusBps) => SliceConserves(c, s, aid, u, sliceBps, bonusBps);
    case FinalizeGroup(g, price) => GroupConserves(c, s, a, g);
    case SettleAccount(aid, g) => SettleConserves(c, s, aid, g);
    case FixRatio(g) => GroupConserves(c, s, a, g);
    case RedeemWrapper(o, sid, q) => RedeemConserves(c, s, o, sid, q);
    case ClaimSettlement(aid, g) => ClaimConserves(c, s, aid, g);
    case _ => OnlyPositionsMove(c, s, a);
  }

  lemma {:induction false} CashMoves(c: Config, s: State, a: Action, aid: Aid, x: int)
    requires Shaped(c, s) && Legal(c, s, a)
    requires a == DepositCash(aid, x) || a == WithdrawCash(aid, -x)
    ensures Shaped(c, After(c, s, a)) && Money(After(c, s, a)) == Money(s)
  {
    hide RiskAt, FreshFor, Money, Tolerated, Healthy;
    if Step(c, s, a).Done? {
      CashMoveMoney(s, After(c, s, a), aid, c.owner[aid], x);
    }
  }

  lemma {:induction false} MintConserves(c: Config, s: State, aid: Aid, sid: Sid, q: int, to: Owner)
    requires Shaped(c, s) && Legal(c, s, MintLong(aid, sid, q, to))
    ensures var s' := After(c, s, MintLong(aid, sid, q, to)); Shaped(c, s') && Money(s') == Money(s)
  {
    hide RiskAt, FreshFor, MintFee, Give, SetBalance, FeeToInsurance, FeeToKeeper;
    SumPut(s.cash, aid, s.cash[aid] - MintFee(c, s, sid, q));
    RowsStayShaped(c, s, to, aid, sid, q);
  }

  lemma {:induction false} SliceConserves(c: Config, s: State, aid: Aid, u: Underlying, sliceBps: nat, bonusBps: nat)
    requires Shaped(c, s) && Legal(c, s, Slice(aid, u, sliceBps, bonusBps))
    ensures var s' := After(c, s, Slice(aid, u, sliceBps, bonusBps)); Shaped(c, s') && Money(s') == Money(s)
  {
    hide Liquidate, Move, SliceCashFlow, Money, SliceMm;
    var r := Liquidate(c, s, aid, u, sliceBps, bonusBps);
    if r.Done? {
      LiquidateIsSlice(c, s, aid, u, sliceBps, bonusBps);
      var move := Move(c, s, aid, u, sliceBps);
      SliceMoney(c, s, r.next, aid, move, SliceCashFlow(c, s, aid, move, bonusBps));
    }
  }

  /** Finalizing moves nothing; fixing the ratio moves money from insurance to the group's pool. */
  lemma {:induction false} GroupConserves(c: Config, s: State, a: Action, g: Gid)
    requires Shaped(c, s) && Legal(c, s, a) && ((a.FinalizeGroup? && a.g == g) || a == FixRatio(g))
    ensures Shaped(c, After(c, s, a)) && Money(After(c, s, a)) == Money(s)
  {
    hide RatioOf, GrossClaim, InsuranceDraw;
    PoolsPut(s.groups, g, After(c, s, a).groups[g]);
    assert s.groups[g := s.groups[g]] == s.groups;
  }

  lemma {:induction false} SettleConserves(c: Config, s: State, aid: Aid, g: Gid)
    requires Shaped(c, s) && Legal(c, s, SettleAccount(aid, g))
    ensures var s' := After(c, s, SettleAccount(aid, g)); Shaped(c, s') && Money(s') == Money(s)
  {
    hide Outside, Settled, Units, Money, DebtPaid;
    var r, x := Settle(c, s, aid, g), s.groups[g];
    if r.Done? {
      var n := Claim(s.bal[aid], Units(c, g, x.price.value));
      var paid := DebtPaid(n, s.cash[aid], Scale(DEC));
      DebtWithinMeans(n, s.cash[aid], Scale(DEC));
      SettledPool(x, aid, n, paid);
      OutsideKeys(c, s.bal[aid], g);
      SettleMoney(s, r.next, aid, g, paid);
    }
  }

  lemma {:induction false} RedeemConserves(c: Config, s: State, o: Owner, sid: Sid, q: int)
    requires Shaped(c, s) && Legal(c, s, RedeemWrapper(o, sid, q))
    ensures var s' := After(c, s, RedeemWrapper(o, sid, q)); Shaped(c, s') && Money(s') == Money(s)
  {
    hide Payout, UnitOf, Money;
    var x := s.groups[c.series[sid].group];
    if Redeem(c, s, o, sid, q).Done? {
      RedeemedMoney(c, s, o, sid, q, Payout(q * UnitOf(c, sid, x.price.value), x.ratio.value, Scale(DEC)));
    }
  }

  lemma {:induction false} ClaimConserves(c: Config, s: State, aid: Aid, g: Gid)
    requires Shaped(c, s) && Legal(c, s, ClaimSettlement(aid, g))
    ensures var s' := After(c, s, ClaimSettlement(aid, g)); Shaped(c, s') && Money(s') == Money(s)
  {
    hide Payout, Money;
    var r, x := ClaimCredit(c, s, aid, g), s.groups[g];
    if r.Done? {
      CreditMoney(s, r.next, aid, g, Payout(x.credits[aid], x.ratio.value, Scale(DEC)));
    }
  }

  lemma {:induction false} OnlyPositionsMove(c: Config, s: State, a: Action)
    requires Shaped(c, s) && Legal(c, s, a)
    requires a.UnwrapLong? || a.WrapLong? || a.CloseShort? || a.CloseAcross? || a.Transfer? || a.MarketMove?
    ensures Shaped(c, After(c, s, a)) && Money(After(c, s, a)) == Money(s)
  {
    hide RiskAt, FreshFor, Give, SetBalance, Money, Shaped, Put;
    assert Shaped(c, s);
    MoneyStays(s, After(c, s, a));
    match a
    case UnwrapLong(o, aid, sid, q) => RowsStayShaped(c, s, o, aid, sid, -q);
    case WrapLong(aid, sid, q, to) => RowsStayShaped(c, s, to, aid, sid, q);
    case CloseShort(o, aid, sid, q) => RowsStayShaped(c, s, o, aid, sid, -q);
    case CloseAcross(frm, aid, sid, q) => AcrossStaysShaped(c, s, frm, aid, sid, q);
    case Transfer(o, to, sid, q) => TransferStaysShaped(c, s, o, to, sid, q);
    case MarketMove(now, prices) => MarketStaysShaped(c, s, now, prices);
  }

  lemma {:induction false} AcrossStaysShaped(c: Config, s: State, frm: Aid, to: Aid, sid: Sid, q: int)
    requires Shaped(c, s) && frm in c.owner && to in c.owner && sid in c.series
    ensures var mid := SetBalance(s.bal, frm, sid, Get(s.bal[frm], sid) - q);
      Shaped(c, s.(bal := SetBalance(mid, to, sid, Get(s.bal[to], sid) + q)))
  {
    hide SetBalance;
    var mid := SetBalance(s.bal, frm, sid, Get(s.bal[frm], sid) - q);
    BalancesStayShaped(c, s, frm, sid, Get(s.bal[frm], sid) - q);
    BalancesStayShaped(c, s.(bal := mid), to, sid, Get(s.bal[to], sid) + q);
  }

  lemma {:induction false} TransferStaysShaped(c: Config, s: State, frm: Owner, to: Owner, sid: Sid, q: int)
    requires Shaped(c, s) && frm in c.wallets && to in c.wallets && sid in c.series
    ensures Shaped(c, s.(wr := Give(Give(s.wr, frm, sid, -q), to, sid, q)))
  {
    hide Give;
    WrappersStayShaped(c, s, frm, sid, -q);
    WrappersStayShaped(c, s.(wr := Give(s.wr, frm, sid, -q)), to, sid, q);
  }

  lemma {:induction false} MarketStaysShaped(c: Config, s: State, now: int, prices: Prices)
    requires Shaped(c, s)
    ensures Shaped(c, s.(now := now, prices := prices))
  {
  }

  lemma {:induction false} MoneyStays(s: State, s': State)
    requires s' == s.(bal := s'.bal, wr := s'.wr, now := s'.now, prices := s'.prices)
    ensures Money(s') == Money(s)
  {
  }

  /** What a step leaves of the invariant, and the exact price of each stronger part. */
  ghost predicate StepKeeps(c: Config, s: State, a: Action)
    requires Shaped(c, s) && Legal(c, s, a)
  {
    var s' := After(c, s, a);
    && Core(c, s')
    && (forall g :: g in s.groups && InOrder(c, s, g) && s.groups[g].ratio.Some? ==> InOrder(c, s', g))
    && (Spared(c, s) ==> (Spared(c, s') <==> Backed(c, s, a)))
    && (Inv(c, s) ==> (Inv(c, s') <==> Payable(c, s, a)))
  }

  /**
   * Every action keeps the core of the invariant. Everybody else stays unharmed by an overdrawn liquidator exactly when
   * no ratio is fixed on a debt, and nobody at all is overdrawn exactly when the liquidator can pay the slice.
   */
  lemma {:induction false} StepSafe(c: Config, s: State, a: Action)
    requires Core(c, s) && Legal(c, s, a)
    ensures StepKeeps(c, s, a)
  {
    hide StepKeeps, Kept, Step, Legal, Core, Spared, Inv, InOrder, GroupsOk, OthersOk, CashOk, Money, Harmless;
    match a
    case Slice(aid, u, sliceBps, bonusBps) => SliceStep(c, s, aid, u, sliceBps, bonusBps);
    case FixRatio(g) => RatioStep(c, s, g);
    case _ =>
      OtherStep(c, s, a);
      KeptStep(c, s, a);
  }

  lemma {:induction false} KeptStep(c: Config, s: State, a: Action)
    requires Core(c, s) && Legal(c, s, a) && !a.Slice? && !a.FixRatio?
    requires Step(c, s, a).Done? ==> Kept(c, s, Step(c, s, a).next)
    ensures StepKeeps(c, s, a)
  {
    hide Step, Legal, InOrder, Balanced, GroupsCore, WholeLots, NoNegativeWrapper, OthersOk, CashOk, Money;
  }

  lemma {:induction false} SliceStep(c: Config, s: State, aid: Aid, u: Underlying, sliceBps: nat, bonusBps: nat)
    requires Core(c, s) && Legal(c, s, Slice(aid, u, sliceBps, bonusBps))
    ensures StepKeeps(c, s, Slice(aid, u, sliceBps, bonusBps))
  {
    hide Liquidate, Move, InOrder, LiquidatorCanPay, CashOk, Balanced, GroupsCore, WholeLots, NoNegativeWrapper;
    LiquidateSafe(c, s, aid, u, sliceBps, bonusBps);
  }

  lemma {:induction false} RatioStep(c: Config, s: State, g: Gid)
    requires Core(c, s) && Legal(c, s, FixRatio(g))
    ensures StepKeeps(c, s, FixRatio(g))
  {
    hide ComputeRatio, InOrder, CashOk, Balanced, GroupsCore, WholeLots, NoNegativeWrapper;
    ComputeRatioSafe(c, s, g);
    FixesOpenGroup(c, s, g);
  }

  lemma {:induction false} OtherStep(c: Config, s: State, a: Action)
    requires Core(c, s) && Legal(c, s, a) && !a.Slice? && !a.FixRatio?
    ensures Step(c, s, a).Done? ==> Kept(c, s, Step(c, s, a).next)
  {
    hide Deposit, Withdraw, Mint, Unwrap, Wrap, CloseWithWrapper, CloseInternal, TransferWrapper, Finalize, Settle;
    hide Redeem, ClaimCredit, Money, Kept, InOrder, OthersOk, Balanced, GroupsCore, WholeLots, NoNegativeWrapper;
    match a
    case DepositCash(aid, amt) => DepositSafe(c, s, aid, amt);
    case WithdrawCash(aid, amt) => WithdrawSafe(c, s, aid, amt);
    case MintLong(aid, sid, q, to) => MintSafe(c, s, aid, sid, q, to);
    case UnwrapLong(o, aid, sid, q) => UnwrapSafe(c, s, o, aid, sid, q);
    case WrapLong(aid, sid, q, to) => WrapSafe(c, s, aid, sid, q, to);
    case CloseShort(o, aid, sid, q) => CloseWithWrapperSafe(c, s, o, aid, sid, q);
    case CloseAcross(frm, aid, sid, q) => CloseInternalSafe(c, s, frm, aid, sid, q);
    case Transfer(o, to, sid, q) => TransferWrapperSafe(c, s, o, to, sid, q);
    case FinalizeGroup(g, price) => FinalizeSafe(c, s, g, price);
    case SettleAccount(aid, g) => SettleSafe(c, s, aid, g);
    case RedeemWrapper(o, sid, q) => RedeemSafe(c, s, o, sid, q);
    case ClaimSettlement(aid, g) => ClaimSafe(c, s, aid, g);
    case MarketMove(now, prices) => MarketMoveSafe(c, s, now, prices);
  }

  /**
   * The calls that one of the source's checks may stop: quantities that are no multiple of the lot (INV-6) or negative
   * (INV-13), closes of nothing where there is no entry to change, slices that the liquidator's own margin does not
   * bear (INV-23) or of more than the whole position (INV-24), and payouts of a group whose pool does not cover its
   * claims (INV-31).
   */
  ghost predicate Stoppable(c: Config, s: State, a: Action)
    requires Shaped(c, s) && Legal(c, s, a)
  {
    match a
    case MintLong(_, _, q, _) => !IsLots(c.lot, q)
    case UnwrapLong(_, _, _, q) => q < 0 || !IsLots(c.lot, q)
    case WrapLong(_, _, q, _) => !IsLots(c.lot, q)
    case CloseShort(_, _, _, q) => q <= 0 || !IsLots(c.lot, q)
    case CloseAcross(_, _, _, q) => q <= 0 || !IsLots(c.lot, q)
    case Slice(aid, u, sliceBps, bonusBps) =>
      BPS < sliceBps || !Healthy(TakerRisk(c, s, aid, Move(c, s, aid, u, sliceBps), bonusBps))
    case RedeemWrapper(_, sid, _) => !InOrder(c, s, c.series[sid].group)
    case ClaimSettlement(_, g) => !InOrder(c, s, g)
    case _ => false
  }

  /** No other check of the source can fail, whatever was done before and whoever is overdrawn. */
  lemma {:induction false} StepChecks(c: Config, s: State, a: Action)
    requires Core(c, s) && Priced(c) && Legal(c, s, a)
    ensures Step(c, s, a).Raised? ==> Stoppable(c, s, a)
  {
    hide Deposit, Withdraw, Mint, Unwrap, Wrap, CloseWithWrapper, CloseInternal, TransferWrapper, Liquidate;
    hide Finalize, Settle, ComputeRatio, Redeem, ClaimCredit, Balanced, GroupsCore, InOrder, IsLots, Healthy, TakerRisk;
    hide MarginKept, Money, Kept, Harmless;
    match a
    case DepositCash(aid, amt) => DepositNotWorse(c, s, aid, amt);
    case WithdrawCash(aid, amt) => NothingToCheck(c, s, a);
    case MintLong(aid, sid, q, to) =>
      MintLeavesHealthy(c, s, aid, sid, q, to);
      OddBalance(c, s, aid, sid, q);
    case UnwrapLong(o, aid, sid, q) =>
      UnwrapNotWorse(c, s, o, aid, sid, q);
      OddBalance(c, s, aid, sid, q);
    case WrapLong(aid, sid, q, to) =>
      WrapLeavesHealthy(c, s, aid, sid, q, to);
      OddBalance(c, s, aid, sid, q);
    case CloseShort(o, aid, sid, q) =>
      CloseWithWrapperNotWorse(c, s, o, aid, sid, q);
      OddBalance(c, s, aid, sid, q);
    case CloseAcross(frm, aid, sid, q) =>
      CloseInternalHealth(c, s, frm, aid, sid, q);
      OddBalance(c, s, frm, sid, q);
      OddBalance(c, s, aid, sid, q);
    case Transfer(_, _, _, _) => NothingToCheck(c, s, a);
    case Slice(aid, u, sliceBps, bonusBps) => SliceDecided(c, s, aid, u, sliceBps, bonusBps);
    case FinalizeGroup(g, price) => FinalizeSafe(c, s, g, price);
    case SettleAccount(aid, g) => NothingToCheck(c, s, a);
    case FixRatio(g) => ComputeRatioSafe(c, s, g);
    case RedeemWrapper(o, sid, q) => RedeemSafe(c, s, o, sid, q);
    case ClaimSettlement(aid, g) => ClaimSafe(c, s, aid, g);
    case MarketMove(now, prices) =>
  }

  lemma {:induction false} NothingToCheck(c: Config, s: State, a: Action)
    requires Shaped(c, s) && Legal(c, s, a) && (a.WithdrawCash? || a.Transfer? || a.SettleAccount?)
    ensures !Step(c, s, a).Raised?
  {
    hide RiskAt, FreshFor, Give, Units, Outside, Settled;
  }

  /** A balance of whole lots stays one exactly by whole lots. */
  lemma {:induction false} OddBalance(c: Config, s: State, aid: Aid, sid: Sid, q: int)
    requires Core(c, s) && aid in s.bal
    ensures IsLots(c.lot, q) ==> IsLots(c.lot, Get(s.bal[aid], sid) + q) && IsLots(c.lot, Get(s.bal[aid], sid) - q)
  {
    hide IsLots;
    BalanceIsLots(c.lot, s.bal, aid, sid);
    if IsLots(c.lot, q) {
      LotsNegate(c.lot, q);
      LotsAdd(c.lot, Get(s.bal[aid], sid), q);
      LotsAdd(c.lot, Get(s.bal[aid], sid), -q);
    }
  }

  lemma {:induction false} FixesOpenGroup(c: Config, s: State, g: Gid)
    requires Shaped(c, s) && g in c.groups
    ensures ComputeRatio(c, s, g).Done? ==> s.groups[g].ratio.None?
  {
  }

  // ---------------------------------------------------------------------------------------------------------
  // Runs
  // ---------------------------------------------------------------------------------------------------------

  /** A run the source allows from `s`: each action is legal where it happens. */
  ghost predicate CanRun(c: Config, s: State, actions: seq<Action>)
    decreases |actions|
  {
    && Shaped(c, s)
    && (actions != [] ==> Legal(c, s, actions[0]) && CanRun(c, After(c, s, actions[0]), actions[1..]))
  }

  /** Where it leads. */
  ghost function End(c: Config, s: State, actions: seq<Action>): State
    requires CanRun(c, s, actions)
    decreases |actions|
  {
    if actions == [] then s else End(c, After(c, s, actions[0]), actions[1..])
  }

  /** No money is created or lost over any run, whatever its actions do. */
  lemma {:induction false} RunConserves(c: Config, s: State, actions: seq<Action>)
    requires CanRun(c, s, actions)
    ensures Money(End(c, s, actions)) == Money(s)
    decreases |actions|
  {
    hide After, Money, Legal, Shaped;
    if actions != [] {
      StepConserves(c, s, actions[0]);
      RunConserves(c, After(c, s, actions[0]), actions[1..]);
    }
  }

  /** INV-1, INV-6, INV-25 and INV-33 over every run: no action and no shortfall of the liquidator can break them. */
  lemma {:induction false} RunSurvives(c: Config, s: State, actions: seq<Action>)
    requires Core(c, s) && CanRun(c, s, actions)
    ensures Core(c, End(c, s, actions))
    decreases |actions|
  {
    hide After, Core, Legal, Shaped, Payable, Backed, Spared, Inv;
    if actions != [] {
      StepSafe(c, s, actions[0]);
      RunSurvives(c, After(c, s, actions[0]), actions[1..]);
    }
  }

  ghost predicate AllBacked(c: Config, s: State, actions: seq<Action>)
    requires CanRun(c, s, actions)
    decreases |actions|
  {
    actions != [] ==> Backed(c, s, actions[0]) && AllBacked(c, After(c, s, actions[0]), actions[1..])
  }

  ghost predicate AllPayable(c: Config, s: State, actions: seq<Action>)
    requires CanRun(c, s, actions)
    decreases |actions|
  {
    actions != [] ==> Payable(c, s, actions[0]) && AllPayable(c, After(c, s, actions[0]), actions[1..])
  }

  ghost predicate AlwaysSpared(c: Config, s: State, actions: seq<Action>)
    requires CanRun(c, s, actions)
    decreases |actions|
  {
    Spared(c, s) && (actions != [] ==> AlwaysSpared(c, After(c, s, actions[0]), actions[1..]))
  }

  ghost predicate AlwaysInv(c: Config, s: State, actions: seq<Action>)
    requires CanRun(c, s, actions)
    decreases |actions|
  {
    Inv(c, s) && (actions != [] ==> AlwaysInv(c, After(c, s, actions[0]), actions[1..]))
  }

  /**
   * An overdrawn liquidator harms nobody else, unless it settles while overdrawn and a ratio is fixed on the debt that
   * it "pays": all other accounts stay solvent and every pool covers its claims throughout a run, exactly when every
   * ratio is backed where it is fixed.
   */
  lemma {:induction false} RunSpares(c: Config, s: State, actions: seq<Action>)
    requires Spared(c, s) && CanRun(c, s, actions)
    ensures AlwaysSpared(c, s, actions) <==> AllBacked(c, s, actions)
    ensures AllBacked(c, s, actions) ==> Spared(c, End(c, s, actions))
    decreases |actions|
  {
    hide After, Legal, Payable, Backed, Inv, Core, OthersOk, GroupsOk, Shaped;
    if actions != [] {
      StepSafe(c, s, actions[0]);
      if Backed(c, s, actions[0]) {
        RunSpares(c, After(c, s, actions[0]), actions[1..]);
      } else {
        assert !AlwaysSpared(c, After(c, s, actions[0]), actions[1..]);
      }
    }
  }

  /**
   * INV-8 over whole runs: nobody is ever overdrawn and every pool always covers its claims, exactly when the
   * liquidator can pay every slice that goes through.
   */
  lemma {:induction false} RunSafe(c: Config, s: State, actions: seq<Action>)
    requires Inv(c, s) && CanRun(c, s, actions)
    ensures AlwaysInv(c, s, actions) <==> AllPayable(c, s, actions)
    ensures AllPayable(c, s, actions) ==> Inv(c, End(c, s, actions))
    decreases |actions|
  {
    hide After, Legal, Payable, Backed, Spared, Core, CashOk, GroupsOk, Shaped;
    if actions != [] {
      StepSafe(c, s, actions[0]);
      if Payable(c, s, actions[0]) {
        RunSafe(c, After(c, s, actions[0]), actions[1..]);
      } else {
        assert !AlwaysInv(c, After(c, s, actions[0]), actions[1..]);
      }
    }
  }

  /** Before anything happens: empty accounts, open groups, money in wallets and in the insurance fund. */
  function Genesis(c: Config, now: int, prices: Prices, usdc: map<Owner, int>, insurance: int): State {
    State(now, prices, map a | a in c.owner :: map[], map a | a in c.owner :: 0, usdc,
      map o | o in c.wallets :: map[], map g | g in c.groups :: NEW_GROUP, insurance, 0, 0)
  }

  lemma {:induction false} GenesisInv(c: Config, now: int, prices: Prices, usdc: map<Owner, int>, insurance: int)
    requires WellFormed(c) && usdc.Keys == c.wallets && NonNegative(usdc) && 0 <= insurance
    ensures Inv(c, Genesis(c, now, prices, usdc, insurance))
  {
    var s := Genesis(c, now, prices, usdc, insurance);
    forall sid ensures Held(s.bal, sid) == 0 && Held(s.wr, sid) == 0 {
      SumZero(Column(s.bal, sid));
      SumZero(Column(s.wr, sid));
    }
  }

  /**
   * The promise of the settlement design: in whatever way a group got to its ratio, if insurance can pay the debts that
   * were left unpaid, every claim is paid in full.
   */
  lemma {:induction false} CoveredRunsPayInFull(c: Config, start: State, actions: seq<Action>, g: Gid)
    requires Core(c, start) && CanRun(c, start, actions) && g in c.groups
    ensures var s := End(c, start, actions);
      Core(c, s) && (ComputeRatio(c, s, g).Done? && s.groups[g].unpaid <= s.insurance ==>
        ComputeRatio(c, s, g).next.groups[g].ratio == Some(WAD))
  {
    hide ComputeRatio, After, Legal;
    RunSurvives(c, start, actions);
    RecoveryRatio(c, End(c, start, actions), g);
  }

  // ---------------------------------------------------------------------------------------------------------
  // After the ratio: one price, one ratio, and payouts within what was collected
  // ---------------------------------------------------------------------------------------------------------

  /** Cash that an action brings from a group's pool to a wallet or an account. */
  ghost function PaidFrom(c: Config, s: State, a: Action, g: Gid): int
    requires Shaped(c, s) && Legal(c, s, a)
  {
    var s' := After(c, s, a);
    match a
    case RedeemWrapper(o, sid, _) => if c.series[sid].group == g then s'.usdc[o] - s.usdc[o] else 0
    case ClaimSettlement(aid, h) => if h == g then s'.cash[aid] - s.cash[aid] else 0
    case _ => 0
  }

  /** From `x` to `y` a group's record changed by payouts only: price, ratio and what was collected stay. */
  ghost predicate PaidOut(x: Group, y: Group, paid: int) {
    && y == x.(pool := x.pool - paid, claimed := y.claimed) && x.claimed <= y.claimed
    && (paid <= 0 || paid <= x.pool)
  }

  lemma {:induction false} PaidOutOnward(x: Group, y: Group, z: Group, p: int, q: int)
    requires PaidOut(x, y, p) && PaidOut(y, z, q)
    ensures PaidOut(x, z, p + q)
  {
  }

  /**
   * With its ratio fixed, a group's record changes by payouts only. A payout is within the pool, and never negative if
   * the pool covers its claims.
   */
  lemma {:induction false} AfterRatio(c: Config, s: State, a: Action, g: Gid)
    requires Core(c, s) && Legal(c, s, a) && g in s.groups && s.groups[g].ratio.Some?
    ensures Shaped(c, After(c, s, a))
    ensures PaidOut(s.groups[g], After(c, s, a).groups[g], PaidFrom(c, s, a, g))
    ensures InOrder(c, s, g) ==> 0 <= PaidFrom(c, s, a, g)
  {
    hide After, PaidFrom, PaidOut, InOrder, Legal, Balanced, GroupsCore, WholeLots, FundsOk, NoNegativeWrapper;
    match a
    case RedeemWrapper(o, sid, q) => RedeemPays(c, s, o, sid, q, g);
    case ClaimSettlement(aid, h) => ClaimPays(c, s, aid, h, g);
    case _ => RecordStays(c, s, a, g);
  }

  lemma {:induction false} RecordStays(c: Config, s: State, a: Action, g: Gid)
    requires Core(c, s) && Legal(c, s, a) && g in s.groups && s.groups[g].ratio.Some?
    requires !a.RedeemWrapper? && !a.ClaimSettlement?
    ensures Shaped(c, After(c, s, a))
    ensures PaidOut(s.groups[g], After(c, s, a).groups[g], PaidFrom(c, s, a, g)) && PaidFrom(c, s, a, g) == 0
  {
    hide After, Balanced, GroupsCore, WholeLots, FundsOk, NoNegativeWrapper;
    StepConserves(c, s, a);
    match a
    case SettleAccount(aid, h) => SettleElsewhere(c, s, aid, h, g);
    case FinalizeGroup(h, _) => FixedElsewhere(c, s, a, h, g);
    case FixRatio(h) => FixedElsewhere(c, s, a, h, g);
    case _ => GroupsStay(c, s, a);
  }

  lemma {:induction false} FixedElsewhere(c: Config, s: State, a: Action, h: Gid, g: Gid)
    requires Core(c, s) && Legal(c, s, a) && g in s.groups && s.groups[g].ratio.Some?
    requires (a.FinalizeGroup? && a.g == h) || a == FixRatio(h)
    ensures Shaped(c, After(c, s, a)) && After(c, s, a).groups[g] == s.groups[g]
  {
    hide GrossClaim, RatioOf, InsuranceDraw, Snapshot, GroupsCore, Balanced, WholeLots, FundsOk, NoNegativeWrapper;
    hide BooksAgree, RatioChecked, Holders;
    CoreGroup(c, s, g);
  }

  lemma {:induction false} GroupsStay(c: Config, s: State, a: Action)
    requires Shaped(c, s) && Legal(c, s, a)
    requires !a.FinalizeGroup? && !a.SettleAccount? && !a.FixRatio? && !a.RedeemWrapper? && !a.ClaimSettlement?
    ensures After(c, s, a).groups == s.groups
  {
    hide Mint, Liquidate, RiskAt, FreshFor, Give, IsLots, RaiseTolerated, Tolerated, Healthy, SetBalance, Put;
    match a
    case MintLong(aid, sid, q, to) =>
      if Mint(c, s, aid, sid, q, to).Done? {
        MintKeepsGroups(c, s, aid, sid, q, to);
      }
    case Slice(aid, u, sliceBps, bonusBps) =>
      if Liquidate(c, s, aid, u, sliceBps, bonusBps).Done? {
        SliceKeepsGroups(c, s, aid, u, sliceBps, bonusBps);
      }
    case _ =>
  }

  lemma {:induction false} MintKeepsGroups(c: Config, s: State, aid: Aid, sid: Sid, q: int, to: Owner)
    requires Shaped(c, s) && Known(c, aid, sid) && to in c.wallets && Mint(c, s, aid, sid, q, to).Done?
    ensures Mint(c, s, aid, sid, q, to).next.groups == s.groups
  {
    hide RiskAt, FreshFor, MintFee, Give, IsLots, Healthy, SetBalance, Put;
  }

  lemma {:induction false} SliceKeepsGroups(c: Config, s: State, aid: Aid, u: Underlying, sliceBps: nat, bonusBps: nat)
    requires Shaped(c, s) && aid in c.owner && Liquidate(c, s, aid, u, sliceBps, bonusBps).Done?
    ensures Liquidate(c, s, aid, u, sliceBps, bonusBps).next.groups == s.groups
  {
    hide RiskAt, SliceMm, SliceCashFlow, Move, Less, More, Healthy, ShortsHold, Dust;
  }

  lemma {:induction false} RedeemPays(c: Config, s: State, o: Owner, sid: Sid, q: int, g: Gid)
    requires Core(c, s) && Legal(c, s, RedeemWrapper(o, sid, q)) && g in s.groups
    ensures Shaped(c, After(c, s, RedeemWrapper(o, sid, q)))
    ensures var a := RedeemWrapper(o, sid, q);
      && PaidOut(s.groups[g], After(c, s, a).groups[g], PaidFrom(c, s, a, g))
      && (InOrder(c, s, g) ==> 0 <= PaidFrom(c, s, a, g))
  {
    hide Shaped, Redeem, Redeemed, InOrder, PaidOut, Payout, UnitOf, GroupsCore, Balanced, WholeLots, FundsOk;
    hide NoNegativeWrapper;
    StepConserves(c, s, RedeemWrapper(o, sid, q));
    SameGroups(c, s, After(c, s, RedeemWrapper(o, sid, q)), g);
    NothingPaid(s.groups[g]);
    if Redeem(c, s, o, sid, q).Done? {
      RedeemIs(c, s, o, sid, q, g);
    }
  }

  lemma {:induction false} RedeemIs(c: Config, s: State, o: Owner, sid: Sid, q: int, g: Gid)
    requires Core(c, s) && o in c.wallets && sid in c.series && g in s.groups && Redeem(c, s, o, sid, q).Done?
    ensures var s' := Redeem(c, s, o, sid, q).next;
      && o in s.usdc && o in s'.usdc && g in s'.groups
      && if c.series[sid].group == g then
           && PaidOut(s.groups[g], s'.groups[g], s'.usdc[o] - s.usdc[o])
           && (InOrder(c, s, g) ==> 0 <= s'.usdc[o] - s.usdc[o])
         else s'.groups[g] == s.groups[g]
  {
    hide Payout, UnitOf, Give, Units, GroupOk, GroupsCore, Balanced, WholeLots, FundsOk, NoNegativeWrapper;
    if c.series[sid].group == g && InOrder(c, s, g) {
      RedeemLeavesCovered(c, s, o, sid, q, g);
    }
  }

  lemma {:induction false} ClaimPays(c: Config, s: State, aid: Aid, h: Gid, g: Gid)
    requires Core(c, s) && Legal(c, s, ClaimSettlement(aid, h)) && g in s.groups
    ensures Shaped(c, After(c, s, ClaimSettlement(aid, h)))
    ensures var a := ClaimSettlement(aid, h);
      && PaidOut(s.groups[g], After(c, s, a).groups[g], PaidFrom(c, s, a, g))
      && (InOrder(c, s, g) ==> 0 <= PaidFrom(c, s, a, g))
  {
    hide Shaped, ClaimCredit, InOrder, PaidOut, GroupsCore, Balanced, WholeLots, FundsOk, NoNegativeWrapper;
    StepConserves(c, s, ClaimSettlement(aid, h));
    SameGroups(c, s, After(c, s, ClaimSettlement(aid, h)), g);
    NothingPaid(s.groups[g]);
    if ClaimCredit(c, s, aid, h).Done? {
      ClaimIs(c, s, aid, h, g);
    }
  }

  lemma {:induction false} ClaimIs(c: Config, s: State, aid: Aid, h: Gid, g: Gid)
    requires Core(c, s) && aid in c.owner && h in c.groups && g in s.groups && ClaimCredit(c, s, aid, h).Done?
    ensures var s' := ClaimCredit(c, s, aid, h).next;
      && aid in s.cash && aid in s'.cash && g in s'.groups
      && if h == g then
           && PaidOut(s.groups[g], s'.groups[g], s'.cash[aid] - s.cash[aid])
           && (InOrder(c, s, g) ==> 0 <= s'.cash[aid] - s.cash[aid])
         else s'.groups[g] == s.groups[g]
  {
    hide Payout, UnitOf, Units, GroupOk, GroupsCore, Balanced, WholeLots, FundsOk, NoNegativeWrapper;
    if h == g && InOrder(c, s, g) {
      ClaimLeavesCovered(c, s, aid, h);
    }
  }

  lemma {:induction false} SettleElsewhere(c: Config, s: State, aid: Aid, h: Gid, g: Gid)
    requires Core(c, s) && aid in c.owner && h in c.groups && g in s.groups && s.groups[g].ratio.Some?
    ensures Shaped(c, After(c, s, SettleAccount(aid, h)))
    ensures After(c, s, SettleAccount(aid, h)).groups[g] == s.groups[g]
  {
    hide Outside, Settled, Units, GroupsCore, Balanced, WholeLots;
    StepConserves(c, s, SettleAccount(aid, h));
    var r := Settle(c, s, aid, h);
    if r.Done? && h == g {
      CoreGroup(c, s, g);
      HolderMeansNoRatio(c, s, aid, g);
    }
  }

  ghost function Paid(c: Config, s: State, actions: seq<Action>, g: Gid): int
    requires CanRun(c, s, actions)
    decreases |actions|
  {
    if actions == [] then 0
    else PaidFrom(c, s, actions[0], g) + Paid(c, After(c, s, actions[0]), actions[1..], g)
  }

  /** From the ratio on, in every continuation: pool and payouts add up, and price and ratio are for ever. */
  lemma {:induction false} PayoutsAddUp(c: Config, s: State, actions: seq<Action>, g: Gid)
    requires Core(c, s) && CanRun(c, s, actions) && g in s.groups && s.groups[g].ratio.Some?
    ensures Core(c, End(c, s, actions))
    ensures PaidOut(s.groups[g], End(c, s, actions).groups[g], Paid(c, s, actions, g))
    ensures InOrder(c, s, g) ==> InOrder(c, End(c, s, actions), g) && 0 <= Paid(c, s, actions, g)
    decreases |actions|
  {
    hide After, Core, Legal, Payable, Backed, PaidFrom, InOrder, Inv, Spared, Shaped, PaidOut;
    if actions == [] {
      NothingPaid(s.groups[g]);
    } else {
      var s' := After(c, s, actions[0]);
      StepSafe(c, s, actions[0]);
      AfterRatio(c, s, actions[0], g);
      SameGroups(c, s, s', g);
      RatioStays(s.groups[g], s'.groups[g], PaidFrom(c, s, actions[0], g));
      PayoutsAddUp(c, s', actions[1..], g);
      assert End(c, s, actions) == End(c, s', actions[1..]);
      CoreGroups(c, s, End(c, s, actions), g);
      PaidOutOnward(s.groups[g], s'.groups[g], End(c, s, actions).groups[g], PaidFrom(c, s, actions[0], g),
        Paid(c, s', actions[1..], g));
    }
  }

  lemma {:induction false} SameGroups(c: Config, s: State, s': State, g: Gid)
    requires Shaped(c, s) && Shaped(c, s') && g in s.groups
    ensures g in s'.groups
  {
  }

  lemma {:induction false} CoreGroups(c: Config, s: State, s': State, g: Gid)
    requires Core(c, s) && Core(c, s') && g in s.groups
    ensures g in s'.groups
  {
  }

  lemma {:induction false} NothingPaid(x: Group)
    ensures PaidOut(x, x, 0)
  {
  }

  lemma {:induction false} RatioStays(x: Group, y: Group, paid: int)
    requires PaidOut(x, y, paid)
    ensures y.ratio == x.ratio
  {
  }

  /**
   * INV-31 over runs: once the ratio is fixed, whoever redeems or claims, in whatever order and portions, all payouts
   * of the group together never exceed what was collected from debtors plus what insurance added. If that is not a
   * debt, no payout is ever negative and the group's pool covers what is still claimed to the end.
   */
  lemma {:induction false} PayoutsBounded(c: Config, s: State, g: Gid, actions: seq<Action>)
    requires Core(c, s) && g in c.groups && ComputeRatio(c, s, g).Done?
    requires CanRun(c, ComputeRatio(c, s, g).next, actions)
    ensures var s' := ComputeRatio(c, s, g).next;
      && Core(c, End(c, s', actions))
      && Paid(c, s', actions, g) <= Max(0, s'.groups[g].collected + s'.groups[g].insurance)
    ensures var s' := ComputeRatio(c, s, g).next;
      0 <= s.groups[g].collected + s.insurance ==>
        0 <= Paid(c, s', actions, g) && InOrder(c, End(c, s', actions), g)
  {
    hide ComputeRatio, After, Legal, InOrder, Inv, Spared, Harmless, Balanced, GroupsCore, WholeLots, FundsOk;
    hide NoNegativeWrapper, Money, RatioOf, GrossClaim;
    var s' := ComputeRatio(c, s, g).next;
    ComputeRatioSafe(c, s, g);
    RecoveryRatio(c, s, g);
    PayoutsAddUp(c, s', actions, g);
    PoolIsAll(c, s, g);
  }

  lemma {:induction false} PoolIsAll(c: Config, s: State, g: Gid)
    requires Core(c, s) && g in s.groups && ComputeRatio(c, s, g).Done?
    ensures var x := ComputeRatio(c, s, g).next.groups[g];
      x.pool == x.collected + x.insurance
  {
    hide RatioOf, GrossClaim;
    CoreGroup(c, s, g);
  }
}
