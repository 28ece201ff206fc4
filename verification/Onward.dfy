/**
 * What no action can take back: a settlement price and a ratio once fixed stay, nobody becomes a participant of a group
 * that has a price, and time does not go back.
 */
module Onward {
  import opened Sums
  import opened Tables
  import opened Clearing
  import opened Invariant
  import opened Trading
  import opened Slices
  import opened Runs

  ghost predicate GroupOnward(x: Group, y: Group) {
    && (x.price.Some? ==> y.price == x.price)
    && (x.ratio.Some? ==> y.ratio == x.ratio)
  }

  /** Participants of a group with a price can only become fewer. */
  ghost predicate FewerHold(c: Config, s: State, s': State, g: Gid) {
    g in s.groups && (s.groups[g].price.Some? ==> Holders(c, s'.bal, g) <= Holders(c, s.bal, g))
  }

  ghost predicate Later(c: Config, s: State, s': State) {
    && Shaped(c, s) && Shaped(c, s') && s.now <= s'.now
    && (forall g :: g in s.groups ==> GroupOnward(s.groups[g], s'.groups[g]))
    && forall g :: g in s.groups ==> FewerHold(c, s, s', g)
  }

  lemma {:induction false} LaterSelf(c: Config, s: State)
    requires Shaped(c, s)
    ensures Later(c, s, s)
  {
  }

  lemma {:induction false} LaterStill(c: Config, s: State, t: State, u: State)
    requires Later(c, s, t) && Later(c, t, u)
    ensures Later(c, s, u)
  {
    hide Shaped, Holders, GroupOnward;
    SameGids(c, s, t);
    SameGids(c, t, u);
    forall g | g in s.groups ensures GroupOnward(s.groups[g], u.groups[g]) && FewerHold(c, s, u, g) {
      GroupStill(s.groups[g], t.groups[g], u.groups[g]);
      assert FewerHold(c, s, t, g) && FewerHold(c, t, u, g);
    }
  }

  lemma {:induction false} GroupStill(x: Group, y: Group, z: Group)
    requires GroupOnward(x, y) && GroupOnward(y, z)
    ensures GroupOnward(x, z) && (x.price.Some? ==> y.price.Some?)
  {
  }

  lemma {:induction false} SameGids(c: Config, s: State, t: State)
    requires Shaped(c, s) && Shaped(c, t)
    ensures s.groups.Keys == t.groups.Keys == c.groups.Keys
  {
  }

  // ---------------------------------------------------------------------------------------------------------
  // Balances
  // ---------------------------------------------------------------------------------------------------------

  /** Only series of groups without a price move. */
  ghost predicate OpenMoves(c: Config, s: State, bal': map<Aid, Row>)
    requires Shaped(c, s)
  {
    forall g :: g in s.groups && s.groups[g].price.Some? ==> SameIn(s.bal, bal', SeriesOf(c, g))
  }

  lemma {:induction false} OpenMovesKeep(c: Config, s: State, s': State)
    requires Shaped(c, s) && OpenMoves(c, s, s'.bal)
    ensures forall g :: g in s.groups ==> FewerHold(c, s, s', g)
  {
    hide Holders;
    forall g | g in s.groups && s.groups[g].price.Some? ensures Holders(c, s'.bal, g) == Holders(c, s.bal, g) {
      SameHolders(c, g, s.bal, s'.bal);
    }
  }

  lemma {:induction false} SetMovesOpen(c: Config, s: State, aid: Aid, sid: Sid, v: int)
    requires Shaped(c, s) && aid in c.owner && Open(c, s, sid)
    ensures aid in s.bal && OpenMoves(c, s, SetBalance(s.bal, aid, sid, v))
  {
    forall g | g in s.groups && s.groups[g].price.Some? ensures sid !in SeriesOf(c, g) {
    }
  }

  lemma {:induction false} InternalMovesOpen(c: Config, s: State, frm: Aid, to: Aid, sid: Sid, v: int, w: int)
    requires Shaped(c, s) && frm in c.owner && to in c.owner && Open(c, s, sid)
    ensures frm in s.bal && to in s.bal && OpenMoves(c, s, SetBalance(SetBalance(s.bal, frm, sid, v), to, sid, w))
  {
    forall g | g in s.groups && s.groups[g].price.Some? ensures sid !in SeriesOf(c, g) {
    }
  }

  lemma {:induction false} SliceMovesOpen(c: Config, s: State, aid: Aid, u: Underlying, sliceBps: nat, bonusBps: nat)
    requires Core(c, s) && aid in c.owner && Liquidate(c, s, aid, u, sliceBps, bonusBps).Done?
    ensures OpenMoves(c, s, Liquidate(c, s, aid, u, sliceBps, bonusBps).next.bal)
  {
    hide Liquidate, Move, SliceCashFlow, SliceMm, GroupsCore, Balanced, WholeLots;
    LiquidateIsSlice(c, s, aid, u, sliceBps, bonusBps);
    var move := Move(c, s, aid, u, sliceBps);
    forall sid | sid in move ensures Open(c, s, sid) {
      ActiveIsOpen(c, s, sid);
    }
    MovedOutside(c, s, aid, move);
  }

  lemma {:induction false} MovedOutside(c: Config, s: State, aid: Aid, move: Row)
    requires Shaped(c, s) && aid in c.owner && aid != c.liqAid && move.Keys <= s.bal[aid].Keys
    requires forall sid :: sid in move ==> Open(c, s, sid)
    ensures OpenMoves(c, s, Moved(s.bal, aid, c.liqAid, move))
  {
    forall g | g in s.groups && s.groups[g].price.Some?
      ensures SameIn(s.bal, Moved(s.bal, aid, c.liqAid, move), SeriesOf(c, g))
    {
      forall sid | sid in SeriesOf(c, g)
        ensures Get(Less(s.bal[aid], move), sid) == Get(s.bal[aid], sid)
        ensures Get(More(s.bal[c.liqAid], move), sid) == Get(s.bal[c.liqAid], sid)
      {
        assert sid !in move;
        LessGet(s.bal[aid], move, sid);
        MoreGet(s.bal[c.liqAid], move, sid);
      }
    }
  }

  lemma {:induction false} SettleFewer(c: Config, s: State, aid: Aid, g: Gid)
    requires Shaped(c, s) && aid in c.owner && g in c.groups
    ensures forall h :: h in s.groups ==> FewerHold(c, s, After(c, s, SettleAccount(aid, g)), h)
  {
    hide Settled, DebtPaid, Units;
    var s' := After(c, s, SettleAccount(aid, g));
    forall h, a | h in s.groups && a in Holders(c, s'.bal, h) ensures a in Holders(c, s.bal, h) {
      var sid :| sid in SeriesOf(c, h) && Get(s'.bal[a], sid) != 0;
      assert Get(s.bal[a], sid) != 0;
    }
  }

  // ---------------------------------------------------------------------------------------------------------
  // Actions
  // ---------------------------------------------------------------------------------------------------------

  lemma {:induction false} TradeMovesOpen(c: Config, s: State, a: Action)
    requires Core(c, s) && Legal(c, s, a)
    requires a.MintLong? || a.UnwrapLong? || a.WrapLong? || a.CloseShort? || a.CloseAcross?
    ensures OpenMoves(c, s, After(c, s, a).bal)
  {
    hide RiskAt, FreshFor, MintFee, IsLots, Healthy, RaiseTolerated, SetBalance, Give, Put, OpenMoves, GroupsCore;
    hide Balanced, WholeLots;
    NothingMoves(c, s);
    if Step(c, s, a).Done? {
      match a
      case MintLong(aid, sid, q, _) =>
        ActiveIsOpen(c, s, sid);
        SetMovesOpen(c, s, aid, sid, Get(s.bal[aid], sid) - q);
      case UnwrapLong(_, aid, sid, q) =>
        ActiveIsOpen(c, s, sid);
        SetMovesOpen(c, s, aid, sid, Get(s.bal[aid], sid) + q);
      case WrapLong(aid, sid, q, _) =>
        ActiveIsOpen(c, s, sid);
        SetMovesOpen(c, s, aid, sid, Get(s.bal[aid], sid) - q);
      case CloseShort(_, aid, sid, q) =>
        SetMovesOpen(c, s, aid, sid, Get(s.bal[aid], sid) + q);
      case CloseAcross(frm, to, sid, q) =>
        InternalMovesOpen(c, s, frm, to, sid, Get(s.bal[frm], sid) - q, Get(s.bal[to], sid) + q);
    }
  }

  lemma {:induction false} NothingMoves(c: Config, s: State)
    requires Shaped(c, s)
    ensures OpenMoves(c, s, s.bal)
  {
  }

  lemma {:induction false} HoldersOnward(c: Config, s: State, a: Action)
    requires Core(c, s) && Legal(c, s, a)
    ensures forall g :: g in s.groups ==> FewerHold(c, s, After(c, s, a), g)
  {
    hide Step, Holders, OpenMoves, GroupsCore, Balanced, WholeLots;
    NothingMoves(c, s);
    OpenMovesKeep(c, s, s);
    match a
    case SettleAccount(aid, g) => SettleFewer(c, s, aid, g);
    case _ =>
      OpenBalancesMove(c, s, a);
      OpenMovesKeep(c, s, After(c, s, a));
  }

  lemma {:induction false} OpenBalancesMove(c: Config, s: State, a: Action)
    requires Core(c, s) && Legal(c, s, a) && !a.SettleAccount?
    ensures OpenMoves(c, s, After(c, s, a).bal)
  {
    hide Mint, Unwrap, Wrap, CloseWithWrapper, CloseInternal, Liquidate, Holders, OpenMoves, GroupsCore, Balanced;
    hide WholeLots, RiskAt, Healthy, FreshFor, Tolerated, GrossClaim, RatioOf, InsuranceDraw, Snapshot, Give;
    hide Payout, UnitOf, BooksAgree, Shaped;
    match a
    case MintLong(_, _, _, _) => TradeMovesOpen(c, s, a);
    case UnwrapLong(_, _, _, _) => TradeMovesOpen(c, s, a);
    case WrapLong(_, _, _, _) => TradeMovesOpen(c, s, a);
    case CloseShort(_, _, _, _) => TradeMovesOpen(c, s, a);
    case CloseAcross(_, _, _, _) => TradeMovesOpen(c, s, a);
    case Slice(aid, u, sliceBps, bonusBps) =>
      NothingMoves(c, s);
      if Step(c, s, a).Done? {
        SliceMovesOpen(c, s, aid, u, sliceBps, bonusBps);
      }
    case _ => NothingMoves(c, s);
  }

  lemma {:induction false} RecordsOnward(c: Config, s: State, a: Action)
    requires Shaped(c, s) && Legal(c, s, a)
    ensures Shaped(c, After(c, s, a))
    ensures forall g :: g in s.groups ==> GroupOnward(s.groups[g], After(c, s, a).groups[g])
  {
    hide After, Step, GroupOnward;
    StepConserves(c, s, a);
    forall g | g in s.groups ensures GroupOnward(s.groups[g], After(c, s, a).groups[g]) {
      RecordOnward(c, s, a, g);
    }
  }

  lemma {:induction false} RecordOnward(c: Config, s: State, a: Action, g: Gid)
    requires Shaped(c, s) && Legal(c, s, a) && g in s.groups
    ensures g in After(c, s, a).groups && GroupOnward(s.groups[g], After(c, s, a).groups[g])
  {
    hide After, Shaped;
    match a
    case FinalizeGroup(h, _) => SettlingOnward(c, s, a, g);
    case SettleAccount(_, h) => SettlingOnward(c, s, a, g);
    case FixRatio(h) => SettlingOnward(c, s, a, g);
    case RedeemWrapper(_, _, _) => SettlingOnward(c, s, a, g);
    case ClaimSettlement(_, _) => SettlingOnward(c, s, a, g);
    case _ => GroupsStay(c, s, a);
  }

  lemma {:induction false} SettlingOnward(c: Config, s: State, a: Action, g: Gid)
    requires Shaped(c, s) && Legal(c, s, a) && g in s.groups
    requires a.FinalizeGroup? || a.SettleAccount? || a.FixRatio? || a.RedeemWrapper? || a.ClaimSettlement?
    ensures g in After(c, s, a).groups && GroupOnward(s.groups[g], After(c, s, a).groups[g])
    ensures After(c, s, a).now == s.now
  {
    hide After, Shaped;
    match a
    case FinalizeGroup(_, _) => FixingOnward(c, s, a, g);
    case FixRatio(_) => FixingOnward(c, s, a, g);
    case SettleAccount(_, _) => SettleOnward(c, s, a, g);
    case RedeemWrapper(_, _, _) => RedeemOnward(c, s, a, g);
    case ClaimSettlement(_, _) => ClaimOnward(c, s, a, g);
  }

  lemma {:induction false} FixingOnward(c: Config, s: State, a: Action, g: Gid)
    requires Shaped(c, s) && Legal(c, s, a) && g in s.groups && (a.FinalizeGroup? || a.FixRatio?)
    ensures g in After(c, s, a).groups && GroupOnward(s.groups[g], After(c, s, a).groups[g])
    ensures After(c, s, a).now == s.now
  {
    hide GrossClaim, RatioOf, InsuranceDraw, Snapshot, BooksAgree, RatioChecked, Holders;
  }

  lemma {:induction false} SettleOnward(c: Config, s: State, a: Action, g: Gid)
    requires Shaped(c, s) && Legal(c, s, a) && g in s.groups && a.SettleAccount?
    ensures g in After(c, s, a).groups && GroupOnward(s.groups[g], After(c, s, a).groups[g])
    ensures After(c, s, a).now == s.now
  {
    hide Outside, DebtPaid, Units, Claim, HoldsIn;
  }

  lemma {:induction false} RedeemOnward(c: Config, s: State, a: Action, g: Gid)
    requires Shaped(c, s) && Legal(c, s, a) && g in s.groups && a.RedeemWrapper?
    ensures g in After(c, s, a).groups && GroupOnward(s.groups[g], After(c, s, a).groups[g])
    ensures After(c, s, a).now == s.now
  {
    hide Payout, UnitOf, Give;
  }

  lemma {:induction false} ClaimOnward(c: Config, s: State, a: Action, g: Gid)
    requires Shaped(c, s) && Legal(c, s, a) && g in s.groups && a.ClaimSettlement?
    ensures g in After(c, s, a).groups && GroupOnward(s.groups[g], After(c, s, a).groups[g])
    ensures After(c, s, a).now == s.now
  {
    hide Payout;
  }

  lemma {:induction false} StepOnward(c: Config, s: State, a: Action)
    requires Core(c, s) && Legal(c, s, a)
    ensures Later(c, s, After(c, s, a))
  {
    hide Shaped, GroupOnward, FewerHold, After;
    RecordsOnward(c, s, a);
    HoldersOnward(c, s, a);
    TimeOnward(c, s, a);
  }

  lemma {:induction false} TimeOnward(c: Config, s: State, a: Action)
    requires Shaped(c, s) && Legal(c, s, a)
    ensures s.now <= After(c, s, a).now
  {
    hide Deposit, Withdraw, Unwrap, Wrap, CloseWithWrapper, CloseInternal, TransferWrapper, Mint, Liquidate;
    hide Finalize, Settle, ComputeRatio, Redeem, ClaimCredit;
    match a
    case FinalizeGroup(g, _) => SettlingOnward(c, s, a, g);
    case SettleAccount(_, g) => SettlingOnward(c, s, a, g);
    case FixRatio(g) => SettlingOnward(c, s, a, g);
    case RedeemWrapper(_, sid, _) => SettlingOnward(c, s, a, c.series[sid].group);
    case ClaimSettlement(_, g) => SettlingOnward(c, s, a, g);
    case MarketMove(_, _) =>
    case _ => TradingTime(c, s, a);
  }

  lemma {:induction false} TradingTime(c: Config, s: State, a: Action)
    requires Shaped(c, s) && Legal(c, s, a)
    requires !a.FinalizeGroup? && !a.SettleAccount? && !a.FixRatio? && !a.RedeemWrapper? && !a.ClaimSettlement?
    requires !a.MarketMove?
    ensures After(c, s, a).now == s.now
  {
    hide Mint, Liquidate, RiskAt, FreshFor, Give, IsLots, RaiseTolerated, Tolerated, Healthy, SetBalance, Put;
    match a
    case MintLong(aid, sid, q, to) => MintTime(c, s, aid, sid, q, to);
    case Slice(aid, u, sliceBps, bonusBps) => SliceTime(c, s, aid, u, sliceBps, bonusBps);
    case _ =>
  }

  lemma {:induction false} MintTime(c: Config, s: State, aid: Aid, sid: Sid, q: int, to: Owner)
    requires Shaped(c, s) && Known(c, aid, sid) && to in c.wallets
    ensures Mint(c, s, aid, sid, q, to).Done? ==> Mint(c, s, aid, sid, q, to).next.now == s.now
  {
    hide RiskAt, FreshFor, MintFee, Give, IsLots, Healthy, SetBalance, Put;
  }

  lemma {:induction false} SliceTime(c: Config, s: State, aid: Aid, u: Underlying, sliceBps: nat, bonusBps: nat)
    requires Shaped(c, s) && aid in c.owner
    ensures var r := Liquidate(c, s, aid, u, sliceBps, bonusBps); r.Done? ==> r.next.now == s.now
  {
    hide RiskAt, SliceMm, SliceCashFlow, Move, Less, More, Healthy, ShortsHold, Dust;
  }

  /** Over whole runs: what was fixed stays fixed, and a group with a price only loses participants. */
  lemma {:induction false} RunOnward(c: Config, s: State, actions: seq<Action>)
    requires Core(c, s) && CanRun(c, s, actions)
    ensures Later(c, s, End(c, s, actions))
    decreases |actions|
  {
    hide After, Core, Legal, Later, Shaped;
    if actions == [] {
      LaterSelf(c, s);
    } else {
      StepOnward(c, s, actions[0]);
      KeepsCore(c, s, actions[0]);
      RunOnward(c, After(c, s, actions[0]), actions[1..]);
      LaterStill(c, s, After(c, s, actions[0]), End(c, s, actions));
    }
  }

  lemma {:induction false} KeepsCore(c: Config, s: State, a: Action)
    requires Core(c, s) && Legal(c, s, a)
    ensures Shaped(c, s) && Core(c, After(c, s, a))
  {
    hide After;
    StepSafe(c, s, a);
  }
}
