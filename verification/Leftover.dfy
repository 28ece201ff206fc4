/**
 * Nothing is stranded: payouts round down, but by less than a native unit each, so that once every token is redeemed
 * and every credit claimed, what is left in a group's pool is less than a native unit per payout and the rounding of
 * the ratio.
 */
module Leftover {
  import opened Basics
  import opened Sums
  import opened Tables
  import opened Clearing
  import opened Invariant
  import opened Trading
  import opened Settlement
  import opened Runs
  import opened Calls
  import opened Dues

  /** What a group still owes at scale 1e54, before the ratio: tokens out there and credits not claimed. */
  ghost function Owing(c: Config, s: State, g: Gid): int
    requires g in s.groups && s.groups[g].price.Some?
  {
    TotalClaim(s.wr, Units(c, g, s.groups[g].price.value)) + Sum(s.groups[g].credits - s.groups[g].claimed)
  }

  /** What the pool has beyond what it owes at the ratio, times 1e66. */
  ghost function Spare(c: Config, s: State, g: Gid): int
    requires g in s.groups && s.groups[g].price.Some? && s.groups[g].ratio.Some?
  {
    s.groups[g].pool * (Scale(DEC) * WAD) - s.groups[g].ratio.value * Owing(c, s, g)
  }

  /** The group has its ratio. */
  ghost predicate Paying(c: Config, s: State, g: Gid) {
    Core(c, s) && Shaped(c, s) && g in s.groups && s.groups[g].price.Some? && s.groups[g].ratio.Some?
  }

  /** A payout of the group. */
  predicate Pays(c: Config, a: Action, g: Gid) {
    || (a.RedeemWrapper? && a.sid in c.series && c.series[a.sid].group == g)
    || (a.ClaimSettlement? && a.g == g)
  }

  // ---------------------------------------------------------------------------------------------------------
  // Everything but payouts
  // ---------------------------------------------------------------------------------------------------------

  lemma {:induction false} EntryHeld(wr: map<Owner, Row>, wr': map<Owner, Row>, o: Owner, sid: Sid, x: int,
      sids: set<Sid>)
    requires EntryRises(wr, wr', o, sid, x) && sid !in sids
    ensures SameHeld(wr, wr', sids)
  {
    forall t | t in sids ensures Held(wr', t) == Held(wr, t) {
      assert Column(wr', t) == Column(wr, t);
    }
  }

  lemma {:induction false} SameTokens(wr: map<Owner, Row>, sids: set<Sid>)
    ensures SameHeld(wr, wr, sids)
  {
  }

  /** A transfer moves tokens about. */
  lemma {:induction false} TransferHeld(wr: map<Owner, Row>, frm: Owner, to: Owner, sid: Sid, q: int, sids: set<Sid>)
    requires frm in wr && to in wr
    ensures SameHeld(wr, Give(Give(wr, frm, sid, -q), to, sid, q), sids)
  {
    hide Give;
    var mid := Give(wr, frm, sid, -q);
    GiveEntry(wr, frm, sid, -q);
    GiveEntry(mid, to, sid, q);
    OneEntryHeld(wr, mid, frm, sid, Get(wr[frm], sid) - q);
    OneEntryHeld(mid, Give(mid, to, sid, q), to, sid, Get(mid[to], sid) + q);
  }

  /** No action but a payout changes how many tokens there are of the series of a group with a ratio. */
  lemma {:induction false} TokensStay(c: Config, s: State, a: Action, g: Gid)
    requires Paying(c, s, g) && Legal(c, s, a) && !Pays(c, a, g)
    ensures SameHeld(s.wr, After(c, s, a).wr, SeriesOf(c, g))
  {
    hide Core, SameHeld, Deposit, Withdraw, Mint, Unwrap, Wrap, CloseWithWrapper, CloseInternal, TransferWrapper;
    hide Finalize;
    hide Settle, ComputeRatio, Redeem, ClaimCredit, Liquidate;
    SameTokens(s.wr, SeriesOf(c, g));
    match a
    case MintLong(_, _, _, _) => TokensOfOthers(c, s, a, g);
    case UnwrapLong(_, _, _, _) => TokensOfOthers(c, s, a, g);
    case WrapLong(_, _, _, _) => TokensOfOthers(c, s, a, g);
    case CloseShort(_, _, _, _) => TokensOfOthers(c, s, a, g);
    case Transfer(frm, to, sid, q) => TransferTokens(c, s, frm, to, sid, q, g);
    case RedeemWrapper(o, sid, q) => RedeemElsewhere(c, s, o, sid, q, g);
    case _ => NoTokens(c, s, a);
  }

  lemma {:induction false} NoTokens(c: Config, s: State, a: Action)
    requires Shaped(c, s) && Legal(c, s, a)
    requires !a.MintLong? && !a.UnwrapLong? && !a.WrapLong? && !a.CloseShort? && !a.Transfer? && !a.RedeemWrapper?
    ensures After(c, s, a).wr == s.wr
  {
    hide Liquidate, RiskAt, FreshFor, IsLots, RaiseTolerated, Tolerated, Healthy, SetBalance, Put, Settled, Units;
    hide Outside, DebtPaid, Claim, GrossClaim, RatioOf, Payout, UnitOf, InsuranceDraw, Snapshot, BooksAgree;
    hide RatioChecked;
    hide Holders, HoldsIn;
    match a
    case Slice(aid, u, sliceBps, bonusBps) => SliceTokens(c, s, aid, u, sliceBps, bonusBps);
    case _ =>
  }

  lemma {:induction false} SliceTokens(c: Config, s: State, aid: Aid, u: Underlying, sliceBps: nat, bonusBps: nat)
    requires Shaped(c, s) && aid in c.owner
    ensures var r := Liquidate(c, s, aid, u, sliceBps, bonusBps); r.Done? ==> r.next.wr == s.wr
  {
    hide RiskAt, SliceMm, SliceCashFlow, Move, Less, More, Healthy, ShortsHold, Dust;
  }

  /** Tokens of a series come and go only while its group has no price. */
  lemma {:induction false} TokensOfOthers(c: Config, s: State, a: Action, g: Gid)
    requires Paying(c, s, g) && Legal(c, s, a)
    requires a.MintLong? || a.UnwrapLong? || a.WrapLong? || a.CloseShort?
    ensures SameHeld(s.wr, After(c, s, a).wr, SeriesOf(c, g))
  {
    hide Core, SameHeld, EntryRises, Give, RiskAt, FreshFor, IsLots, RaiseTolerated, Healthy, SetBalance, Put, MintFee;
    hide Mint;
    SameTokens(s.wr, SeriesOf(c, g));
    if Step(c, s, a).Done? {
      match a
      case MintLong(aid, sid, q, to) =>
        MintTokens(c, s, aid, sid, q, to);
        OpenSeries(c, s, sid);
        OneSeries(c, s.wr, to, sid, q, g);
      case UnwrapLong(o, _, sid, q) =>
        OpenSeries(c, s, sid);
        OneSeries(c, s.wr, o, sid, -q, g);
      case WrapLong(_, sid, q, to) =>
        OpenSeries(c, s, sid);
        OneSeries(c, s.wr, to, sid, q, g);
      case CloseShort(o, _, sid, q) =>
        OneSeries(c, s.wr, o, sid, -q, g);
    }
  }

  lemma {:induction false} MintTokens(c: Config, s: State, aid: Aid, sid: Sid, q: int, to: Owner)
    requires Shaped(c, s) && Known(c, aid, sid) && to in c.wallets && Mint(c, s, aid, sid, q, to).Done?
    ensures Active(c, s.now, sid) && to in s.wr && Mint(c, s, aid, sid, q, to).next.wr == Give(s.wr, to, sid, q)
  {
    hide RiskAt, FreshFor, MintFee, Give, IsLots, Healthy, SetBalance, Put;
  }

  lemma {:induction false} OneSeries(c: Config, wr: map<Owner, Row>, o: Owner, sid: Sid, x: int, g: Gid)
    requires o in wr && sid !in SeriesOf(c, g)
    ensures SameHeld(wr, Give(wr, o, sid, x), SeriesOf(c, g))
  {
    hide Give, EntryRises;
    GiveRises(wr, o, sid, x);
    EntryHeld(wr, Give(wr, o, sid, x), o, sid, x, SeriesOf(c, g));
  }

  lemma {:induction false} TransferTokens(c: Config, s: State, frm: Owner, to: Owner, sid: Sid, q: int, g: Gid)
    requires Shaped(c, s) && Legal(c, s, Transfer(frm, to, sid, q))
    ensures SameHeld(s.wr, After(c, s, Transfer(frm, to, sid, q)).wr, SeriesOf(c, g))
  {
    hide Give, SameHeld;
    SameTokens(s.wr, SeriesOf(c, g));
    TransferHeld(s.wr, frm, to, sid, q, SeriesOf(c, g));
  }

  lemma {:induction false} RedeemElsewhere(c: Config, s: State, o: Owner, sid: Sid, q: int, g: Gid)
    requires Shaped(c, s) && Legal(c, s, RedeemWrapper(o, sid, q)) && c.series[sid].group != g
    ensures SameHeld(s.wr, After(c, s, RedeemWrapper(o, sid, q)).wr, SeriesOf(c, g))
  {
    hide Give, SameHeld, Payout, UnitOf;
    SameTokens(s.wr, SeriesOf(c, g));
    OneSeries(c, s.wr, o, sid, -q, g);
  }

  /** No action but a payout touches the record of a group with a ratio. */
  lemma {:induction false} RecordIsKept(c: Config, s: State, a: Action, g: Gid)
    requires Paying(c, s, g) && Legal(c, s, a) && !Pays(c, a, g)
    ensures g in After(c, s, a).groups && After(c, s, a).groups[g] == s.groups[g]
  {
    hide After, Core, Shaped;
    StepConserves(c, s, a);
    SameGroups(c, s, After(c, s, a), g);
    match a
    case SettleAccount(aid, h) => SettleElsewhere(c, s, aid, h, g);
    case FinalizeGroup(h, _) => FixedElsewhere(c, s, a, h, g);
    case FixRatio(h) => FixedElsewhere(c, s, a, h, g);
    case RedeemWrapper(o, sid, q) => RedeemKeepsOthers(c, s, o, sid, q, g);
    case ClaimSettlement(aid, h) => ClaimKeepsOthers(c, s, aid, h, g);
    case _ => GroupsStay(c, s, a);
  }

  lemma {:induction false} RedeemKeepsOthers(c: Config, s: State, o: Owner, sid: Sid, q: int, g: Gid)
    requires Shaped(c, s) && Legal(c, s, RedeemWrapper(o, sid, q)) && c.series[sid].group != g && g in s.groups
    ensures var s' := After(c, s, RedeemWrapper(o, sid, q)); g in s'.groups && s'.groups[g] == s.groups[g]
  {
    hide Give, Payout, UnitOf;
  }

  lemma {:induction false} ClaimKeepsOthers(c: Config, s: State, aid: Aid, h: Gid, g: Gid)
    requires Shaped(c, s) && Legal(c, s, ClaimSettlement(aid, h)) && h != g && g in s.groups
    ensures var s' := After(c, s, ClaimSettlement(aid, h)); g in s'.groups && s'.groups[g] == s.groups[g]
  {
    hide Payout;
  }

  lemma {:induction false} OtherSpare(c: Config, s: State, a: Action, g: Gid)
    requires Paying(c, s, g) && Legal(c, s, a) && !Pays(c, a, g)
    ensures Paying(c, After(c, s, a), g) && Spare(c, After(c, s, a), g) == Spare(c, s, g)
  {
    hide After, Core, Shaped, SameHeld, StepKeeps, TotalClaim;
    var s' := After(c, s, a);
    StaysCore(c, s, a);
    RecordIsKept(c, s, a, g);
    TokensStay(c, s, a, g);
    UnitsKeys(c, g, s.groups[g].price.value);
    SameHeldTotal(s.wr, s'.wr, Units(c, g, s.groups[g].price.value));
  }

  lemma {:induction false} StaysCore(c: Config, s: State, a: Action)
    requires Core(c, s) && Legal(c, s, a)
    ensures Core(c, After(c, s, a)) && Shaped(c, After(c, s, a))
  {
    hide After, InOrder, Spared, Inv;
    StepSafe(c, s, a);
  }

  // ---------------------------------------------------------------------------------------------------------
  // Payouts
  // ---------------------------------------------------------------------------------------------------------

  ghost predicate PaidOnce(c: Config, s: State, a: Action, g: Gid)
    requires Shaped(c, s) && Legal(c, s, a)
  {
    Pays(c, a, g) && Step(c, s, a).Done?
  }

  /** A payout takes its claim with it and rounds down, by less than a native unit. */
  lemma {:induction false} ShareSpares(pool: int, owing: int, pay: int, claim: int, ratio: int)
    requires PaysShare(pay, claim, ratio, Scale(DEC))
    ensures var before, after := pool * (Scale(DEC) * WAD) - ratio * owing,
                                 (pool - pay) * (Scale(DEC) * WAD) - ratio * (owing - claim);
      before <= after < before + Scale(DEC) * WAD
  {
    hide Scale;
    var scale := Scale(DEC) * WAD;
    assert (pool - pay) * scale == pool * scale - pay * scale;
    assert ratio * (owing - claim) == ratio * owing - claim * ratio;
  }

  lemma {:induction false} RedeemSpares(c: Config, s: State, o: Owner, sid: Sid, q: int, g: Gid)
    requires Paying(c, s, g) && Legal(c, s, RedeemWrapper(o, sid, q)) && c.series[sid].group == g
    requires Redeem(c, s, o, sid, q).Done?
    ensures var s' := Redeem(c, s, o, sid, q).next;
      && g in s'.groups && s'.groups[g].price == s.groups[g].price && s'.groups[g].ratio == s.groups[g].ratio
      && s'.groups[g].price.Some? && s'.groups[g].ratio.Some?
      && Spare(c, s, g) <= Spare(c, s', g) < Spare(c, s, g) + Scale(DEC) * WAD
  {
    hide Core, PaysShare, Payout, Give, TotalClaim, Units, Scale, InOrder, EntryRises, IntrinsicInt;
    var s', x := Redeem(c, s, o, sid, q).next, s.groups[g];
    RedeemDoes(c, s, o, sid, q);
    BurnedClaim(c, s.wr, o, sid, q, g, x.price.value);
    ShareSpares(x.pool, Owing(c, s, g), s'.usdc[o] - s.usdc[o], TokenClaim(c.series[sid], q, x.price.value),
      x.ratio.value);
  }

  lemma {:induction false} ClaimSpares(c: Config, s: State, aid: Aid, g: Gid)
    requires Paying(c, s, g) && Legal(c, s, ClaimSettlement(aid, g)) && ClaimCredit(c, s, aid, g).Done?
    ensures var s' := ClaimCredit(c, s, aid, g).next;
      && g in s'.groups && s'.groups[g].price == s.groups[g].price && s'.groups[g].ratio == s.groups[g].ratio
      && s'.groups[g].price.Some? && s'.groups[g].ratio.Some?
      && Spare(c, s, g) <= Spare(c, s', g) < Spare(c, s, g) + Scale(DEC) * WAD
  {
    hide Core, PaysShare, Payout, TotalClaim, Units, Scale, InOrder, Sum;
    var s', x := ClaimCredit(c, s, aid, g).next, s.groups[g];
    ClaimDoes(c, s, aid, g);
    UnclaimedSplit(x, aid);
    ShareSpares(x.pool, Owing(c, s, g), s'.cash[aid] - s.cash[aid], x.credits[aid], x.ratio.value);
  }

  /** One action: what is spare only grows, by less than a native unit for a payout and not at all otherwise. */
  lemma {:induction false} StepSpare(c: Config, s: State, a: Action, g: Gid)
    requires Paying(c, s, g) && Legal(c, s, a)
    ensures Paying(c, After(c, s, a), g)
    ensures Spare(c, s, g) <= Spare(c, After(c, s, a), g)
      <= Spare(c, s, g) + if PaidOnce(c, s, a, g) then Scale(DEC) * WAD else 0
  {
    hide Core, Shaped, Spare, Redeem, ClaimCredit, Scale;
    StaysCore(c, s, a);
    if Pays(c, a, g) {
      match a
      case RedeemWrapper(o, sid, q) =>
        if Redeem(c, s, o, sid, q).Done? {
          RedeemSpares(c, s, o, sid, q, g);
        }
      case ClaimSettlement(aid, h) =>
        if ClaimCredit(c, s, aid, h).Done? {
          ClaimSpares(c, s, aid, h);
        }
    } else {
      OtherSpare(c, s, a, g);
    }
  }

  // ---------------------------------------------------------------------------------------------------------
  // Runs
  // ---------------------------------------------------------------------------------------------------------

  /** How many payouts of the group a run makes. */
  ghost function TimesPaid(c: Config, s: State, actions: seq<Action>, g: Gid): nat
    requires CanRun(c, s, actions)
    decreases |actions|
  {
    if actions == [] then 0
    else (if PaidOnce(c, s, actions[0], g) then 1 else 0) + TimesPaid(c, After(c, s, actions[0]), actions[1..], g)
  }

  lemma {:induction false} RunSpare(c: Config, s: State, actions: seq<Action>, g: Gid)
    requires Paying(c, s, g) && CanRun(c, s, actions)
    ensures Paying(c, End(c, s, actions), g)
    ensures Spare(c, s, g) <= Spare(c, End(c, s, actions), g)
      <= Spare(c, s, g) + TimesPaid(c, s, actions, g) * (Scale(DEC) * WAD)
    decreases |actions|
  {
    hide Core, Shaped, Spare, Scale, After, PaidOnce, Legal, Paying;
    if actions != [] {
      var s' := After(c, s, actions[0]);
      StepSpare(c, s, actions[0], g);
      RunSpare(c, s', actions[1..], g);
      OneMore(TimesPaid(c, s', actions[1..], g), Scale(DEC) * WAD);
    }
  }

  lemma {:induction false} OneMore(n: nat, scale: int)
    ensures (1 + n) * scale == scale + n * scale && 0 * scale == 0
  {
  }

  /** Every token of the group is redeemed and every credit claimed. */
  ghost predicate AllPaid(c: Config, s: State, g: Gid)
    requires g in s.groups
  {
    (forall sid :: sid in SeriesOf(c, g) ==> Held(s.wr, sid) == 0) && s.groups[g].credits.Keys <= s.groups[g].claimed
  }

  lemma {:induction false} NothingOwed(c: Config, s: State, g: Gid)
    requires g in s.groups && s.groups[g].price.Some? && AllPaid(c, s, g)
    ensures Owing(c, s, g) == 0
  {
    var x := s.groups[g];
    var units := Units(c, g, x.price.value);
    ClaimsByColumn(s.wr, units);
    SumZero(ByColumn(s.wr, units));
    SumZero(x.credits - x.claimed);
  }

  /** What a group owes when its ratio is fixed is the gross claim. */
  lemma {:induction false} OwesGross(c: Config, s: State, g: Gid)
    requires Core(c, s) && g in c.groups && ComputeRatio(c, s, g).Done?
    ensures var s', x := ComputeRatio(c, s, g).next, s.groups[g];
      && Paying(c, s', g) && x.price.Some? && Owing(c, s', g) == GrossClaim(c, x, g)
      && 0 <= GrossClaim(c, x, g) <= (x.collected + x.unpaid) * Scale(DEC)
  {
    hide GroupsCore, Balanced, WholeLots, RatioOf, InsuranceDraw, RatioChecked, Holders, TotalClaim, GrossClaim, Units;
    hide CeilDiv, Scale, NoNegativeWrapper;
    var x := s.groups[g];
    StaysCore(c, s, FixRatio(g));
    CoreGroup(c, s, g);
    GrossIsCovered(c, s, g);
    CeilAtMost(GrossClaim(c, x, g), Scale(DEC), x.collected + x.unpaid);
    assert x.credits - x.claimed == x.credits;
  }

  lemma {:induction false} LeftAtMost(left: int, n: nat, pool: int, ratio: int, gross: int, debts: int, d: int)
    requires 0 < d && left * (d * WAD) <= pool * (d * WAD) - ratio * gross + n * (d * WAD)
    requires pool * d * WAD < (ratio + 1) * gross && gross <= debts * d
    ensures (left - n) * WAD < debts
  {
    assert (left - n) * WAD * d < gross by {
      assert (left - n) * WAD * d == left * (d * WAD) - n * (d * WAD);
      assert pool * d * WAD == pool * (d * WAD);
    }
    if debts <= (left - n) * WAD {
      MulAtMost(debts, (left - n) * WAD, d);
    }
  }

  /**
   * After a shortfall, once everything is redeemed and claimed, what is left in the pool is less than a native unit per
   * payout and one part in 10^18 of all debts of the group.
   */
  lemma {:induction false} NothingStranded(c: Config, s: State, g: Gid, actions: seq<Action>)
    requires Core(c, s) && g in c.groups && ComputeRatio(c, s, g).Done?
    requires CanRun(c, ComputeRatio(c, s, g).next, actions)
    ensures var s', x := ComputeRatio(c, s, g).next, s.groups[g];
      var t := End(c, s', actions);
      && g in s'.groups && s'.groups[g].ratio.Some? && g in t.groups
      && (s'.groups[g].ratio.value < WAD && AllPaid(c, t, g) ==>
            (t.groups[g].pool - TimesPaid(c, s', actions, g)) * WAD < x.collected + x.unpaid)
  {
    hide Core, Shaped, CanRun, End, Scale, Owing, ComputeRatio, AllPaid, Claim, Units;
    CoreShaped(c, s);
    var s', x := ComputeRatio(c, s, g).next, s.groups[g];
    OwesGross(c, s, g);
    var t := End(c, s', actions);
    RunSpare(c, s', actions, g);
    if s'.groups[g].ratio.value < WAD && AllPaid(c, t, g) {
      ComputeRatioDoes(c, s, g);
      NothingOwed(c, t, g);
      LeftAtMost(t.groups[g].pool, TimesPaid(c, s', actions, g), s'.groups[g].pool, s'.groups[g].ratio.value,
        GrossClaim(c, x, g), x.collected + x.unpaid, Scale(DEC));
    }
  }
}
