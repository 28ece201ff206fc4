/** Before settlement: every trading action keeps the invariant and moves money without creating or losing any. */
module Trading {
  import opened Basics
  import opened Sums
  import opened Tables
  import opened Clearing
  import opened Invariant

  // ---------------------------------------------------------------------------------------------------------
  // What all trades share
  // ---------------------------------------------------------------------------------------------------------

  ghost predicate SameOutside<K>(table: map<K, Row>, table': map<K, Row>, sids: set<Sid>) {
    && table.Keys == table'.Keys
    && forall k, sid :: k in table && sid !in sids ==> Get(table'[k], sid) == Get(table[k], sid)
  }

  ghost predicate Open(c: Config, s: State, sid: Sid)
    requires Shaped(c, s)
  {
    sid in c.series && s.groups[c.series[sid].group].price.None?
  }

  /** Only series of unfinalized groups move, and what accounts lose wrappers gain. */
  ghost predicate Traded(c: Config, s: State, s': State, sids: set<Sid>)
    requires Shaped(c, s)
  {
    && s'.groups == s.groups && s'.now == s.now
    && (forall sid :: sid in sids ==> Open(c, s, sid))
    && SameOutside(s.bal, s'.bal, sids) && SameOutside(s.wr, s'.wr, sids)
    && forall sid :: sid in sids ==> Held(s'.bal, sid) + Held(s'.wr, sid) == Held(s.bal, sid) + Held(s.wr, sid)
  }

  lemma {:induction false} TradeKeepsInv(c: Config, s: State, s': State, sids: set<Sid>)
    requires Core(c, s) && Traded(c, s, s', sids)
    requires Shaped(c, s') && WholeLots(c.lot, s'.bal) && NoNegativeWrapper(s'.wr) && FundsOk(s')
    ensures Core(c, s')
    ensures (OthersOk(c, s) ==> OthersOk(c, s')) ==> Harmless(c, s, s')
    ensures Inv(c, s) && CashOk(s') ==> Inv(c, s')
  {
    forall g | g in s'.groups ensures GroupCore(c, g, s'.groups[g], s'.bal, s'.wr, s'.now) {
      TradeKeepsGroup(c, s, s', sids, g);
    }
    forall g | g in s'.groups && InOrder(c, s, g) ensures InOrder(c, s', g) {
      TradeKeepsGroup(c, s, s', sids, g);
    }
    TradeKeepsBalance(c, s, s', sids);
  }

  lemma {:induction false} TradeKeepsBalance(c: Config, s: State, s': State, sids: set<Sid>)
    requires Shaped(c, s) && Balanced(c, s) && Traded(c, s, s', sids) && Shaped(c, s')
    ensures Balanced(c, s')
  {
    hide Held;
    forall sid | sid in c.series && s'.groups[c.series[sid].group].price.None?
      ensures Held(s'.bal, sid) + Held(s'.wr, sid) == 0
    {
      assert Held(s.bal, sid) + Held(s.wr, sid) == 0;
      if sid !in sids {
        SameInHeld(s.bal, s'.bal, {sid});
        SameInHeld(s.wr, s'.wr, {sid});
        assert sid in {sid};
      }
    }
  }

  lemma {:induction false} TradeKeepsGroup(c: Config, s: State, s': State, sids: set<Sid>, g: Gid)
    requires Core(c, s) && Traded(c, s, s', sids) && g in s.groups
    requires Shaped(c, s')
    ensures GroupCore(c, g, s'.groups[g], s'.bal, s'.wr, s'.now)
    ensures InOrder(c, s, g) ==> InOrder(c, s', g)
  {
    assert GroupCore(c, g, s.groups[g], s.bal, s.wr, s.now);
    if s.groups[g].price.Some? {
      assert forall sid :: sid in sids ==> Open(c, s, sid) && c.series[sid].group != g;
      SameInHeld(s.wr, s'.wr, SeriesOf(c, g));
    }
    SameGroup(c, g, s.groups[g], s.bal, s.wr, s.now, s'.bal, s'.wr, s'.now);
  }

  /** A series that can still be traded belongs to a group without a price: time has not reached its expiry. */
  lemma {:induction false} ActiveIsOpen(c: Config, s: State, sid: Sid)
    requires Core(c, s) && sid in c.series && Active(c, s.now, sid)
    ensures Open(c, s, sid)
  {
    var g := c.series[sid].group;
    assert GroupCore(c, g, s.groups[g], s.bal, s.wr, s.now);
  }

  /** The balance of `aid` becomes `v`, and wallet `o` gets `q` wrapper tokens for what the balance lost. */
  ghost predicate Swapped(c: Config, s: State, s': State, aid: Aid, o: Owner, sid: Sid, v: int, q: int)
    requires Shaped(c, s)
  {
    && Known(c, aid, sid) && o in c.wallets
    && s'.groups == s.groups && s'.now == s.now && s'.usdc.Keys == s.usdc.Keys && s'.cash.Keys == s.cash.Keys
    && s'.bal == SetBalance(s.bal, aid, sid, v)
    && s'.wr == Give(s.wr, o, sid, q)
    && v + q == Get(s.bal[aid], sid)
  }

  lemma {:induction false} SetBalanceEntry(bal: map<Aid, Row>, aid: Aid, sid: Sid, v: int)
    requires aid in bal
    ensures OneEntry(bal, SetBalance(bal, aid, sid, v), aid, sid, v)
  {
  }

  lemma {:induction false} SetBalanceKeepsLots(lot: nat, bal: map<Aid, Row>, aid: Aid, sid: Sid, v: int)
    requires 0 < lot && WholeLots(lot, bal) && aid in bal && IsLots(lot, v)
    ensures WholeLots(lot, SetBalance(bal, aid, sid, v))
  {
    var bal' := SetBalance(bal, aid, sid, v);
    forall a, t | a in bal' && t in bal'[a] ensures bal'[a][t] != 0 && IsLots(lot, bal'[a][t]) {
      if a != aid || t != sid {
        assert IsLots(lot, bal[a][t]);
      }
    }
  }

  lemma {:induction false} GiveEntry(wr: map<Owner, Row>, o: Owner, sid: Sid, q: int)
    requires o in wr
    ensures OneEntry(wr, Give(wr, o, sid, q), o, sid, Get(wr[o], sid) + q)
  {
  }

  lemma {:induction false} GiveNonNegative(wr: map<Owner, Row>, o: Owner, sid: Sid, q: int)
    requires NoNegativeWrapper(wr) && o in wr && 0 <= Get(wr[o], sid) + q
    ensures NoNegativeWrapper(Give(wr, o, sid, q))
  {
  }

  lemma {:induction false} LotsOf(lot: nat, m: int)
    requires 0 < lot
    ensures IsLots(lot, m * lot)
  {
    FloorBounds(m * lot, lot);
    AtMostFloor(m, m * lot, lot);
    AtMostFloor(m + 1, m * lot, lot);
  }

  lemma {:induction false} LotsAdd(lot: nat, a: int, b: int)
    requires 0 < lot && IsLots(lot, a) && IsLots(lot, b)
    ensures IsLots(lot, a + b)
  {
    var m, n := a / lot, b / lot;
    assert a == m * lot && b == n * lot;
    assert a + b == (m + n) * lot;
    LotsOf(lot, m + n);
  }

  lemma {:induction false} LotsNegate(lot: nat, a: int)
    requires 0 < lot && IsLots(lot, a)
    ensures IsLots(lot, -a)
  {
    var m := a / lot;
    assert a == m * lot;
    assert -a == (-m) * lot;
    LotsOf(lot, -m);
  }

  lemma {:induction false} SwapIsTrade(c: Config, s: State, s': State, aid: Aid, o: Owner, sid: Sid, v: int, q: int)
    requires Shaped(c, s) && Swapped(c, s, s', aid, o, sid, v, q) && Open(c, s, sid)
    ensures Shaped(c, s') && Traded(c, s, s', {sid})
  {
    SetBalanceEntry(s.bal, aid, sid, v);
    OneEntryHeld(s.bal, s'.bal, aid, sid, v);
    GiveEntry(s.wr, o, sid, q);
    OneEntryHeld(s.wr, s'.wr, o, sid, Get(s.wr[o], sid) + q);
  }

  lemma {:induction false} RowsStayShaped(c: Config, s: State, o: Owner, aid: Aid, sid: Sid, q: int)
    requires Shaped(c, s) && aid in c.owner && o in c.wallets && sid in c.series
    ensures Shaped(c, s.(bal := SetBalance(s.bal, aid, sid, Get(s.bal[aid], sid) - q), wr := Give(s.wr, o, sid, q)))
  {
    hide Give, SetBalance;
    BalancesStayShaped(c, s, aid, sid, Get(s.bal[aid], sid) - q);
    WrappersStayShaped(c, s, o, sid, q);
  }

  lemma {:induction false} BalancesStayShaped(c: Config, s: State, aid: Aid, sid: Sid, v: int)
    requires Shaped(c, s) && aid in c.owner && sid in c.series
    ensures Shaped(c, s.(bal := SetBalance(s.bal, aid, sid, v)))
  {
  }

  lemma {:induction false} WrappersStayShaped(c: Config, s: State, o: Owner, sid: Sid, q: int)
    requires Shaped(c, s) && o in c.wallets && sid in c.series
    ensures Shaped(c, s.(wr := Give(s.wr, o, sid, q)))
  {
  }

  lemma {:induction false} BalanceIsLots(lot: nat, bal: map<Aid, Row>, aid: Aid, sid: Sid)
    requires 0 < lot && WholeLots(lot, bal) && aid in bal
    ensures IsLots(lot, Get(bal[aid], sid))
  {
  }

  lemma {:induction false} SwapKeepsInv(c: Config, s: State, s': State, aid: Aid, o: Owner, sid: Sid, v: int, q: int)
    requires Core(c, s) && Swapped(c, s, s', aid, o, sid, v, q)
    requires Open(c, s, sid) && IsLots(c.lot, v) && 0 <= Get(s.wr[o], sid) + q && FundsOk(s')
    requires (OthersOk(c, s) ==> OthersOk(c, s')) && (CashOk(s) ==> CashOk(s'))
    ensures Core(c, s') && Harmless(c, s, s') && (Inv(c, s) ==> Inv(c, s'))
  {
    SwapIsTrade(c, s, s', aid, o, sid, v, q);
    SetBalanceKeepsLots(c.lot, s.bal, aid, sid, v);
    GiveNonNegative(s.wr, o, sid, q);
    TradeKeepsInv(c, s, s', {sid});
  }

  /** Cash moved between an account and its owner's wallet. */
  lemma {:induction false} CashMoveKeepsInv(c: Config, s: State, s': State, aid: Aid, x: int)
    requires Core(c, s) && aid in c.owner
    requires var o := c.owner[aid];
      && s' == s.(usdc := s.usdc[o := s.usdc[o] - x], cash := s.cash[aid := s.cash[aid] + x])
      && (x <= s.usdc[o] || x <= 0) && (-x <= s.cash[aid] || 0 <= x)
    ensures Kept(c, s, s')
  {
    hide Money, Balanced, GroupsCore, InOrder, WholeLots, NoNegativeWrapper;
    CashMoveMoney(s, s', aid, c.owner[aid], x);
    TradeKeepsInv(c, s, s', {});
  }

  lemma {:induction false} CashMoveMoney(s: State, s': State, aid: Aid, o: Owner, x: int)
    requires aid in s.cash && o in s.usdc
    requires s' == s.(usdc := s.usdc[o := s.usdc[o] - x], cash := s.cash[aid := s.cash[aid] + x])
    ensures Money(s') == Money(s)
  {
    SumPut(s.usdc, o, s.usdc[o] - x);
    SumPut(s.cash, aid, s.cash[aid] + x);
  }

  // ---------------------------------------------------------------------------------------------------------
  // The actions
  // ---------------------------------------------------------------------------------------------------------

  lemma {:induction false} DepositSafe(c: Config, s: State, aid: Aid, amt: int)
    requires Core(c, s) && aid in c.owner
    ensures var r := Deposit(c, s, aid, amt);
      r.Done? ==> Kept(c, s, r.next)
  {
    hide RiskAt, Tolerated;
    var r := Deposit(c, s, aid, amt);
    if r.Done? {
      CashMoveKeepsInv(c, s, r.next, aid, amt);
    }
  }

  lemma {:induction false} WithdrawSafe(c: Config, s: State, aid: Aid, amt: int)
    requires Core(c, s) && aid in c.owner
    ensures var r := Withdraw(c, s, aid, amt);
      r.Done? ==> Kept(c, s, r.next)
  {
    hide RiskAt, FreshFor, Healthy;
    var r := Withdraw(c, s, aid, amt);
    if r.Done? {
      CashMoveKeepsInv(c, s, r.next, aid, -amt);
    }
  }

  /** INV-9: no part of a fee is negative, the treasury's rest for every fee exactly when the shares fit into it. */
  lemma {:induction false} FeeSplit(insBps: nat, keeperBps: nat)
    ensures forall fee: int {:trigger Share(fee, insBps), Share(fee, keeperBps)} :: 0 <= fee ==>
      0 <= Share(fee, insBps) && 0 <= Share(fee, keeperBps)
    ensures (forall fee: int {:trigger Share(fee, insBps), Share(fee, keeperBps)} ::
               0 <= fee ==> 0 <= fee - Share(fee, insBps) - Share(fee, keeperBps)) <==> insBps + keeperBps <= BPS
  {
    forall fee: int | 0 <= fee
      ensures 0 <= Share(fee, insBps) && 0 <= Share(fee, keeperBps)
      ensures insBps + keeperBps <= BPS ==> 0 <= fee - Share(fee, insBps) - Share(fee, keeperBps)
    {
      ShareBounds(fee, insBps);
      ShareBounds(fee, keeperBps);
      if insBps + keeperBps <= BPS {
        MulAtMost(insBps + keeperBps, BPS, fee);
        Distribute(insBps, keeperBps, fee);
      }
    }
    assert Share(BPS, insBps) == insBps && Share(BPS, keeperBps) == keeperBps;
  }

  lemma {:induction false} ShareBounds(fee: int, bps: nat)
    requires 0 <= fee
    ensures 0 <= Share(fee, bps) && Share(fee, bps) * BPS <= fee * bps
  {
    MulAtMost(0, fee, bps);
    FloorBounds(fee * bps, BPS);
  }

  lemma {:induction false} FeeShares(fee: int)
    requires 0 <= fee
    ensures 0 <= FeeToInsurance(fee) && 0 <= FeeToKeeper(fee) && 0 <= fee - FeeToInsurance(fee) - FeeToKeeper(fee)
  {
    FeeSplit(INSURANCE_BPS, KEEPER_BPS);
  }

  lemma {:induction false} MintFeePositive(c: Config, s: State, sid: Sid, q: int)
    requires sid in c.series && c.series[sid].group in c.groups
    ensures MIN_FEE <= MintFee(c, s, sid, q)
  {
  }

  lemma {:induction false} MintSafe(c: Config, s: State, aid: Aid, sid: Sid, q: int, to: Owner)
    requires Core(c, s) && Known(c, aid, sid) && to in c.wallets
    ensures var r := Mint(c, s, aid, sid, q, to);
      r.Done? ==> Kept(c, s, r.next)
  {
    hide RiskAt, FreshFor, MintFee, IsLots, Healthy, SetBalance, Give;
    var r := Mint(c, s, aid, sid, q, to);
    if r.Done? {
      var fee := MintFee(c, s, sid, q);
      MintFeePositive(c, s, sid, q);
      FeeShares(fee);
      SumPut(s.cash, aid, s.cash[aid] - fee);
      ActiveIsOpen(c, s, sid);
      SwapKeepsInv(c, s, r.next, aid, to, sid, Get(s.bal[aid], sid) - q, q);
    }
  }

  lemma {:induction false} UnwrapSafe(c: Config, s: State, owner: Owner, aid: Aid, sid: Sid, q: int)
    requires Core(c, s) && Known(c, aid, sid) && owner in c.wallets
    ensures var r := Unwrap(c, s, owner, aid, sid, q);
      r.Done? ==> Kept(c, s, r.next)
  {
    hide RaiseTolerated, IsLots, SetBalance, Give;
    var r := Unwrap(c, s, owner, aid, sid, q);
    if r.Done? {
      ActiveIsOpen(c, s, sid);
      SwapKeepsInv(c, s, r.next, aid, owner, sid, Get(s.bal[aid], sid) + q, -q);
    }
  }

  lemma {:induction false} WrapSafe(c: Config, s: State, aid: Aid, sid: Sid, q: int, to: Owner)
    requires Core(c, s) && Known(c, aid, sid) && to in c.wallets
    ensures var r := Wrap(c, s, aid, sid, q, to);
      r.Done? ==> Kept(c, s, r.next)
  {
    hide RiskAt, FreshFor, IsLots, Healthy, SetBalance, Give;
    var r := Wrap(c, s, aid, sid, q, to);
    if r.Done? {
      ActiveIsOpen(c, s, sid);
      SwapKeepsInv(c, s, r.next, aid, to, sid, Get(s.bal[aid], sid) - q, q);
    }
  }

  lemma {:induction false} CloseWithWrapperSafe(c: Config, s: State, owner: Owner, aid: Aid, sid: Sid, q: int)
    requires Core(c, s) && Known(c, aid, sid) && owner in c.wallets
    ensures var r := CloseWithWrapper(c, s, owner, aid, sid, q);
      r.Done? ==> Kept(c, s, r.next)
  {
    hide RaiseTolerated, IsLots, SetBalance, Give;
    var r := CloseWithWrapper(c, s, owner, aid, sid, q);
    if r.Done? {
      SwapKeepsInv(c, s, r.next, aid, owner, sid, Get(s.bal[aid], sid) + q, -q);
    }
  }

  lemma {:induction false} CloseInternalSafe(c: Config, s: State, frm: Aid, to: Aid, sid: Sid, q: int)
    requires Core(c, s) && Known(c, frm, sid) && to in c.owner
    ensures var r := CloseInternal(c, s, frm, to, sid, q);
      r.Done? ==> Kept(c, s, r.next)
  {
    hide RiskAt, FreshFor, RaiseTolerated, IsLots, SetBalance, Healthy;
    var r := CloseInternal(c, s, frm, to, sid, q);
    if r.Done? {
      InternalIsTrade(c, s, r.next, frm, to, sid, q);
      InternalKeepsLots(c, s, frm, to, sid, q);
      TradeKeepsInv(c, s, r.next, {sid});
    }
  }

  ghost predicate Internal(c: Config, s: State, s': State, frm: Aid, to: Aid, sid: Sid, q: int)
    requires Shaped(c, s)
  {
    && Known(c, frm, sid) && to in c.owner && frm != to
    && s' == s.(bal := SetBalance(SetBalance(s.bal, frm, sid, Get(s.bal[frm], sid) - q), to, sid,
                                  Get(s.bal[to], sid) + q))
  }

  lemma {:induction false} InternalIsTrade(c: Config, s: State, s': State, frm: Aid, to: Aid, sid: Sid, q: int)
    requires Shaped(c, s) && Internal(c, s, s', frm, to, sid, q) && Open(c, s, sid)
    ensures Shaped(c, s') && Traded(c, s, s', {sid})
  {
    InternalEntries(s.bal, frm, to, sid, q);
  }

  lemma {:induction false} InternalEntries(bal: map<Aid, Row>, frm: Aid, to: Aid, sid: Sid, q: int)
    requires frm in bal && to in bal && frm != to
    ensures var bal' := SetBalance(SetBalance(bal, frm, sid, Get(bal[frm], sid) - q), to, sid, Get(bal[to], sid) + q);
      SameOutside(bal, bal', {sid}) && Held(bal', sid) == Held(bal, sid)
  {
    var a, b := Get(bal[frm], sid) - q, Get(bal[to], sid) + q;
    var mid := SetBalance(bal, frm, sid, a);
    SetBalanceEntry(bal, frm, sid, a);
    OneEntryHeld(bal, mid, frm, sid, a);
    SetBalanceEntry(mid, to, sid, b);
    OneEntryHeld(mid, SetBalance(mid, to, sid, b), to, sid, b);
  }

  lemma {:induction false} InternalKeepsLots(c: Config, s: State, frm: Aid, to: Aid, sid: Sid, q: int)
    requires Shaped(c, s) && WholeLots(c.lot, s.bal) && Known(c, frm, sid) && to in c.owner
    requires IsLots(c.lot, Get(s.bal[frm], sid) - q) && IsLots(c.lot, Get(s.bal[to], sid) + q)
    ensures WholeLots(c.lot,
      SetBalance(SetBalance(s.bal, frm, sid, Get(s.bal[frm], sid) - q), to, sid, Get(s.bal[to], sid) + q))
  {
    hide IsLots, SetBalance, Put, Get;
    var a := Get(s.bal[frm], sid) - q;
    SetBalanceKeepsLots(c.lot, s.bal, frm, sid, a);
    SetBalanceEntry(s.bal, frm, sid, a);
    SetBalanceKeepsLots(c.lot, SetBalance(s.bal, frm, sid, a), to, sid, Get(s.bal[to], sid) + q);
  }

  lemma {:induction false} TransferWrapperSafe(c: Config, s: State, frm: Owner, to: Owner, sid: Sid, q: int)
    requires Core(c, s) && frm in c.wallets && to in c.wallets && sid in c.series
    ensures var r := TransferWrapper(c, s, frm, to, sid, q);
      r.Done? ==> Kept(c, s, r.next)
  {
    var r := TransferWrapper(c, s, frm, to, sid, q);
    if r.Done? {
      TransferKeepsHeld(s.wr, frm, to, sid, q);
      GiveNonNegative(s.wr, frm, sid, -q);
      GiveNonNegative(Give(s.wr, frm, sid, -q), to, sid, q);
      WrKeepsInv(c, s, r.next);
    }
  }

  lemma {:induction false} TransferKeepsHeld(wr: map<Owner, Row>, frm: Owner, to: Owner, sid: Sid, q: int)
    requires frm in wr && to in wr
    ensures forall t :: Held(Give(Give(wr, frm, sid, -q), to, sid, q), t) == Held(wr, t)
  {
    var mid := Give(wr, frm, sid, -q);
    GiveEntry(wr, frm, sid, -q);
    OneEntryHeld(wr, mid, frm, sid, Get(wr[frm], sid) - q);
    GiveEntry(mid, to, sid, q);
    OneEntryHeld(mid, Give(mid, to, sid, q), to, sid, Get(mid[to], sid) + q);
  }

  /** Wrapper tokens change hands, also of finalized groups: no supply moves. */
  lemma {:induction false} WrKeepsInv(c: Config, s: State, s': State)
    requires Core(c, s) && s' == s.(wr := s'.wr) && Shaped(c, s') && NoNegativeWrapper(s'.wr)
    requires forall sid :: Held(s'.wr, sid) == Held(s.wr, sid)
    ensures Core(c, s') && Harmless(c, s, s') && (Inv(c, s) ==> Inv(c, s'))
  {
    FrameKeepsGroups(c, s, s');
  }

  /** Nothing moves but wrapper tokens between wallets, prices and time. */
  lemma {:induction false} FrameKeepsGroups(c: Config, s: State, s': State)
    requires Core(c, s) && Shaped(c, s') && s'.groups == s.groups && s'.bal == s.bal && s.now <= s'.now
    requires forall sid :: Held(s'.wr, sid) == Held(s.wr, sid)
    ensures GroupsCore(c, s')
    ensures forall g :: g in s.groups && InOrder(c, s, g) ==> InOrder(c, s', g)
  {
    forall g | g in s.groups
      ensures GroupCore(c, g, s'.groups[g], s'.bal, s'.wr, s'.now) && (InOrder(c, s, g) ==> InOrder(c, s', g))
    {
      assert GroupCore(c, g, s.groups[g], s.bal, s.wr, s.now);
      SameGroup(c, g, s.groups[g], s.bal, s.wr, s.now, s'.bal, s'.wr, s'.now);
    }
  }

  /** Prices move as they like and time moves forward. */
  lemma {:induction false} MarketMoveSafe(c: Config, s: State, now: int, prices: Prices)
    requires Core(c, s) && s.now <= now
    ensures Kept(c, s, s.(now := now, prices := prices))
  {
    FrameKeepsGroups(c, s, s.(now := now, prices := prices));
  }
}
