/** From finalization to the last payout: the settlement identity, the recovery ratio and the group's pool. */
module Settlement {
  import opened Basics
  import opened Sums
  import opened Tables
  import opened Clearing
  import opened Invariant
  import opened Trading

  // ---------------------------------------------------------------------------------------------------------
  // What all settlement steps share
  // ---------------------------------------------------------------------------------------------------------

  /** Only group `g` and its series change: what that asks of the group's new record and of the money. */
  lemma {:induction false} GroupStepKeepsInv(c: Config, s: State, s': State, g: Gid)
    requires Core(c, s) && g in s.groups && Shaped(c, s') && s'.now == s.now
    requires s'.groups == s.groups[g := s'.groups[g]] && s'.groups[g].price.Some?
    requires GroupCore(c, g, s'.groups[g], s'.bal, s'.wr, s'.now)
    requires SameOutside(s.bal, s'.bal, SeriesOf(c, g)) && SameOutside(s.wr, s'.wr, SeriesOf(c, g))
    requires WholeLots(c.lot, s'.bal) && NoNegativeWrapper(s'.wr) && FundsOk(s')
    ensures Core(c, s')
    ensures (InOrder(c, s, g) ==> InOrder(c, s', g)) && (Spared(c, s) ==> OthersOk(c, s')) ==> Harmless(c, s, s')
    ensures Inv(c, s) && InOrder(c, s', g) && CashOk(s') ==> Inv(c, s')
    ensures forall h :: h in s.groups && h != g && InOrder(c, s, h) ==> InOrder(c, s', h)
  {
    forall h | h in s'.groups ensures GroupCore(c, h, s'.groups[h], s'.bal, s'.wr, s'.now) {
      if h != g {
        OtherGroup(c, s, s', g, h);
      }
    }
    forall h | h in s'.groups && h != g && InOrder(c, s, h) ensures InOrder(c, s', h) {
      OtherGroup(c, s, s', g, h);
    }
    OtherSeriesBalanced(c, s, s', g);
  }

  lemma {:induction false} OtherSeriesBalanced(c: Config, s: State, s': State, g: Gid)
    requires Shaped(c, s) && Balanced(c, s) && Shaped(c, s') && g in s.groups
    requires s'.groups == s.groups[g := s'.groups[g]] && s'.groups[g].price.Some?
    requires SameOutside(s.bal, s'.bal, SeriesOf(c, g)) && SameOutside(s.wr, s'.wr, SeriesOf(c, g))
    ensures Balanced(c, s')
  {
    forall sid | sid in c.series && s'.groups[c.series[sid].group].price.None?
      ensures Held(s'.bal, sid) + Held(s'.wr, sid) == 0
    {
      assert sid !in SeriesOf(c, g);
      SameInHeld(s.bal, s'.bal, {sid});
      SameInHeld(s.wr, s'.wr, {sid});
    }
  }

  lemma {:induction false} OtherGroup(c: Config, s: State, s': State, g: Gid, h: Gid)
    requires Core(c, s) && h in s.groups && h != g && s'.now == s.now && Shaped(c, s')
    requires SameOutside(s.bal, s'.bal, SeriesOf(c, g)) && SameOutside(s.wr, s'.wr, SeriesOf(c, g))
    requires s'.groups[h] == s.groups[h]
    ensures GroupCore(c, h, s'.groups[h], s'.bal, s'.wr, s'.now)
    ensures InOrder(c, s, h) ==> InOrder(c, s', h)
  {
    assert SeriesOf(c, h) !! SeriesOf(c, g);
    assert GroupCore(c, h, s.groups[h], s.bal, s.wr, s.now);
    SameInHeld(s.wr, s'.wr, SeriesOf(c, h));
    SameGroup(c, h, s.groups[h], s.bal, s.wr, s.now, s'.bal, s'.wr, s'.now);
  }

  lemma {:induction false} UnitNonNegative(c: Config, price: int, sid: Sid)
    requires sid in c.series
    ensures 0 <= UnitOf(c, sid, price)
  {
    MulAtMost(0, IntrinsicInt(c.series[sid], price), c.series[sid].size);
  }

  /** Wrapper claims are never negative. */
  lemma {:induction false} WrappersNonNegative(c: Config, g: Gid, price: int, wr: map<Owner, Row>)
    requires NoNegativeWrapper(wr)
    ensures 0 <= TotalClaim(wr, Units(c, g, price))
  {
    var units := Units(c, g, price);
    forall o | o in wr ensures 0 <= Claim(wr[o], units) {
      RowClaimNonNegative(c, g, price, wr[o]);
    }
    SumNonNegative(Claims(wr, units));
  }

  lemma {:induction false} RowClaimNonNegative(c: Config, g: Gid, price: int, row: Row)
    requires forall sid :: sid in row ==> 0 <= row[sid]
    ensures 0 <= Claim(row, Units(c, g, price))
  {
    var units := Units(c, g, price);
    forall sid | sid in units ensures 0 <= Products(row, units)[sid] {
      UnitNonNegative(c, price, sid);
      MulAtMost(0, Get(row, sid), units[sid]);
    }
    SumNonNegative(Products(row, units));
  }

  // ---------------------------------------------------------------------------------------------------------
  // Finalization
  // ---------------------------------------------------------------------------------------------------------

  /**
   * INV-47, the settlement identity: when a group is finalized, the nets of all accounts and the claims of all wrapper
   * tokens cancel exactly, whatever the price.
   */
  lemma {:induction false} SettlementIdentity(c: Config, s: State, g: Gid, price: int)
    requires Shaped(c, s) && Balanced(c, s) && g in s.groups && s.groups[g].price.None?
    ensures TotalClaim(s.bal, Units(c, g, price)) + TotalClaim(s.wr, Units(c, g, price)) == 0
  {
    var units := Units(c, g, price);
    ClaimsByColumn(s.bal, units);
    ClaimsByColumn(s.wr, units);
    var a, b := ByColumn(s.bal, units), ByColumn(s.wr, units);
    var zero: map<Sid, int> := map sid | sid in units :: 0;
    forall sid | sid in units ensures zero[sid] == a[sid] + b[sid] {
      assert Held(s.bal, sid) + Held(s.wr, sid) == 0;
      Cancel(Held(s.bal, sid), Held(s.wr, sid), units[sid]);
    }
    SumAdd(a, b, zero);
    SumZero(zero);
  }

  lemma {:induction false} Cancel(a: int, b: int, unit: int)
    requires a + b == 0
    ensures a * unit + b * unit == 0
  {
    Distribute(a, b, unit);
  }

  lemma {:induction false} FinalizeSafe(c: Config, s: State, g: Gid, price: int)
    requires Core(c, s) && g in c.groups
    ensures var r := Finalize(c, s, g, price);
      !r.Raised? && (r.Done? ==> Kept(c, s, r.next))
  {
    var r := Finalize(c, s, g, price);
    if r.Done? {
      CoreGroup(c, s, g);
      SettlementIdentity(c, s, g, price);
      FinalizedGroupOk(c, s, g, price);
      PoolsPut(s.groups, g, r.next.groups[g]);
      GroupStepKeepsInv(c, s, r.next, g);
    }
  }

  lemma {:induction false} FinalizedGroupOk(c: Config, s: State, g: Gid, price: int)
    requires Shaped(c, s) && g in s.groups && s.groups[g] == NEW_GROUP && c.groups[g].expiry <= s.now
    requires TotalClaim(s.bal, Units(c, g, price)) + TotalClaim(s.wr, Units(c, g, price)) == 0
    ensures var x := NEW_GROUP.(price := Some(price), snapshot := Snapshot(c, s.wr, g));
      GroupCore(c, g, x, s.bal, s.wr, s.now) && GroupOk(c, g, x, s.bal, s.wr, s.now)
  {
  }

  // ---------------------------------------------------------------------------------------------------------
  // Settling an account
  // ---------------------------------------------------------------------------------------------------------

  lemma {:induction false} OutsideClaim(c: Config, row: Row, g: Gid, price: int)
    ensures Claim(Outside(c, row, g), Units(c, g, price)) == 0 && !HoldsIn(c, Outside(c, row, g), g)
  {
    SumZero(Products(Outside(c, row, g), Units(c, g, price)));
  }

  /** Settling takes the account's net out of the claims still to come and the account off the list. */
  lemma {:induction false} SettledStakes(c: Config, s: State, aid: Aid, g: Gid, price: int)
    requires Shaped(c, s) && aid in c.owner
    ensures var st := StakesOf(c, g, price, s.bal, s.wr);
      StakesOf(c, g, price, s.bal[aid := Outside(c, s.bal[aid], g)], s.wr)
        == st.(accounts := st.accounts - Claim(s.bal[aid], Units(c, g, price)), holders := st.holders - {aid})
  {
    var row := Outside(c, s.bal[aid], g);
    RowTotalClaim(s.bal, aid, row, Units(c, g, price));
    OutsideClaim(c, s.bal[aid], g, price);
    assert Holders(c, s.bal[aid := row], g) == Holders(c, s.bal, g) - {aid};
  }

  lemma {:induction false} SettleFrame(c: Config, s: State, aid: Aid, g: Gid)
    requires Shaped(c, s) && WholeLots(c.lot, s.bal) && aid in c.owner
    ensures var bal' := s.bal[aid := Outside(c, s.bal[aid], g)];
      SameOutside(s.bal, bal', SeriesOf(c, g)) && WholeLots(c.lot, bal')
  {
    var bal' := s.bal[aid := Outside(c, s.bal[aid], g)];
    forall a, sid | a in bal' && sid in bal'[a] ensures bal'[a][sid] != 0 && IsLots(c.lot, bal'[a][sid]) {
      assert IsLots(c.lot, s.bal[a][sid]);
    }
  }

  lemma {:induction false} SettledRecordOk(x: Group, st: Stakes, aid: Aid, n: int, paid: int)
    requires x.price.Some? && x.ratio.None? && RecordOk(x, st) && aid in st.holders
    requires if n < 0 then paid <= CeilDiv(-n, Scale(DEC)) else paid == 0
    ensures RecordOk(Settled(x, aid, n, paid, Scale(DEC)),
      st.(accounts := st.accounts - n, holders := st.holders - {aid}))
  {
    if n < 0 {
      Distribute(x.collected + x.unpaid, CeilDiv(-n, Scale(DEC)), Scale(DEC));
    } else if 0 < n {
      SumPut(x.credits, aid, n);
    }
  }

  lemma {:induction false} SettleSafe(c: Config, s: State, aid: Aid, g: Gid)
    requires Core(c, s) && aid in c.owner && g in c.groups
    ensures var r := Settle(c, s, aid, g);
      !r.Raised? && (r.Done? ==> Kept(c, s, r.next))
  {
    hide Outside, Settled, Units, Money, GroupsCore, Balanced, WholeLots;
    var r := Settle(c, s, aid, g);
    if r.Done? {
      var x := s.groups[g];
      var n := Claim(s.bal[aid], Units(c, g, x.price.value));
      var paid := DebtPaid(n, s.cash[aid], Scale(DEC));
      SettledGroupOk(c, s, aid, g, n, paid);
      SettledPool(x, aid, n, paid);
      SettleMoney(s, r.next, aid, g, paid);
      SettleKeepsInv(c, s, r.next, aid, g, paid);
    }
  }

  lemma {:induction false} SettleMoney(s: State, s': State, aid: Aid, g: Gid, paid: int)
    requires g in s.groups && aid in s.cash
    requires g in s'.groups
    requires s' == s.(bal := s'.bal, cash := s.cash[aid := s.cash[aid] - paid], groups := s.groups[g := s'.groups[g]])
    requires s'.groups[g].pool == s.groups[g].pool + paid
    ensures Money(s') == Money(s)
  {
    PoolsPut(s.groups, g, s'.groups[g]);
    SumPut(s.cash, aid, s.cash[aid] - paid);
  }

  lemma {:induction false} SettleKeepsInv(c: Config, s: State, s': State, aid: Aid, g: Gid, paid: int)
    requires Core(c, s) && aid in c.owner && g in s.groups && g in s'.groups
    requires s' == s.(bal := s.bal[aid := Outside(c, s.bal[aid], g)], cash := s.cash[aid := s.cash[aid] - paid],
                      groups := s.groups[g := s'.groups[g]])
    requires s'.groups[g].price.Some? && s'.groups[g].collected == s.groups[g].collected + paid
    requires GroupCore(c, g, s'.groups[g], s'.bal, s.wr, s.now) && GroupOk(c, g, s'.groups[g], s'.bal, s.wr, s.now)
    requires 0 <= s.cash[aid] ==> 0 <= paid <= s.cash[aid]
    ensures Core(c, s') && Harmless(c, s, s') && (Inv(c, s) ==> Inv(c, s'))
  {
    hide Outside, GroupOk, GroupCore, GroupsCore, GroupsOk, Balanced;
    SettleFrame(c, s, aid, g);
    OutsideKeys(c, s.bal[aid], g);
    GroupStepKeepsInv(c, s, s', g);
  }

  lemma {:induction false} SettledPool(x: Group, aid: Aid, n: int, paid: int)
    requires n < 0 || paid == 0
    ensures var x' := Settled(x, aid, n, paid, Scale(DEC));
      && x'.pool == x.pool + paid && x'.collected == x.collected + paid
      && x'.price == x.price && x'.ratio == x.ratio
  {
  }

  lemma {:induction false} SettledGroupOk(c: Config, s: State, aid: Aid, g: Gid, n: int, paid: int)
    requires Core(c, s) && aid in c.owner && g in c.groups && s.groups[g].price.Some? && HoldsIn(c, s.bal[aid], g)
    requires n == Claim(s.bal[aid], Units(c, g, s.groups[g].price.value))
      && paid == DebtPaid(n, s.cash[aid], Scale(DEC))
    ensures var x, bal := Settled(s.groups[g], aid, n, paid, Scale(DEC)), s.bal[aid := Outside(c, s.bal[aid], g)];
      GroupCore(c, g, x, bal, s.wr, s.now) && GroupOk(c, g, x, bal, s.wr, s.now)
    ensures (0 <= n ==> paid == 0) && (0 <= s.cash[aid] ==> 0 <= paid <= s.cash[aid])
  {
    hide Outside, Units, Settled, RecordOk, StakesOf, DebtPaid, GroupsCore, Balanced, WholeLots, HoldsIn, Holders;
    var x := s.groups[g];
    CoreGroup(c, s, g);
    HolderMeansNoRatio(c, s, aid, g);
    SettledStakes(c, s, aid, g, x.price.value);
    DebtWithinMeans(n, s.cash[aid], Scale(DEC));
    var st := StakesOf(c, g, x.price.value, s.bal, s.wr);
    assert aid in st.holders by { HoldersAtStake(c, g, x.price.value, s.bal, s.wr); }
    SettledRecordOk(x, st, aid, n, paid);
    SettledPool(x, aid, n, paid);
  }

  lemma {:induction false} HoldersAtStake(c: Config, g: Gid, price: int, bal: map<Aid, Row>, wr: map<Owner, Row>)
    ensures StakesOf(c, g, price, bal, wr).holders == Holders(c, bal, g)
  {
  }

  lemma {:induction false} DebtWithinMeans(n: int, cash: int, d: int)
    requires 0 < d
    ensures if n < 0 then DebtPaid(n, cash, d) <= CeilDiv(-n, d) else DebtPaid(n, cash, d) == 0
    ensures 0 <= cash ==> 0 <= DebtPaid(n, cash, d) <= cash
  {
  }

  lemma {:induction false} OutsideKeys(c: Config, row: Row, g: Gid)
    ensures Outside(c, row, g).Keys <= row.Keys
  {
  }

  /** A group with a ratio has nobody left to settle. */
  lemma {:induction false} HolderMeansNoRatio(c: Config, s: State, aid: Aid, g: Gid)
    requires Shaped(c, s) && aid in s.bal && g in s.groups && HoldsIn(c, s.bal[aid], g) && s.groups[g].price.Some?
    requires GroupCore(c, g, s.groups[g], s.bal, s.wr, s.now)
    ensures s.groups[g].ratio.None? && aid in Holders(c, s.bal, g) && aid !in s.groups[g].settled
  {
    assert aid in Holders(c, s.bal, g);
  }

  // ---------------------------------------------------------------------------------------------------------
  // The recovery ratio
  // ---------------------------------------------------------------------------------------------------------

  /** The snapshot's claims are those of the tokens out there. */
  lemma {:induction false} SnapshotClaim(c: Config, g: Gid, price: int, wr: map<Owner, Row>)
    ensures Claim(Snapshot(c, wr, g), Units(c, g, price)) == TotalClaim(wr, Units(c, g, price))
  {
    var units := Units(c, g, price);
    ClaimsByColumn(wr, units);
    assert Products(Snapshot(c, wr, g), units) == ByColumn(wr, units);
  }

  lemma {:induction false} NoHoldersNoClaims(c: Config, g: Gid, price: int, bal: map<Aid, Row>)
    requires Holders(c, bal, g) == {}
    ensures TotalClaim(bal, Units(c, g, price)) == 0
  {
    var units := Units(c, g, price);
    forall a | a in bal ensures Claims(bal, units)[a] == 0 {
      assert a !in Holders(c, bal, g);
      assert forall sid :: sid in units ==> Get(bal[a], sid) == 0;
      SumZero(Products(bal[a], units));
    }
    SumZero(Claims(bal, units));
  }

  /** When everybody has settled: what is owed out, at least zero, is covered by debts found, paid or not. */
  lemma {:induction false} GrossIsCovered(c: Config, s: State, g: Gid)
    requires Shaped(c, s) && NoNegativeWrapper(s.wr) && g in s.groups && s.groups[g].price.Some?
      && s.groups[g].ratio.None?
    requires GroupCore(c, g, s.groups[g], s.bal, s.wr, s.now) && Holders(c, s.bal, g) == {}
    ensures var x := s.groups[g];
      var gross := GrossClaim(c, x, g);
      && gross == TotalClaim(s.wr, Units(c, g, x.price.value)) + Sum(x.credits)
      && 0 <= gross && CeilDiv(gross, Scale(DEC)) <= x.collected + x.unpaid
      && x.pool == x.collected && x.claimed == {}
  {
    hide Scale, Units, CeilDiv, TotalClaim, Claim, Holders;
    var x := s.groups[g];
    var price := x.price.value;
    SnapshotClaim(c, g, price, s.wr);
    NoHoldersNoClaims(c, g, price, s.bal);
    WrappersNonNegative(c, g, price, s.wr);
    SumNonNegative(x.credits);
    CeilAtMost(GrossClaim(c, x, g), Scale(DEC), x.collected + x.unpaid);
  }

  /** A ratio of one is exactly enough native cash for the gross claim rounded up. */
  lemma {:induction false} RatioIsOne(available: int, gross: int, d: int)
    requires 0 <= available && 0 <= gross && 0 < d
    ensures RatioOf(available, gross, d) == WAD <==> CeilDiv(gross, d) <= available
    ensures 0 <= RatioOf(available, gross, d) <= WAD
    ensures RatioOf(available, gross, d) * gross <= available * (d * WAD)
  {
    CeilAtMost(gross, d, available);
    MulAtMost(0, available, d);
    if gross != 0 {
      var total := available * d * WAD;
      AtMostFloor(WAD, total, gross);
      AtMostFloor(0, total, gross);
      AtMostFloor(RatioOf(available, gross, d), total, gross);
      assert total == available * (d * WAD);
    }
  }

  /** A pool that is itself a debt gives a ratio below zero as soon as anything is claimed. */
  lemma {:induction false} RatioIsNegative(available: int, gross: int, d: int)
    requires available < 0 < gross && 0 < d
    ensures RatioOf(available, gross, d) < 0
  {
    MulLess(available, 0, d);
    AtMostFloor(0, available * d * WAD, gross);
  }

  /**
   * INV-29, INV-30: the ratio is never above 1. It is negative exactly when somebody's negative cash was collected,
   * insurance cannot make up for it and there are claims. Otherwise it is 1 if and only if insurance covers what the
   * group lacks; in particular when unpaid debts do not exceed the insurance fund, or there are none.
   */
  lemma {:induction false} RecoveryRatio(c: Config, s: State, g: Gid)
    requires Core(c, s) && g in c.groups
    ensures var r, x := ComputeRatio(c, s, g), s.groups[g];
      r.Done? ==>
        && r.next.groups[g].ratio.Some?
        && var ratio, gross := r.next.groups[g].ratio.value, GrossClaim(c, x, g);
        && ratio <= WAD
        && (0 <= ratio <==> 0 <= x.collected + s.insurance || gross == 0)
        && (0 <= x.collected + s.insurance ==>
              (ratio == WAD <==> CeilDiv(gross, Scale(DEC)) <= x.collected + s.insurance))
        && (x.unpaid <= s.insurance ==> ratio == WAD)
        && r.next.groups[g].pool == x.collected + r.next.groups[g].insurance
        && r.next.groups[g].insurance == s.insurance - r.next.insurance
  {
    hide GrossClaim, RatioOf;
    var r, x := ComputeRatio(c, s, g), s.groups[g];
    if r.Done? {
      CoreGroup(c, s, g);
      GrossIsCovered(c, s, g);
      RatioAt(r.next.groups[g].pool, GrossClaim(c, x, g), Scale(DEC));
    }
  }

  lemma {:induction false} RatioAt(available: int, gross: int, d: int)
    requires 0 <= gross && 0 < d
    ensures RatioOf(available, gross, d) <= WAD
    ensures 0 <= available ==>
      0 <= RatioOf(available, gross, d) && (RatioOf(available, gross, d) == WAD <==> CeilDiv(gross, d) <= available)
    ensures available < 0 && gross == 0 ==> RatioOf(available, gross, d) == WAD
    ensures available < 0 < gross ==> RatioOf(available, gross, d) < 0
    ensures 0 <= CeilDiv(gross, d)
  {
    if 0 <= available {
      RatioIsOne(available, gross, d);
    } else if gross != 0 {
      RatioIsNegative(available, gross, d);
    }
  }

  /**
   * Fixing the ratio keeps core and money. The group's pool covers its claims from then on, exactly when what was
   * collected is not a debt beyond what insurance has: only a liquidator that settled with negative cash can cause one.
   */
  lemma {:induction false} ComputeRatioSafe(c: Config, s: State, g: Gid)
    requires Core(c, s) && g in c.groups
    ensures var r, x := ComputeRatio(c, s, g), s.groups[g];
      && !r.Raised?
      && (r.Done? ==>
            && Core(c, r.next) && Money(r.next) == Money(s) && (Inv(c, s) ==> Inv(c, r.next))
            && (Harmless(c, s, r.next) <==> 0 <= x.collected + s.insurance)
            && (InOrder(c, r.next, g) <==> 0 <= x.collected + s.insurance)
            && (Spared(c, s) ==> (Spared(c, r.next) <==> 0 <= x.collected + s.insurance))
            && forall h :: h in s.groups && h != g && InOrder(c, s, h) ==> InOrder(c, r.next, h))
  {
    hide RatioGroup, GroupOk, GroupCore, GroupsCore, Balanced, WholeLots, NoNegativeWrapper, Holders, RatioChecked;
    hide InsuranceDraw, RatioOf, GrossClaim;
    var r, x := ComputeRatio(c, s, g), s.groups[g];
    if r != Reverted {
      ChecksHold(c, s, g);
    }
    if r.Done? {
      OpenIsInOrder(c, s, g);
      RatioGroupOk(c, s, g);
      PoolsPut(s.groups, g, r.next.groups[g]);
      GroupStepKeepsInv(c, s, r.next, g);
    }
  }

  /** Nothing that is checked where the ratio is fixed can fail, whoever was overdrawn. */
  lemma {:induction false} ChecksHold(c: Config, s: State, g: Gid)
    requires Core(c, s) && g in c.groups && s.groups[g].price.Some? && s.groups[g].ratio.None?
    requires Holders(c, s.bal, g) == {}
    ensures var x := s.groups[g];
      var gross := GrossClaim(c, x, g);
      var ins := InsuranceDraw(gross, x.collected, s.insurance, Scale(DEC));
      RatioChecked(x, ins, RatioOf(x.pool + ins, gross, Scale(DEC)))
  {
    hide GrossClaim, RatioOf, GroupsCore, Balanced, WholeLots, NoNegativeWrapper, Holders, Scale, CeilDiv;
    var x := s.groups[g];
    CoreGroup(c, s, g);
    GrossIsCovered(c, s, g);
    var gross := GrossClaim(c, x, g);
    RatioAt(x.pool + InsuranceDraw(gross, x.collected, s.insurance, Scale(DEC)), gross, Scale(DEC));
  }

  /** The record that fixing the ratio leaves. */
  ghost function RatioGroup(c: Config, s: State, g: Gid): Group
    requires Shaped(c, s) && g in c.groups && s.groups[g].price.Some?
  {
    var x := s.groups[g];
    var gross := GrossClaim(c, x, g);
    var ins := InsuranceDraw(gross, x.collected, s.insurance, Scale(DEC));
    x.(insurance := ins, pool := x.pool + ins, available := x.pool + ins,
       ratio := Some(RatioOf(x.pool + ins, gross, Scale(DEC))))
  }

  lemma {:induction false} OpenIsInOrder(c: Config, s: State, g: Gid)
    requires Core(c, s) && g in s.groups && s.groups[g].ratio.None?
    ensures InOrder(c, s, g)
  {
    hide RecordOk;
    CoreGroup(c, s, g);
  }

  lemma {:induction false} RatioGroupOk(c: Config, s: State, g: Gid)
    requires Core(c, s) && g in c.groups && ComputeRatio(c, s, g).Done?
    ensures var x, x' := s.groups[g], RatioGroup(c, s, g);
      && ComputeRatio(c, s, g).next == s.(insurance := s.insurance - x'.insurance, groups := s.groups[g := x'])
      && 0 <= x'.insurance <= s.insurance && x'.pool == x.pool + x'.insurance
      && x'.price == x.price && x'.collected == x.collected
      && GroupCore(c, g, x', s.bal, s.wr, s.now)
      && (GroupOk(c, g, x', s.bal, s.wr, s.now) <==> 0 <= x.collected + s.insurance)
  {
    hide GrossClaim, RatioOf, Units, GroupsCore, Balanced, WholeLots, RecordOk, CoveredOk, InsuranceDraw, Scale;
    hide NoNegativeWrapper, TotalClaim, RatioChecked;
    var x := s.groups[g];
    CoreGroup(c, s, g);
    GrossIsCovered(c, s, g);
    NoHoldersNoClaims(c, g, x.price.value, s.bal);
    RatioRecord(x, RatioGroup(c, s, g), StakesOf(c, g, x.price.value, s.bal, s.wr), s.insurance);
  }

  lemma {:induction false} RatioRecord(x: Group, x': Group, st: Stakes, insurance: int)
    requires RecordOk(x, st) && x.ratio.None? && st.holders == {} && st.accounts == 0 && 0 <= insurance
    requires var gross := st.wrappers + Sum(x.credits);
      var ins := InsuranceDraw(gross, x.collected, insurance, Scale(DEC));
      && 0 <= gross
      && x' == x.(insurance := ins, pool := x.pool + ins, available := x.pool + ins,
                  ratio := Some(RatioOf(x.pool + ins, gross, Scale(DEC))))
    ensures 0 <= x'.insurance <= insurance
    ensures RecordOk(x', st)
    ensures FinalizedOk(x', st) <==> 0 <= x.collected + insurance
  {
    hide RatioOf;
    var gross := st.wrappers + Sum(x.credits);
    RatioAt(x'.pool, gross, Scale(DEC));
    assert x.credits - x.claimed == x.credits;
    if 0 <= x'.pool {
      RatioIsOne(x'.pool, gross, Scale(DEC));
    }
  }

  // ---------------------------------------------------------------------------------------------------------
  // Payouts
  // ---------------------------------------------------------------------------------------------------------

  /** A payout rounded down is within what the pool holds for its claim, and the pool still covers the rest. */
  lemma {:induction false} PayoutCovered(claim: int, others: int, ratio: int, pool: int, d: int)
    requires 0 <= claim && 0 <= others && 0 <= ratio && 0 < d
    requires ratio * (claim + others) <= pool * (d * WAD)
    ensures 0 <= Payout(claim, ratio, d) <= pool
    ensures ratio * others <= (pool - Payout(claim, ratio, d)) * (d * WAD)
  {
    var pay, scale := Payout(claim, ratio, d), d * WAD;
    MulAtMost(0, claim, ratio);
    MulAtMost(0, others, ratio);
    AtMostFloor(0, claim * ratio, scale);
    AtMostFloor(pay, claim * ratio, scale);
    Distribute(claim, others, ratio);
    assert pay * scale + others * ratio <= pool * scale;
    AtMostOver(pay, pool, scale);
    Distribute(pool, -pay, scale);
  }

  lemma {:induction false} AtMostOver(a: int, b: int, scale: int)
    requires 0 < scale && a * scale <= b * scale
    ensures a <= b
  {
    if b < a {
      MulLess(b, a, scale);
    }
  }

  lemma {:induction false} UnclaimedSplit(x: Group, aid: Aid)
    requires aid in x.credits && aid !in x.claimed
    ensures Sum(x.credits - x.claimed) == x.credits[aid] + Sum(x.credits - (x.claimed + {aid}))
  {
    SumRemove(x.credits - x.claimed, aid);
    assert x.credits - x.claimed - {aid} == x.credits - (x.claimed + {aid});
  }

  /** INV-31: no claim on a group in order can ask for more than the pool holds; the check in the source never fires. */
  lemma {:induction false} ClaimSafe(c: Config, s: State, aid: Aid, g: Gid)
    requires Core(c, s) && aid in c.owner && g in c.groups
    ensures var r := ClaimCredit(c, s, aid, g);
      (InOrder(c, s, g) ==> !r.Raised?) && (r.Done? ==> Kept(c, s, r.next))
  {
    hide Units, Payout, Kept, GroupOk, GroupCore, GroupsCore, GroupsOk, Balanced, WholeLots, NoNegativeWrapper;
    var r, x := ClaimCredit(c, s, aid, g), s.groups[g];
    if x.ratio.Some? && aid in x.credits && aid !in x.claimed {
      CoreGroup(c, s, g);
      var amt := Payout(x.credits[aid], x.ratio.value, Scale(DEC));
      if InOrder(c, s, g) {
        ClaimLeavesCovered(c, s, aid, g);
      }
      if r.Done? {
        ClaimedCore(c, s, aid, g, amt);
        CreditedFromPool(c, s, r.next, aid, g, amt);
      }
    }
  }

  lemma {:induction false} ClaimedCore(c: Config, s: State, aid: Aid, g: Gid, amt: int)
    requires Shaped(c, s) && g in c.groups && GroupCore(c, g, s.groups[g], s.bal, s.wr, s.now)
    requires s.groups[g].ratio.Some? && aid in s.groups[g].credits
    ensures s.groups[g].price.Some?
    ensures var x := s.groups[g];
      GroupCore(c, g, x.(pool := x.pool - amt, claimed := x.claimed + {aid}), s.bal, s.wr, s.now)
  {
    hide Units;
  }

  lemma {:induction false} CreditedFromPool(c: Config, s: State, s': State, aid: Aid, g: Gid, amt: int)
    requires Core(c, s) && aid in c.owner && g in c.groups && s.groups[g].price.Some?
    requires var x := s.groups[g].(pool := s.groups[g].pool - amt, claimed := s.groups[g].claimed + {aid});
      && GroupCore(c, g, x, s.bal, s.wr, s.now)
      && (InOrder(c, s, g) ==> 0 <= amt && GroupOk(c, g, x, s.bal, s.wr, s.now))
      && s' == s.(groups := s.groups[g := x], cash := s.cash[aid := s.cash[aid] + amt])
    ensures Kept(c, s, s')
  {
    hide GroupOk, GroupCore, GroupsCore, Balanced, Money;
    CreditMoney(s, s', aid, g, amt);
    GroupStepKeepsInv(c, s, s', g);
  }

  lemma {:induction false} CreditMoney(s: State, s': State, aid: Aid, g: Gid, amt: int)
    requires aid in s.cash && g in s.groups && g in s'.groups
    requires s' == s.(groups := s.groups[g := s'.groups[g]], cash := s.cash[aid := s.cash[aid] + amt])
    requires s'.groups[g].pool == s.groups[g].pool - amt
    ensures Money(s') == Money(s)
  {
    PoolsPut(s.groups, g, s'.groups[g]);
    SumPut(s.cash, aid, s.cash[aid] + amt);
  }

  lemma {:induction false} ClaimLeavesCovered(c: Config, s: State, aid: Aid, g: Gid)
    requires Shaped(c, s) && NoNegativeWrapper(s.wr) && aid in c.owner && g in c.groups
    requires GroupOk(c, g, s.groups[g], s.bal, s.wr, s.now)
    requires var x := s.groups[g]; x.ratio.Some? && aid in x.credits && aid !in x.claimed
    ensures var x := s.groups[g];
      var amt := Payout(x.credits[aid], x.ratio.value, Scale(DEC));
      && 0 <= amt <= x.pool && x.price.Some?
      && GroupOk(c, g, x.(pool := x.pool - amt, claimed := x.claimed + {aid}), s.bal, s.wr, s.now)
  {
    hide Units, Payout;
    var x := s.groups[g];
    var rest := x.credits - (x.claimed + {aid});
    WrappersNonNegative(c, g, x.price.value, s.wr);
    SumNonNegative(rest);
    UnclaimedSplit(x, aid);
    PayoutCovered(x.credits[aid], TotalClaim(s.wr, Units(c, g, x.price.value)) + Sum(rest), x.ratio.value, x.pool,
      Scale(DEC));
  }

  /** Tokens burned by a redemption take exactly their claim with them. */
  lemma {:induction false} BurnedClaim(c: Config, wr: map<Owner, Row>, o: Owner, sid: Sid, q: int, g: Gid, price: int)
    requires o in wr && sid in SeriesOf(c, g)
    ensures TotalClaim(Give(wr, o, sid, -q), Units(c, g, price))
         == TotalClaim(wr, Units(c, g, price)) - q * UnitOf(c, sid, price)
  {
    hide UnitOf, Claim, TotalClaim, SeriesOf;
    var units, row := Units(c, g, price), wr[o][sid := Get(wr[o], sid) - q];
    assert Give(wr, o, sid, -q) == wr[o := row];
    RowTotalClaim(wr, o, row, units);
    OneEntryClaim(wr[o], row, units, sid);
    Negate(q, units[sid]);
  }

  lemma {:induction false} Negate(q: int, unit: int)
    ensures (-q) * unit == -(q * unit)
  {
  }

  lemma {:induction false} BurnedSupply(c: Config, wr: map<Owner, Row>, o: Owner, sid: Sid, q: int, g: Gid)
    requires o in wr && sid in SeriesOf(c, g)
    ensures Snapshot(c, Give(wr, o, sid, -q), g) == Snapshot(c, wr, g)[sid := Held(wr, sid) - q]
  {
    GiveEntry(wr, o, sid, -q);
    OneEntryHeld(wr, Give(wr, o, sid, -q), o, sid, Get(wr[o], sid) - q);
  }

  /** A wallet's tokens of a series are worth no more than all wrapper tokens of the group. */
  lemma {:induction false} WalletWithinClaims(c: Config, wr: map<Owner, Row>, o: Owner, sid: Sid, q: int, g: Gid,
      price: int)
    requires NoNegativeWrapper(wr) && o in wr && sid in SeriesOf(c, g)
    requires 0 <= q <= Get(wr[o], sid)
    ensures 0 <= q * UnitOf(c, sid, price) <= TotalClaim(wr, Units(c, g, price))
  {
    hide Units, UnitOf;
    BurnedClaim(c, wr, o, sid, q, g, price);
    GiveNonNegative(wr, o, sid, -q);
    WrappersNonNegative(c, g, price, Give(wr, o, sid, -q));
    UnitNonNegative(c, price, sid);
    MulAtMost(0, q, UnitOf(c, sid, price));
  }

  lemma {:induction false} RedeemLeavesCovered(c: Config, s: State, o: Owner, sid: Sid, q: int, g: Gid)
    requires Shaped(c, s) && NoNegativeWrapper(s.wr) && o in s.wr && g in s.groups && sid in SeriesOf(c, g)
    requires GroupOk(c, g, s.groups[g], s.bal, s.wr, s.now) && 0 <= q <= Get(s.wr[o], sid)
    requires s.groups[g].ratio.Some? && s.groups[g].price.Some?
    ensures var x := s.groups[g];
      var pay := Payout(q * UnitOf(c, sid, x.price.value), x.ratio.value, Scale(DEC));
      0 <= pay <= x.pool && GroupOk(c, g, x.(pool := x.pool - pay), s.bal, Give(s.wr, o, sid, -q), s.now)
  {
    hide Units, UnitOf, Payout;
    var x := s.groups[g];
    var price := x.price.value;
    WalletWithinClaims(c, s.wr, o, sid, q, g, price);
    BurnedClaim(c, s.wr, o, sid, q, g, price);
    BurnedSupply(c, s.wr, o, sid, q, g);
    SumNonNegative(x.credits - x.claimed);
    var claim := q * UnitOf(c, sid, price);
    RedeemedRecordOk(x, StakesOf(c, g, price, s.bal, s.wr), StakesOf(c, g, price, s.bal, Give(s.wr, o, sid, -q)),
      claim);
  }

  /** The pool pays a wrapper claim and still covers what is left. */
  lemma {:induction false} RedeemedRecordOk(x: Group, st: Stakes, st': Stakes, claim: int)
    requires x.ratio.Some? && FinalizedOk(x, st) && 0 <= claim <= st.wrappers && 0 <= Sum(x.credits - x.claimed)
    requires st' == st.(wrappers := st.wrappers - claim, supply := st'.supply) && st'.supply.Keys == st.supply.Keys
    requires forall sid :: sid in st.supply ==> st'.supply[sid] <= st.supply[sid]
    ensures var pay := Payout(claim, x.ratio.value, Scale(DEC));
      0 <= pay <= x.pool && FinalizedOk(x.(pool := x.pool - pay), st')
  {
    hide Payout;
    PayoutCovered(claim, Outstanding(x, st) - claim, x.ratio.value, x.pool, Scale(DEC));
  }

  /** INV-31 for wrappers: no redemption from a group in order can ask for more than the pool holds. */
  lemma {:induction false} RedeemSafe(c: Config, s: State, owner: Owner, sid: Sid, q: int)
    requires Core(c, s) && owner in c.wallets && sid in c.series
    ensures var r := Redeem(c, s, owner, sid, q);
      (InOrder(c, s, c.series[sid].group) ==> !r.Raised?) && (r.Done? ==> Kept(c, s, r.next))
  {
    hide Units, UnitOf, Payout, Redeemed, Give, Money, GroupOk, GroupCore, GroupsCore, Balanced, WholeLots, Harmless;
    var r, g := Redeem(c, s, owner, sid, q), c.series[sid].group;
    var x := s.groups[g];
    if r != Reverted {
      var pay := Payout(q * UnitOf(c, sid, x.price.value), x.ratio.value, Scale(DEC));
      CoreGroup(c, s, g);
      if InOrder(c, s, g) {
        RedeemLeavesCovered(c, s, owner, sid, q, g);
      }
      RedeemedCore(c, s, owner, sid, q, g, pay);
      RedeemedKeepsInv(c, s, owner, sid, q, pay);
      RedeemedMoney(c, s, owner, sid, q, pay);
    }
  }

  lemma {:induction false} RedeemedCore(c: Config, s: State, o: Owner, sid: Sid, q: int, g: Gid, pay: int)
    requires Shaped(c, s) && o in s.wr && g in s.groups && sid in SeriesOf(c, g) && 0 <= q
    requires GroupCore(c, g, s.groups[g], s.bal, s.wr, s.now) && s.groups[g].ratio.Some? && s.groups[g].price.Some?
    ensures var x := s.groups[g];
      GroupCore(c, g, x.(pool := x.pool - pay), s.bal, Give(s.wr, o, sid, -q), s.now)
  {
    hide Units, UnitOf;
    BurnedSupply(c, s.wr, o, sid, q, g);
  }

  lemma {:induction false} RedeemedMoney(c: Config, s: State, o: Owner, sid: Sid, q: int, pay: int)
    requires Shaped(c, s) && o in c.wallets && sid in c.series
    ensures Money(Redeemed(c, s, o, sid, q, pay)) == Money(s)
  {
    hide Give, Money;
    var g, s' := c.series[sid].group, Redeemed(c, s, o, sid, q, pay);
    PoolToWallet(s, s', o, g, pay);
  }

  lemma {:induction false} PoolToWallet(s: State, s': State, o: Owner, g: Gid, pay: int)
    requires g in s.groups && g in s'.groups && o in s.usdc
    requires s' == s.(wr := s'.wr, groups := s.groups[g := s'.groups[g]], usdc := s.usdc[o := s.usdc[o] + pay])
    requires s'.groups[g].pool == s.groups[g].pool - pay
    ensures Money(s') == Money(s)
  {
    PoolsPut(s.groups, g, s'.groups[g]);
    SumPut(s.usdc, o, s.usdc[o] + pay);
  }

  lemma {:induction false} GiveFrame(c: Config, wr: map<Owner, Row>, o: Owner, sid: Sid, q: int, g: Gid)
    requires o in wr && sid in SeriesOf(c, g)
    ensures SameOutside(wr, Give(wr, o, sid, q), SeriesOf(c, g))
    ensures wr[o].Keys <= c.series.Keys ==> Give(wr, o, sid, q)[o].Keys <= c.series.Keys
    ensures forall p :: p in wr && p != o ==> Give(wr, o, sid, q)[p] == wr[p]
  {
  }

  lemma {:induction false} RedeemedKeepsInv(c: Config, s: State, o: Owner, sid: Sid, q: int, pay: int)
    requires Core(c, s) && o in c.wallets && sid in c.series && 0 <= q <= Get(s.wr[o], sid)
    requires var g := c.series[sid].group;
      var x, wr := s.groups[g].(pool := s.groups[g].pool - pay), Give(s.wr, o, sid, -q);
      && s.groups[g].price.Some? && GroupCore(c, g, x, s.bal, wr, s.now)
      && (InOrder(c, s, g) ==> 0 <= pay && GroupOk(c, g, x, s.bal, wr, s.now))
    ensures var s' := Redeemed(c, s, o, sid, q, pay);
      Core(c, s') && Harmless(c, s, s') && (Inv(c, s) ==> Inv(c, s'))
  {
    hide Give, GroupOk, GroupCore, GroupsCore, Balanced;
    var g := c.series[sid].group;
    GiveFrame(c, s.wr, o, sid, -q, g);
    GiveNonNegative(s.wr, o, sid, -q);
    GroupStepKeepsInv(c, s, Redeemed(c, s, o, sid, q, pay), g);
  }
}
