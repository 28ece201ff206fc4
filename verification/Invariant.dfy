/** The inductive invariant of the clearing protocol, and the parts of its preservation that actions share. */
module Invariant {
  import opened Basics
  import opened Sums
  import opened Tables
  import opened Clearing

  /** INV-6: a balance that is there is a non-zero multiple of the minimum size. */
  ghost predicate WholeLots(lot: nat, bal: map<Aid, Row>)
    requires 0 < lot
  {
    forall a, sid {:trigger IsLots(lot, bal[a][sid])} ::
      a in bal && sid in bal[a] ==> bal[a][sid] != 0 && IsLots(lot, bal[a][sid])
  }

  ghost predicate NoNegativeWrapper(wr: map<Owner, Row>) {
    forall o, sid :: o in wr && sid in wr[o] ==> 0 <= wr[o][sid]
  }

  ghost predicate NonNegative<K>(m: map<K, int>) {
    forall k :: k in m ==> 0 <= m[k]
  }

  /** INV-1: before finalization the internal balances and the wrapper tokens of a series cancel. */
  ghost predicate Balanced(c: Config, s: State)
    requires Shaped(c, s)
  {
    forall sid {:trigger Held(s.bal, sid)} :: sid in c.series && s.groups[c.series[sid].group].price.None? ==>
      Held(s.bal, sid) + Held(s.wr, sid) == 0
  }

  /** What is at stake in a finalized group: signed claims of accounts and of wrapper tokens (scale 1e54), ... */
  datatype Stakes = Stakes(accounts: int, wrappers: int, holders: set<Aid>, supply: map<Sid, int>)

  ghost function StakesOf(c: Config, g: Gid, price: int, bal: map<Aid, Row>, wr: map<Owner, Row>): Stakes {
    var units := Units(c, g, price);
    Stakes(TotalClaim(bal, units), TotalClaim(wr, units), Holders(c, bal, g), Snapshot(c, wr, g))
  }

  /** Claims of a redeemable group not yet paid: wrapper tokens left and credits not claimed. */
  ghost function Outstanding(x: Group, st: Stakes): int {
    st.wrappers + Sum(x.credits - x.claimed)
  }

  /**
   * While accounts settle, nothing is paid out, and the debts found so far (collected or unpaid) cover every claim
   * that is not matched by a debt still to be found.
   */
  ghost predicate SettlingOk(x: Group, st: Stakes) {
    && x.pool == x.collected && x.insurance == 0 && x.available == 0 && x.claimed == {}
    && x.snapshot == st.supply
    && st.wrappers + Sum(x.credits) + st.accounts <= (x.collected + x.unpaid) * Scale(DEC)
  }

  /** Once the ratio is fixed: nobody holds a series of the group, and no supply grows (INV-33). */
  ghost predicate ClosedOk(x: Group, st: Stakes, ratio: int) {
    && st.holders == {}
    && ratio <= WAD && 0 <= x.insurance && x.available == x.collected + x.insurance
    && forall sid :: sid in st.supply.Keys ==> st.supply[sid] <= Get(x.snapshot, sid)
  }

  /** What the record of a finalized group says whether or not everybody could pay. */
  ghost predicate RecordOk(x: Group, st: Stakes) {
    && 0 <= x.unpaid
    && x.snapshot.Keys == st.supply.Keys
    && x.credits.Keys <= x.settled && x.claimed <= x.credits.Keys && NonNegative(x.credits)
    && x.settled !! st.holders
    && if x.ratio.None? then SettlingOk(x, st) else ClosedOk(x, st, x.ratio.value)
  }

  /** The pool covers every claim at the ratio. */
  ghost predicate CoveredOk(x: Group, st: Stakes, ratio: int) {
    && 0 <= ratio && 0 <= x.pool <= x.available
    && ratio * Outstanding(x, st) <= x.pool * (Scale(DEC) * WAD)
  }

  ghost predicate FinalizedOk(x: Group, st: Stakes) {
    && RecordOk(x, st)
    && (x.ratio.Some? ==> CoveredOk(x, st, x.ratio.value))
  }

  ghost predicate GroupOk(c: Config, g: Gid, x: Group, bal: map<Aid, Row>, wr: map<Owner, Row>, now: int)
    requires g in c.groups
  {
    if x.price.None? then x == NEW_GROUP
    else c.groups[g].expiry <= now && FinalizedOk(x, StakesOf(c, g, x.price.value, bal, wr))
  }

  /** The same of a group whose pool may not cover its claims. */
  ghost predicate GroupCore(c: Config, g: Gid, x: Group, bal: map<Aid, Row>, wr: map<Owner, Row>, now: int)
    requires g in c.groups
  {
    if x.price.None? then x == NEW_GROUP
    else c.groups[g].expiry <= now && RecordOk(x, StakesOf(c, g, x.price.value, bal, wr))
  }

  ghost predicate GroupsCore(c: Config, s: State)
    requires Shaped(c, s)
  {
    forall g {:trigger GroupCore(c, g, s.groups[g], s.bal, s.wr, s.now)} ::
      g in s.groups ==> GroupCore(c, g, s.groups[g], s.bal, s.wr, s.now)
  }

  /** The group's record is consistent and its pool, once it is open, covers its claims. */
  ghost predicate InOrder(c: Config, s: State, g: Gid)
    requires Shaped(c, s) && g in s.groups
  {
    GroupOk(c, g, s.groups[g], s.bal, s.wr, s.now)
  }

  ghost predicate GroupsOk(c: Config, s: State)
    requires Shaped(c, s)
  {
    forall g {:trigger InOrder(c, s, g)} :: g in s.groups ==> InOrder(c, s, g)
  }

  ghost predicate FundsOk(s: State) {
    0 <= s.insurance && 0 <= s.treasury && 0 <= s.keeper
  }

  /** Nobody but perhaps the liquidator is overdrawn. */
  ghost predicate OthersOk(c: Config, s: State) {
    && (forall a :: a in s.cash && a != c.liqAid ==> 0 <= s.cash[a])
    && NonNegative(s.usdc)
  }

  /** INV-8 for everybody, and debtors of every group paid in at least nothing. */
  ghost predicate CashOk(s: State) {
    && NonNegative(s.cash) && NonNegative(s.usdc)
    && forall g :: g in s.groups ==> 0 <= s.groups[g].collected
  }

  /** What no run can break, whoever cannot pay: INV-1, INV-6, INV-25 and INV-33 with what makes them inductive. */
  ghost predicate Core(c: Config, s: State) {
    && Shaped(c, s)
    && WholeLots(c.lot, s.bal) && NoNegativeWrapper(s.wr) && FundsOk(s)
    && Balanced(c, s)
    && GroupsCore(c, s)
  }

  /** An overdrawn liquidator has harmed nobody: all others are solvent and every open pool covers its claims. */
  ghost predicate Spared(c: Config, s: State) {
    Core(c, s) && OthersOk(c, s) && GroupsOk(c, s)
  }

  /** Everything: nobody's cash is negative and every open pool covers its claims. */
  ghost predicate Inv(c: Config, s: State) {
    Core(c, s) && CashOk(s) && GroupsOk(c, s)
  }

  /** Groups in order stay in order, and if all are, nobody new is overdrawn. */
  ghost predicate Harmless(c: Config, s: State, s': State)
    requires Shaped(c, s) && Shaped(c, s')
  {
    && (forall g {:trigger InOrder(c, s', g)} :: g in s.groups && InOrder(c, s, g) ==> InOrder(c, s', g))
    && (Spared(c, s) ==> Spared(c, s'))
  }

  /** A step from `s` keeps the core and all money, and each stronger part of the invariant that held. */
  ghost predicate Kept(c: Config, s: State, s': State) {
    Shaped(c, s) && Core(c, s') && Money(s') == Money(s) && Harmless(c, s, s') && (Inv(c, s) ==> Inv(c, s'))
  }

  ghost function Pools(groups: map<Gid, Group>): map<Gid, int> {
    map g | g in groups :: groups[g].pool
  }

  /** `custody`: the stablecoins the clearing contract holds. */
  ghost function Custody(s: State): int {
    Sum(s.cash) + Sum(Pools(s.groups))
  }

  /** All money there is. */
  ghost function Money(s: State): int {
    Sum(s.usdc) + Custody(s) + s.insurance + s.treasury + s.keeper
  }

  // ---------------------------------------------------------------------------------------------------------
  // Frames
  // ---------------------------------------------------------------------------------------------------------

  ghost predicate SameIn<K>(table: map<K, Row>, table': map<K, Row>, sids: set<Sid>) {
    && table.Keys == table'.Keys
    && forall k, sid :: k in table && sid in sids ==> Get(table'[k], sid) == Get(table[k], sid)
  }

  ghost predicate SameHeld<K>(table: map<K, Row>, table': map<K, Row>, sids: set<Sid>) {
    forall sid :: sid in sids ==> Held(table', sid) == Held(table, sid)
  }

  lemma {:induction false} SameInHeld<K>(table: map<K, Row>, table': map<K, Row>, sids: set<Sid>)
    requires SameIn(table, table', sids)
    ensures SameHeld(table, table', sids)
  {
    forall sid | sid in sids ensures Held(table', sid) == Held(table, sid) {
      assert Column(table', sid) == Column(table, sid);
    }
  }

  lemma {:induction false} SameHeldTotal<K>(table: map<K, Row>, table': map<K, Row>, units: map<Sid, int>)
    requires SameHeld(table, table', units.Keys)
    ensures TotalClaim(table', units) == TotalClaim(table, units)
  {
    hide Held, TotalClaim, Sum;
    ClaimsByColumn(table, units);
    ClaimsByColumn(table', units);
    forall sid | sid in units ensures ByColumn(table', units)[sid] == ByColumn(table, units)[sid] {
      assert Held(table', sid) == Held(table, sid);
    }
    assert ByColumn(table, units) == ByColumn(table', units);
  }

  lemma {:induction false} SameHolders(c: Config, g: Gid, bal: map<Aid, Row>, bal': map<Aid, Row>)
    requires SameIn(bal, bal', SeriesOf(c, g))
    ensures Holders(c, bal', g) == Holders(c, bal, g)
  {
    forall a | a in bal ensures HoldsIn(c, bal'[a], g) == HoldsIn(c, bal[a], g) {
      assert forall sid :: sid in SeriesOf(c, g) ==> Get(bal'[a], sid) == Get(bal[a], sid);
    }
  }

  /** A group that an action does not touch stays in order: its balances, its wrapper supply, its own record. */
  lemma {:induction false} SameGroup(c: Config, g: Gid, x: Group, bal: map<Aid, Row>, wr: map<Owner, Row>, now: int,
      bal': map<Aid, Row>, wr': map<Owner, Row>, now': int)
    requires g in c.groups && GroupCore(c, g, x, bal, wr, now) && now <= now'
    requires x.price.Some? ==> SameIn(bal, bal', SeriesOf(c, g)) && SameHeld(wr, wr', SeriesOf(c, g))
    ensures GroupCore(c, g, x, bal', wr', now')
    ensures GroupOk(c, g, x, bal, wr, now) ==> GroupOk(c, g, x, bal', wr', now')
  {
    if x.price.Some? {
      SameStakes(c, g, x.price.value, bal, wr, bal', wr');
    }
  }

  lemma {:induction false} CoreShaped(c: Config, s: State)
    requires Core(c, s)
    ensures Shaped(c, s)
  {
  }

  lemma {:induction false} CoreGroup(c: Config, s: State, g: Gid)
    requires Core(c, s) && g in s.groups
    ensures GroupCore(c, g, s.groups[g], s.bal, s.wr, s.now)
  {
  }

  lemma {:induction false} SameStakes(c: Config, g: Gid, price: int, bal: map<Aid, Row>, wr: map<Owner, Row>,
      bal': map<Aid, Row>, wr': map<Owner, Row>)
    requires SameIn(bal, bal', SeriesOf(c, g)) && SameHeld(wr, wr', SeriesOf(c, g))
    ensures StakesOf(c, g, price, bal', wr') == StakesOf(c, g, price, bal, wr)
  {
    hide Units, Holders;
    UnitsKeys(c, g, price);
    var units := Units(c, g, price);
    SameHolders(c, g, bal, bal');
    SameInHeld(bal, bal', SeriesOf(c, g));
    SameHeldTotal(bal, bal', units);
    SameHeldTotal(wr, wr', units);
    SameSnapshot(c, g, wr, wr');
  }

  lemma {:induction false} UnitsKeys(c: Config, g: Gid, price: int)
    ensures Units(c, g, price).Keys == SeriesOf(c, g)
  {
  }

  lemma {:induction false} SameSnapshot(c: Config, g: Gid, wr: map<Owner, Row>, wr': map<Owner, Row>)
    requires SameHeld(wr, wr', SeriesOf(c, g))
    ensures Snapshot(c, wr', g) == Snapshot(c, wr, g)
  {
  }

  /** Money moved within one map. */
  lemma {:induction false} PoolsPut(groups: map<Gid, Group>, g: Gid, x: Group)
    requires g in groups
    ensures Sum(Pools(groups[g := x])) == Sum(Pools(groups)) - groups[g].pool + x.pool
  {
    assert Pools(groups[g := x]) == Pools(groups)[g := x.pool];
    SumPut(Pools(groups), g, x.pool);
  }
}
