/**
 * Settling a group at once (`settle_group`, reference/pm_model.py) against settling it account by account: the order
 * of accounts does not matter, and both give the same numbers.
 */
module Batch {
  import opened Basics
  import opened Sums
  import opened Tables
  import opened Clearing
  import opened Invariant
  import opened Dues
  import Settlement

  // ---------------------------------------------------------------------------------------------------------
  // Account by account
  // ---------------------------------------------------------------------------------------------------------

  ghost function Debt(n: int, d: int): int
    requires 0 < d
  {
    if n < 0 then CeilDiv(-n, d) else 0
  }

  /** What the accounts of `done` owe, pay and are owed by their nets, everybody else counting zero. */
  ghost function Debts(nets: map<Aid, int>, d: int, done: set<Aid>): map<Aid, int>
    requires 0 < d
  {
    map a | a in nets :: if a in done then Debt(nets[a], d) else 0
  }

  ghost function Payments(nets: map<Aid, int>, cash: map<Aid, int>, d: int, done: set<Aid>): map<Aid, int>
    requires nets.Keys <= cash.Keys && 0 < d
  {
    map a | a in nets :: if a in done then DebtPaid(nets[a], cash[a], d) else 0
  }

  ghost function Credits(nets: map<Aid, int>, done: set<Aid>): map<Aid, int> {
    map a | a in nets && a in done && 0 < nets[a] :: nets[a]
  }

  ghost function SettledBal(c: Config, bal: map<Aid, Row>, g: Gid, done: set<Aid>): map<Aid, Row> {
    map a | a in bal :: if a in done then Outside(c, bal[a], g) else bal[a]
  }

  ghost function SettledCash(nets: map<Aid, int>, cash: map<Aid, int>, d: int, done: set<Aid>): map<Aid, int>
    requires nets.Keys <= cash.Keys && 0 < d
  {
    map a | a in cash :: cash[a] - Get(Payments(nets, cash, d, done), a)
  }

  ghost function SettledRecord(x: Group, paid: int, debts: int, credits: map<Aid, int>, done: set<Aid>): Group {
    x.(collected := x.collected + paid, pool := x.pool + paid, unpaid := x.unpaid + (debts - paid),
       credits := x.credits + credits, settled := x.settled + done)
  }

  ghost function RecordOf(x: Group, nets: map<Aid, int>, cash: map<Aid, int>, d: int, done: set<Aid>): Group
    requires nets.Keys <= cash.Keys && 0 < d
  {
    SettledRecord(x, Sum(Payments(nets, cash, d, done)), Sum(Debts(nets, d, done)), Credits(nets, done), done)
  }

  ghost function NetsOf(c: Config, s: State, g: Gid): map<Aid, int>
    requires Shaped(c, s) && g in s.groups && s.groups[g].price.Some?
  {
    Claims(s.bal, Units(c, g, s.groups[g].price.value))
  }

  /** The state in which exactly the accounts of `done` have settled, told from the state `s` before any of them did. */
  ghost function SettledState(c: Config, s: State, g: Gid, done: set<Aid>): State
    requires Shaped(c, s) && g in s.groups && s.groups[g].price.Some?
  {
    var nets, d := NetsOf(c, s, g), Scale(DEC);
    s.(bal := SettledBal(c, s.bal, g, done), cash := SettledCash(nets, s.cash, d, done),
       groups := s.groups[g := RecordOf(s.groups[g], nets, s.cash, d, done)])
  }

  lemma {:induction false} NobodySettled(c: Config, s: State, g: Gid)
    requires Shaped(c, s) && g in s.groups && s.groups[g].price.Some?
    ensures SettledState(c, s, g, {}) == s
  {
    var x := s.groups[g];
    NobodyPays(x, NetsOf(c, s, g), s.cash, Scale(DEC));
    assert s.groups[g := x] == s.groups;
    assert SettledBal(c, s.bal, g, {}) == s.bal;
  }

  lemma {:induction false} NobodyPays(x: Group, nets: map<Aid, int>, cash: map<Aid, int>, d: int)
    requires nets.Keys <= cash.Keys && 0 < d
    ensures RecordOf(x, nets, cash, d, {}) == x && SettledCash(nets, cash, d, {}) == cash
  {
    var paid := Payments(nets, cash, d, {});
    assert forall a :: Get(paid, a) == 0;
    SumZero(paid);
    SumZero(Debts(nets, d, {}));
    assert x.credits + Credits(nets, {}) == x.credits;
  }

  lemma {:induction false} OneMorePayment(nets: map<Aid, int>, cash: map<Aid, int>, d: int, done: set<Aid>, a: Aid)
    requires nets.Keys <= cash.Keys && 0 < d && a in nets && a !in done
    ensures var n := nets[a];
      && Sum(Payments(nets, cash, d, done + {a})) == Sum(Payments(nets, cash, d, done)) + DebtPaid(n, cash[a], d)
      && Sum(Debts(nets, d, done + {a})) == Sum(Debts(nets, d, done)) + Debt(n, d)
      && Credits(nets, done + {a}) == if 0 < n then Credits(nets, done)[a := n] else Credits(nets, done)
  {
    var n, paid, owed := nets[a], Payments(nets, cash, d, done), Debts(nets, d, done);
    assert Payments(nets, cash, d, done + {a}) == paid[a := DebtPaid(n, cash[a], d)];
    assert Debts(nets, d, done + {a}) == owed[a := Debt(n, d)];
    SumPut(paid, a, DebtPaid(n, cash[a], d));
    SumPut(owed, a, Debt(n, d));
  }

  lemma {:induction false} RecordStep(x: Group, nets: map<Aid, int>, cash: map<Aid, int>, d: int, done: set<Aid>,
      a: Aid)
    requires nets.Keys <= cash.Keys && 0 < d && a in nets && a !in done
    ensures Settled(RecordOf(x, nets, cash, d, done), a, nets[a], DebtPaid(nets[a], cash[a], d), d)
         == RecordOf(x, nets, cash, d, done + {a})
  {
    OneMorePayment(nets, cash, d, done, a);
    assert x.settled + done + {a} == x.settled + (done + {a});
    AddCredit(x.credits, Credits(nets, done), a, nets[a]);
  }

  lemma {:induction false} AddCredit(before: map<Aid, int>, credits: map<Aid, int>, a: Aid, n: int)
    ensures (before + credits)[a := n] == before + credits[a := n]
  {
  }

  lemma {:induction false} CashStep(nets: map<Aid, int>, cash: map<Aid, int>, d: int, done: set<Aid>, a: Aid)
    requires nets.Keys <= cash.Keys && 0 < d && a in nets && a !in done
    ensures SettledCash(nets, cash, d, done)[a] == cash[a]
    ensures SettledCash(nets, cash, d, done)[a := cash[a] - DebtPaid(nets[a], cash[a], d)]
         == SettledCash(nets, cash, d, done + {a})
  {
    var paid, paid' := Payments(nets, cash, d, done), Payments(nets, cash, d, done + {a});
    forall b ensures Get(paid', b) == if b == a then DebtPaid(nets[a], cash[a], d) else Get(paid, b) {
    }
  }

  lemma {:induction false} BalStep(c: Config, bal: map<Aid, Row>, g: Gid, done: set<Aid>, a: Aid)
    requires a in bal && a !in done
    ensures SettledBal(c, bal, g, done)[a] == bal[a]
    ensures SettledBal(c, bal, g, done)[a := Outside(c, bal[a], g)] == SettledBal(c, bal, g, done + {a})
  {
    hide Outside;
  }

  lemma {:induction false} SettledShape(c: Config, s: State, g: Gid, done: set<Aid>)
    requires Shaped(c, s) && g in s.groups && s.groups[g].price.Some?
    ensures Shaped(c, SettledState(c, s, g, done))
  {
  }

  lemma {:induction false} SettleEffect(c: Config, t: State, a: Aid, g: Gid, row: Row, cash: int, price: int)
    requires Shaped(c, t) && a in c.owner && g in c.groups && t.groups[g].price == Some(price)
    requires t.bal[a] == row && t.cash[a] == cash && HoldsIn(c, row, g)
    ensures var n := Claim(row, Units(c, g, price));
      var paid := DebtPaid(n, cash, Scale(DEC));
      Settle(c, t, a, g) == Done(t.(bal := t.bal[a := Outside(c, row, g)], cash := t.cash[a := cash - paid],
                                    groups := t.groups[g := Settled(t.groups[g], a, n, paid, Scale(DEC))]))
  {
    hide Outside, Settled, Units, DebtPaid, Claim, HoldsIn;
  }

  /** What one more settlement writes, entry by entry. */
  lemma {:induction false} SettledStep(c: Config, s: State, g: Gid, done: set<Aid>, a: Aid)
    requires Shaped(c, s) && g in s.groups && s.groups[g].price.Some? && a in s.bal && a !in done
    ensures var t, d := SettledState(c, s, g, done), Scale(DEC);
      var n := Claim(s.bal[a], Units(c, g, s.groups[g].price.value));
      var paid := DebtPaid(n, s.cash[a], d);
      && a in t.bal && t.bal[a] == s.bal[a] && t.cash[a] == s.cash[a] && t.groups[g].price == s.groups[g].price
      && SettledState(c, s, g, done + {a})
         == t.(bal := t.bal[a := Outside(c, s.bal[a], g)], cash := t.cash[a := s.cash[a] - paid],
               groups := t.groups[g := Settled(t.groups[g], a, n, paid, d)])
  {
    hide Outside, Settled, RecordOf, Units, DebtPaid, SettledBal, SettledCash, Claim;
    var nets, d := NetsOf(c, s, g), Scale(DEC);
    SettledShape(c, s, g, done);
    SamePrice(s.groups[g], nets, s.cash, d, done);
    RecordStep(s.groups[g], nets, s.cash, d, done, a);
    CashStep(nets, s.cash, d, done, a);
    BalStep(c, s.bal, g, done, a);
    var x, x' := RecordOf(s.groups[g], nets, s.cash, d, done), RecordOf(s.groups[g], nets, s.cash, d, done + {a});
    assert s.groups[g := x][g := x'] == s.groups[g := x'];
  }

  /** Settling one more account adds it to those that have settled: all that matters is which ones they are. */
  lemma {:induction false} SettleOneMore(c: Config, s: State, g: Gid, done: set<Aid>, a: Aid)
    requires Shaped(c, s) && g in s.groups && s.groups[g].price.Some?
    requires a in s.bal && HoldsIn(c, s.bal[a], g) && a !in done
    ensures Shaped(c, SettledState(c, s, g, done))
    ensures Settle(c, SettledState(c, s, g, done), a, g) == Done(SettledState(c, s, g, done + {a}))
  {
    hide Settle, Outside, Settled, SettledState, Units, DebtPaid, Claim, HoldsIn;
    SettledShape(c, s, g, done);
    SettledStep(c, s, g, done, a);
    SettleEffect(c, SettledState(c, s, g, done), a, g, s.bal[a], s.cash[a], s.groups[g].price.value);
  }

  lemma {:induction false} SamePrice(x: Group, nets: map<Aid, int>, cash: map<Aid, int>, d: int, done: set<Aid>)
    requires nets.Keys <= cash.Keys && 0 < d
    ensures RecordOf(x, nets, cash, d, done).price == x.price
  {
  }

  /** Settling the accounts of `order` one after the other, with nothing in between. */
  ghost function SettleAll(c: Config, s: State, g: Gid, order: seq<Aid>): State
    requires Shaped(c, s) && g in c.groups && forall i :: 0 <= i < |order| ==> order[i] in c.owner
    ensures Shaped(c, SettleAll(c, s, g, order))
  {
    if order == [] then s
    else
      var s' := SettleAll(c, s, g, order[..|order| - 1]);
      var r := Settle(c, s', order[|order| - 1], g);
      SettleKeepsShape(c, s', order[|order| - 1], g);
      if r.Done? then r.next else s'
  }

  lemma {:induction false} SettleKeepsShape(c: Config, s: State, a: Aid, g: Gid)
    requires Shaped(c, s) && a in c.owner && g in c.groups
    ensures var r := Settle(c, s, a, g); r.Done? ==> Shaped(c, r.next)
  {
    hide Settled, Units;
  }

  function AsSet(order: seq<Aid>): set<Aid> {
    set a | a in order
  }

  ghost predicate Distinct(order: seq<Aid>) {
    forall i, j :: 0 <= i < j < |order| ==> order[i] != order[j]
  }

  /** The order of settlement does not matter: the outcome is a function of the set of accounts. */
  lemma {:induction false} OrderIsIrrelevant(c: Config, s: State, g: Gid, order: seq<Aid>)
    requires Shaped(c, s) && g in s.groups && s.groups[g].price.Some?
    requires forall i :: 0 <= i < |order| ==> order[i] in c.owner && order[i] in s.bal && HoldsIn(c, s.bal[order[i]], g)
    requires Distinct(order)
    ensures SettleAll(c, s, g, order) == SettledState(c, s, g, AsSet(order))
  {
    hide Settle, SettledState, HoldsIn, Shaped;
    if order == [] {
      NobodySettled(c, s, g);
      assert AsSet(order) == {};
    } else {
      var n := |order| - 1;
      var front, last := order[..n], order[n];
      var done := AsSet(front);
      OrderIsIrrelevant(c, s, g, front);
      LastIsNew(order);
      SettleOneMore(c, s, g, done, last);
    }
  }

  lemma {:induction false} LastIsNew(order: seq<Aid>)
    requires order != [] && Distinct(order)
    ensures var n := |order| - 1;
      AsSet(order) == AsSet(order[..n]) + {order[n]} && order[n] !in order[..n]
  {
  }

  // ---------------------------------------------------------------------------------------------------------
  // All at once
  // ---------------------------------------------------------------------------------------------------------

  datatype GroupResult = GroupResult(
    collected: int, unpaid: int, grossClaim: int, wrapperClaim: int, netCredit: int, insurance: int, available: int,
    ratio: int, credits: map<Aid, int>, cashAfter: map<Aid, int>)

  function UnitsIn(series: map<Sid, Series>, price: int): map<Sid, int> {
    map sid | sid in series :: IntrinsicInt(series[sid], price) * series[sid].size
  }

  ghost function GroupOutcome(nets: map<Aid, int>, wrapperClaim: int, cash: map<Aid, int>, d: int, insurance: int)
    : GroupResult
    requires nets.Keys <= cash.Keys && 0 < d
  {
    var collected, credits := Sum(Payments(nets, cash, d, nets.Keys)), Credits(nets, nets.Keys);
    var gross := wrapperClaim + Sum(credits);
    var ins := InsuranceDraw(gross, collected, insurance, d);
    GroupResult(collected, Sum(Debts(nets, d, nets.Keys)) - collected, gross, wrapperClaim, Sum(credits), ins,
      collected + ins, RatioOf(collected + ins, gross, d), credits, SettledCash(nets, cash, d, nets.Keys))
  }

  method NetOf(series: map<Sid, Series>, row: Row, price: int) returns (n: int)
    requires row.Keys <= series.Keys
    ensures n == Claim(row, UnitsIn(series, price))
  {
    n := 0;
    var todo := row;
    ghost var units := UnitsIn(series, price);
    while todo != map[]
      invariant todo.Keys <= row.Keys
      invariant n + Claim(todo, units) == Claim(row, units)
      decreases |todo|
    {
      var sid :| sid in todo;
      n := n + todo[sid] * IntrinsicInt(series[sid], price) * series[sid].size;
      OneEntryClaim(todo, todo - {sid}, units, sid);
      Negate(todo[sid], IntrinsicInt(series[sid], price), series[sid].size);
      todo := todo - {sid};
    }
    SumZero(Products(todo, units));
  }

  lemma {:induction false} Negate(q: int, intrinsic: int, size: int)
    ensures (0 - q) * (intrinsic * size) == -(q * intrinsic * size)
  {
  }

  /** The running numbers of the batch after the accounts of `done`. */
  datatype Tally = Tally(collected: int, unpaid: int, netCredit: int, credits: map<Aid, int>, cashAfter: map<Aid, int>)

  ghost predicate TallyOk(t: Tally, nets: map<Aid, int>, cash: map<Aid, int>, d: int, done: set<Aid>)
    requires nets.Keys <= cash.Keys && 0 < d
  {
    && t.collected == Sum(Payments(nets, cash, d, done))
    && t.collected + t.unpaid == Sum(Debts(nets, d, done))
    && t.credits == Credits(nets, done) && t.netCredit == Sum(t.credits)
    && t.cashAfter == SettledCash(nets, cash, d, done)
  }

  lemma {:induction false} TallyStart(nets: map<Aid, int>, cash: map<Aid, int>, d: int)
    requires nets.Keys <= cash.Keys && 0 < d
    ensures TallyOk(Tally(0, 0, 0, map[], cash), nets, cash, d, {})
  {
    NobodyPays(NEW_GROUP, nets, cash, d);
    assert Credits(nets, {}) == map[];
  }

  /** One account of the loop: a debtor pays what it can, a creditor is recorded. */
  method TallyOne(t: Tally, a: Aid, n: int, d: int, ghost nets: map<Aid, int>, ghost cash: map<Aid, int>,
      ghost done: set<Aid>) returns (t': Tally)
    requires nets.Keys <= cash.Keys && 0 < d && a in nets && a !in done && n == nets[a]
    requires TallyOk(t, nets, cash, d, done)
    ensures TallyOk(t', nets, cash, d, done + {a})
  {
    OneMorePayment(nets, cash, d, done, a);
    CashStep(nets, cash, d, done, a);
    if n < 0 {
      var debt := CeilDiv(-n, d);
      var c := Min(t.cashAfter[a], debt);
      t' := t.(cashAfter := t.cashAfter[a := t.cashAfter[a] - c], collected := t.collected + c,
               unpaid := t.unpaid + (debt - c));
    } else if 0 < n {
      SumPut(t.credits, a, n);
      assert t.cashAfter[a := cash[a] - 0] == t.cashAfter;
      t' := t.(credits := t.credits[a := n], netCredit := t.netCredit + n);
    } else {
      assert t.cashAfter[a := cash[a] - 0] == t.cashAfter;
      t' := t;
    }
  }

  /** The loop over the accounts, in any order. */
  method TallyAll(series: map<Sid, Series>, balances: map<Aid, Row>, cash: map<Aid, int>, price: int, d: int)
      returns (t: Tally)
    requires 0 < d && balances.Keys <= cash.Keys
    requires forall a :: a in balances ==> balances[a].Keys <= series.Keys
    ensures TallyOk(t, Claims(balances, UnitsIn(series, price)), cash, d, balances.Keys)
  {
    hide TallyOk, UnitsIn, Claim;
    ghost var nets, done := Claims(balances, UnitsIn(series, price)), {};
    t := Tally(0, 0, 0, map[], cash);
    TallyStart(nets, cash, d);
    var todo := balances.Keys;
    while todo != {}
      invariant todo <= balances.Keys && done == balances.Keys - todo
      invariant TallyOk(t, nets, cash, d, done)
      decreases |todo|
    {
      assert exists a :: a in todo by {
        assert (forall a :: a !in todo) ==> todo == {};
      }
      var a :| a in todo;
      var n := NetOf(series, balances[a], price);
      t := TallyOne(t, a, n, d, nets, cash, done);
      todo, done := todo - {a}, done + {a};
    }
    assert done == balances.Keys;
  }

  /** `settle_group`: the nets of all accounts, then the wrapper claims and the ratio. */
  method SettleGroup(series: map<Sid, Series>, balances: map<Aid, Row>, cash: map<Aid, int>, supply: Row, price: int,
      decimals: nat, insuranceBalance: int) returns (r: GroupResult)
    requires decimals <= 54 && balances.Keys <= cash.Keys && supply.Keys <= series.Keys
    requires forall a :: a in balances ==> balances[a].Keys <= series.Keys
    ensures var units := UnitsIn(series, price);
      r == GroupOutcome(Claims(balances, units), Claim(supply, units), cash, Scale(decimals), insuranceBalance)
    ensures exists unpaid :: DebtorsPaid(r, Claims(balances, UnitsIn(series, price)), cash, Scale(decimals), unpaid)
    ensures var units := UnitsIn(series, price);
      CreditorsServed(r, Claims(balances, units), Claim(supply, units), Scale(decimals), insuranceBalance)
  {
    var d := Scale(decimals);
    var t := TallyAll(series, balances, cash, price, d);
    var wrapperClaim := NetOf(series, supply, price);
    r := Conclude(t, wrapperClaim, d, insuranceBalance);
    assert Claims(balances, UnitsIn(series, price)).Keys == balances.Keys;
    TalliedOutcome(t, Claims(balances, UnitsIn(series, price)), wrapperClaim, cash, d, insuranceBalance);
    ghost var unpaid := OutcomePays(Claims(balances, UnitsIn(series, price)), wrapperClaim, cash, d, insuranceBalance);
    OutcomeServes(Claims(balances, UnitsIn(series, price)), wrapperClaim, cash, d, insuranceBalance);
  }

  /** Account by account: each debtor pays as much of its debt as it has and leaves `unpaid`. */
  ghost predicate DebtorsPaid(r: GroupResult, nets: map<Aid, int>, cash: map<Aid, int>, d: int, unpaid: map<Aid, int>) {
    && unpaid.Keys == nets.Keys && r.cashAfter.Keys == cash.Keys && nets.Keys <= cash.Keys
    && (forall a :: a in cash && a !in nets ==> r.cashAfter[a] == cash[a])
    && (forall a :: a in nets ==>
          PaysDebt(nets[a], cash[a], r.cashAfter[a], cash[a] - r.cashAfter[a], unpaid[a], d))
    && r.collected == Sum(cash) - Sum(r.cashAfter) && r.unpaid == Sum(unpaid)
  }

  /** Each creditor has its net as a credit, insurance adds what is lacking, and the ratio is the greatest possible. */
  ghost predicate CreditorsServed(r: GroupResult, nets: map<Aid, int>, wrapperClaim: int, d: int, insurance: int) {
    && r.credits.Keys <= nets.Keys
    && (forall a :: a in nets ==> if 0 < nets[a] then a in r.credits && r.credits[a] == nets[a] else a !in r.credits)
    && r.wrapperClaim == wrapperClaim && r.netCredit == Sum(r.credits) && r.grossClaim == wrapperClaim + r.netCredit
    && (0 <= insurance ==> Drawn(r.grossClaim, r.collected, insurance, r.insurance, d))
    && r.available == r.collected + r.insurance
    && (0 <= r.grossClaim ==> FairRatio(r.ratio, r.available, r.grossClaim, d))
  }

  lemma {:induction false} OutcomePays(nets: map<Aid, int>, wrapperClaim: int, cash: map<Aid, int>, d: int,
      insurance: int) returns (unpaid: map<Aid, int>)
    requires nets.Keys <= cash.Keys && 0 < d
    ensures DebtorsPaid(GroupOutcome(nets, wrapperClaim, cash, d, insurance), nets, cash, d, unpaid)
  {
    hide RatioOf, InsuranceDraw, PaysDebt, DebtPaid, Debt, Payments, Debts, Credits, SettledCash;
    unpaid := map a | a in nets :: Debt(nets[a], d) - DebtPaid(nets[a], cash[a], d);
    EachPays(nets, cash, d, unpaid);
    TotalsPaid(nets, cash, d, unpaid);
  }

  lemma {:induction false} OutcomeServes(nets: map<Aid, int>, wrapperClaim: int, cash: map<Aid, int>, d: int,
      insurance: int)
    requires nets.Keys <= cash.Keys && 0 < d
    ensures CreditorsServed(GroupOutcome(nets, wrapperClaim, cash, d, insurance), nets, wrapperClaim, d, insurance)
  {
    hide RatioOf, InsuranceDraw, Drawn, FairRatio, Payments, Debts, SettledCash;
    var r := GroupOutcome(nets, wrapperClaim, cash, d, insurance);
    if 0 <= insurance {
      DrawIsNeeded(r.grossClaim, r.collected, insurance, d);
    }
    if 0 <= r.grossClaim {
      RatioIsFair(r.available, r.grossClaim, d);
    }
  }

  lemma {:induction false} EachPays(nets: map<Aid, int>, cash: map<Aid, int>, d: int, unpaid: map<Aid, int>)
    requires nets.Keys <= cash.Keys && 0 < d && unpaid.Keys == nets.Keys
    requires forall a :: a in nets ==> unpaid[a] == Debt(nets[a], d) - DebtPaid(nets[a], cash[a], d)
    ensures var after := SettledCash(nets, cash, d, nets.Keys);
      && after.Keys == cash.Keys && (forall a :: a in cash && a !in nets ==> after[a] == cash[a])
      && forall a :: a in nets ==> PaysDebt(nets[a], cash[a], after[a], cash[a] - after[a], unpaid[a], d)
  {
    hide PaysDebt;
    forall a | a in nets
      ensures var paid := DebtPaid(nets[a], cash[a], d);
        PaysDebt(nets[a], cash[a], cash[a] - paid, paid, unpaid[a], d)
    {
      DebtIsPaid(nets[a], cash[a], d);
    }
  }

  /** What leaves the accounts is collected, and debts are paid or left unpaid. */
  lemma {:induction false} TotalsPaid(nets: map<Aid, int>, cash: map<Aid, int>, d: int, unpaid: map<Aid, int>)
    requires nets.Keys <= cash.Keys && 0 < d && unpaid.Keys == nets.Keys
    requires forall a :: a in nets ==> unpaid[a] == Debt(nets[a], d) - DebtPaid(nets[a], cash[a], d)
    ensures var paid := Sum(Payments(nets, cash, d, nets.Keys));
      && paid == Sum(cash) - Sum(SettledCash(nets, cash, d, nets.Keys))
      && Sum(Debts(nets, d, nets.Keys)) == paid + Sum(unpaid)
  {
    hide Debt, DebtPaid;
    var paid, after := Payments(nets, cash, d, nets.Keys), SettledCash(nets, cash, d, nets.Keys);
    var debts := Debts(nets, d, nets.Keys);
    forall a | a in nets ensures debts[a] == paid[a] + unpaid[a] {
      assert debts[a] == Debt(nets[a], d) && paid[a] == DebtPaid(nets[a], cash[a], d);
    }
    SumAdd(paid, unpaid, debts);
    var each := map a | a in cash :: Get(paid, a);
    SumAdd(after, each, cash);
    SumOfPart(paid, each);
  }

  lemma {:induction false} SumOfPart(part: map<Aid, int>, whole: map<Aid, int>)
    requires part.Keys <= whole.Keys && forall a :: a in whole ==> whole[a] == Get(part, a)
    ensures Sum(part) == Sum(whole)
    decreases |whole|
  {
    if a :| a in whole && a !in part {
      SumRemove(whole, a);
      SumOfPart(part, whole - {a});
    } else {
      assert forall a :: a in whole ==> a in part && part[a] == whole[a];
      assert part == whole;
    }
  }

  lemma {:induction false} TalliedOutcome(t: Tally, nets: map<Aid, int>, wrapperClaim: int, cash: map<Aid, int>, d: int,
      insurance: int)
    requires nets.Keys <= cash.Keys && 0 < d && TallyOk(t, nets, cash, d, nets.Keys)
    ensures Conclude(t, wrapperClaim, d, insurance) == GroupOutcome(nets, wrapperClaim, cash, d, insurance)
  {
    hide Payments, Debts, Credits, SettledCash, RatioOf;
  }

  function Conclude(t: Tally, wrapperClaim: int, d: int, insuranceBalance: int): GroupResult
    requires 0 < d
  {
    var gross := wrapperClaim + t.netCredit;
    var shortfall := Max(0, CeilDiv(gross, d) - t.collected);
    var ins := Min(shortfall, insuranceBalance);
    var available := t.collected + ins;
    GroupResult(t.collected, t.unpaid, gross, wrapperClaim, t.netCredit, ins, available, RatioOf(available, gross, d),
      t.credits, t.cashAfter)
  }

  // ---------------------------------------------------------------------------------------------------------
  // Both agree
  // ---------------------------------------------------------------------------------------------------------

  /** The balances of one group, as `settle_group` is given them. */
  function InGroup(c: Config, bal: map<Aid, Row>, g: Gid): map<Aid, Row> {
    map a | a in bal :: map sid | sid in bal[a] && sid in SeriesOf(c, g) :: bal[a][sid]
  }

  lemma {:induction false} InGroupNets(c: Config, bal: map<Aid, Row>, g: Gid, price: int)
    ensures Claims(InGroup(c, bal, g), Units(c, g, price)) == Claims(bal, Units(c, g, price))
  {
    forall a | a in bal ensures Claim(InGroup(c, bal, g)[a], Units(c, g, price)) == Claim(bal[a], Units(c, g, price)) {
      SameClaim(bal[a], InGroup(c, bal, g)[a], Units(c, g, price));
    }
  }

  lemma {:induction false} BystandersOweNothing(c: Config, bal: map<Aid, Row>, g: Gid, price: int, a: Aid)
    requires a in bal && a !in Holders(c, bal, g)
    ensures Claim(bal[a], Units(c, g, price)) == 0
  {
    assert forall sid :: sid in SeriesOf(c, g) ==> Get(bal[a], sid) == 0;
    SumZero(Products(bal[a], Units(c, g, price)));
  }

  /** Accounts without a net change nothing: the participants' totals are everybody's. */
  lemma {:induction false} OthersCountZero(nets: map<Aid, int>, cash: map<Aid, int>, d: int, done: set<Aid>)
    requires nets.Keys <= cash.Keys && 0 < d && forall a :: a in nets && a !in done ==> nets[a] == 0
    ensures Payments(nets, cash, d, done) == Payments(nets, cash, d, nets.Keys)
    ensures Debts(nets, d, done) == Debts(nets, d, nets.Keys)
    ensures Credits(nets, done) == Credits(nets, nets.Keys)
  {
    forall a | a in nets
      ensures Payments(nets, cash, d, done)[a] == Payments(nets, cash, d, nets.Keys)[a]
      ensures Debts(nets, d, done)[a] == Debts(nets, d, nets.Keys)[a]
      ensures a in Credits(nets, done) <==> a in Credits(nets, nets.Keys)
    {
      assert a in done || nets[a] == 0;
    }
    assert Credits(nets, done).Keys == Credits(nets, nets.Keys).Keys;
  }

  /** Nobody has settled yet. */
  ghost predicate JustFinalized(c: Config, s: State, g: Gid, price: int)
    requires Shaped(c, s) && g in c.groups
  {
    s.groups[g] == NEW_GROUP.(price := Some(price), snapshot := Snapshot(c, s.wr, g))
  }

  ghost function BatchOf(c: Config, s: State, g: Gid, price: int): GroupResult
    requires Shaped(c, s)
  {
    var units := Units(c, g, price);
    InGroupNets(c, s.bal, g, price);
    GroupOutcome(Claims(InGroup(c, s.bal, g), units), Claim(Snapshot(c, s.wr, g), units), s.cash, Scale(DEC),
      s.insurance)
  }

  /** With all participants settled, the group's record and the cash are the batch's. */
  lemma {:induction false} SettledIsBatch(c: Config, s: State, g: Gid, price: int)
    requires Shaped(c, s) && g in c.groups && JustFinalized(c, s, g, price)
    ensures var s', b := SettledState(c, s, g, Holders(c, s.bal, g)), BatchOf(c, s, g, price);
      && s'.cash == b.cashAfter && s'.insurance == s.insurance
      && s'.groups[g] == s.groups[g].(collected := b.collected, pool := b.collected, unpaid := b.unpaid,
                                      credits := b.credits, settled := s'.groups[g].settled)
  {
    hide Units, Holders, Snapshot, RatioOf, SettledBal, Payments, Debts, Credits, SettledCash, InGroup;
    var nets, holders := NetsOf(c, s, g), Holders(c, s.bal, g);
    forall a | a in nets && a !in holders ensures nets[a] == 0 {
      BystandersOweNothing(c, s.bal, g, price, a);
    }
    OthersCountZero(nets, s.cash, Scale(DEC), holders);
    SameCash(nets, s.cash, Scale(DEC), holders);
    InGroupNets(c, s.bal, g, price);
    assert map[] + Credits(nets, holders) == Credits(nets, holders);
  }

  /** The settled state and the ratio computed from it carry the numbers of the batch. */
  ghost predicate Agrees(c: Config, s': State, g: Gid, b: GroupResult)
    requires Shaped(c, s') && g in c.groups
  {
    var x, r := s'.groups[g], ComputeRatio(c, s', g);
    && x.collected == b.collected && x.unpaid == b.unpaid && x.credits == b.credits && s'.cash == b.cashAfter
    && !r.Reverted?
    && (r.Done? ==>
          && r.next.groups[g].insurance == b.insurance && r.next.groups[g].available == b.available
          && r.next.groups[g].ratio == Some(b.ratio))
  }

  lemma {:induction false} RatioIsBatch(c: Config, s: State, s': State, g: Gid, price: int)
    requires Shaped(c, s) && Shaped(c, s') && g in c.groups && JustFinalized(c, s, g, price)
    requires Holders(c, s'.bal, g) == {} && s'.insurance == s.insurance
    requires var b := BatchOf(c, s, g, price);
      && s'.cash == b.cashAfter
      && s'.groups[g] == s.groups[g].(collected := b.collected, pool := b.collected, unpaid := b.unpaid,
                                      credits := b.credits, settled := s'.groups[g].settled)
    ensures Agrees(c, s', g, BatchOf(c, s, g, price))
  {
    hide Units, Holders, Snapshot, RatioOf, InsuranceDraw, Payments, Debts, Credits, SettledCash, InGroup, RatioChecked;
  }

  /** Settling keeps what makes the ratio's checks hold. */
  lemma {:induction false} SettleAllCore(c: Config, s: State, g: Gid, order: seq<Aid>)
    requires Core(c, s) && g in c.groups && forall i :: 0 <= i < |order| ==> order[i] in c.owner
    ensures Core(c, SettleAll(c, s, g, order))
  {
    hide Settle, Core, Shaped;
    CoreShaped(c, s);
    if order != [] {
      var n := |order| - 1;
      SettleAllCore(c, s, g, order[..n]);
      SettleStepCore(c, SettleAll(c, s, g, order[..n]), order[n], g);
    }
  }

  lemma {:induction false} SettleStepCore(c: Config, s: State, a: Aid, g: Gid)
    requires Core(c, s) && a in c.owner && g in c.groups
    ensures Shaped(c, s) && (Settle(c, s, a, g).Done? ==> Core(c, Settle(c, s, a, g).next))
  {
    hide Settle;
    Settlement.SettleSafe(c, s, a, g);
  }

  /**
   * Stepwise settlement refines the batch formula: settle the participants one by one in any order and compute the
   * ratio, and collected, unpaid, credits, cash, insurance draw and ratio are those of `settle_group` on the balances
   * of the group as they were at finalization.
   */
  lemma {:induction false} StepwiseIsBatch(c: Config, s: State, g: Gid, price: int, order: seq<Aid>)
    requires Shaped(c, s) && g in c.groups && JustFinalized(c, s, g, price)
    requires Distinct(order) && AsSet(order) == Holders(c, s.bal, g)
    requires forall i :: 0 <= i < |order| ==> order[i] in c.owner
    ensures Agrees(c, SettleAll(c, s, g, order), g, BatchOf(c, s, g, price))
    ensures Core(c, s) ==> ComputeRatio(c, SettleAll(c, s, g, order), g).Done?
  {
    hide Settle, BatchOf, Holders, Agrees, Core, ComputeRatio;
    forall i | 0 <= i < |order| ensures HoldsIn(c, s.bal[order[i]], g) {
      OrderHolds(c, s.bal, g, order, i);
    }
    OrderIsIrrelevant(c, s, g, order);
    SettledIsBatch(c, s, g, price);
    EverybodyDone(c, s.bal, g);
    RatioIsBatch(c, s, SettleAll(c, s, g, order), g, price);
    NotTurnedDown(c, SettleAll(c, s, g, order), g, BatchOf(c, s, g, price));
    if Core(c, s) {
      SettleAllCore(c, s, g, order);
      Settlement.ComputeRatioSafe(c, SettleAll(c, s, g, order), g);
    }
  }

  lemma {:induction false} NotTurnedDown(c: Config, s: State, g: Gid, b: GroupResult)
    requires Shaped(c, s) && g in c.groups && Agrees(c, s, g, b)
    ensures !ComputeRatio(c, s, g).Reverted?
  {
  }

  lemma {:induction false} OrderHolds(c: Config, bal: map<Aid, Row>, g: Gid, order: seq<Aid>, i: nat)
    requires AsSet(order) == Holders(c, bal, g) && i < |order|
    ensures order[i] in bal && HoldsIn(c, bal[order[i]], g)
  {
    assert order[i] in AsSet(order);
  }

  lemma {:induction false} SameCash(nets: map<Aid, int>, cash: map<Aid, int>, d: int, done: set<Aid>)
    requires nets.Keys <= cash.Keys && 0 < d
    requires Payments(nets, cash, d, done) == Payments(nets, cash, d, nets.Keys)
    ensures SettledCash(nets, cash, d, done) == SettledCash(nets, cash, d, nets.Keys)
  {
  }

  lemma {:induction false} EverybodyDone(c: Config, bal: map<Aid, Row>, g: Gid)
    ensures Holders(c, SettledBal(c, bal, g, Holders(c, bal, g)), g) == {}
  {
    var bal' := SettledBal(c, bal, g, Holders(c, bal, g));
    forall a | a in bal' ensures !HoldsIn(c, bal'[a], g) {
      if a in Holders(c, bal, g) {
        assert forall sid :: sid in SeriesOf(c, g) ==> sid !in bal'[a];
      }
    }
  }
}
