/**
 * Class `Protocol` of reference/verify_invariants.py: fields updated in place, counters kept by their differences.
 *
 * Every method does what its function in module Clearing says, keeps the invariant, and keeps every counter equal to
 * its recount. Where the source checks an invariant as it goes (`ensure`), the method asserts it: the check never
 * fires.
 */
module ProtocolObject {
  import opened Basics
  import opened Sums
  import opened Tables
  import opened Clearing
  import opened Invariant
  import opened Trading
  import opened Slices
  import opened Health
  import opened Settlement
  import opened Counters
  import opened Directory
  import Margin
  import Liquidation
  import Runs

  /** A call that returns `ok` did what `o` says: the outcome's state, or nothing at all. */
  ghost predicate Did(o: Outcome, ok: bool, before: State, after: State) {
    if ok then o == Done(after) else o == Reverted && after == before
  }

  /** The state once an account has paid the seller fee. */
  function FeeCharged(s: State, aid: Aid, fee: int): State
    requires aid in s.cash
  {
    var ins, kp := FeeToInsurance(fee), FeeToKeeper(fee);
    s.(cash := s.cash[aid := s.cash[aid] - fee], insurance := s.insurance + ins, keeper := s.keeper + kp,
       treasury := s.treasury + (fee - ins - kp))
  }

  /** Balances once `m` of a series has moved from one account to another. */
  function Shifted(bal: map<Aid, Row>, frm: Aid, to: Aid, sid: Sid, m: int): map<Aid, Row>
    requires frm in bal && to in bal
  {
    SetBalance(SetBalance(bal, frm, sid, Get(bal[frm], sid) - m), to, sid, Get(bal[to], sid) + m)
  }

  /** Calls that no check can stop. */
  predicate Pays(a: Runs.Action) {
    a.DepositCash? || a.WithdrawCash? || a.Transfer?
  }

  predicate Trades(a: Runs.Action) {
    a.MintLong? || a.WrapLong? || a.UnwrapLong? || a.CloseShort? || a.CloseAcross?
  }

  /** Everything the object holds. */
  datatype Saved = Saved(
    state: State, ledger: Ledger, supply: map<Sid, int>, custody: int, feesCharged: int, feeDest: int, events: seq<Log>)

  class Protocol {
    const c: Config
    var now: int
    var prices: Prices
    var bal: map<Aid, Row>
    var cash: map<Aid, int>
    var usdc: map<Owner, int>
    var wr: map<Owner, Row>
    var groups: map<Gid, Group>
    var supply: map<Sid, int>
    var totLong: map<Sid, int>
    var totShort: map<Sid, int>
    var seriesCount: Counts
    var participants: map<Gid, int>
    var custody: int
    var insurance: int
    var treasury: int
    var keeper: int
    var feesCharged: int
    /** The log of balance writes, which off-chain directories replay. */
    var events: seq<Log>
    var feeDest: int

    function View(): State
      reads this`now, this`prices, this`bal, this`cash, this`usdc, this`wr, this`groups, this`insurance, this`treasury,
        this`keeper
    {
      State(now, prices, bal, cash, usdc, wr, groups, insurance, treasury, keeper)
    }

    function Book(): Ledger
      reads this`bal, this`totLong, this`totShort, this`seriesCount, this`participants
    {
      Ledger(bal, totLong, totShort, seriesCount, participants)
    }

    /** INV-2, 4, 7, 9, 27: the counters are recounts. */
    ghost predicate Counted()
      reads this
    {
      && LedgerOk(c, Book())
      && Emitted(bal, events)
      && SupplyOk(wr, supply)
      && custody == Custody(View())
      && feesCharged == feeDest
    }

    ghost predicate Valid()
      reads this
    {
      Core(c, View()) && Priced(c) && Counted()
    }

    constructor (c: Config, now: int, prices: Prices, usdc: map<Owner, int>, insurance: int)
      requires WellFormed(c) && Priced(c) && usdc.Keys == c.wallets && NonNegative(usdc) && 0 <= insurance
      ensures Valid() && Inv(c, View()) && this.c == c && View() == Runs.Genesis(c, now, prices, usdc, insurance)
    {
      this.c := c;
      this.now, this.prices, this.usdc, this.insurance := now, prices, usdc, insurance;
      bal, cash := map a | a in c.owner :: map[], map a | a in c.owner :: 0;
      wr, groups := map o | o in c.wallets :: map[], map g | g in c.groups :: NEW_GROUP;
      supply, totLong, totShort, seriesCount, participants := map[], map[], map[], map[], map[];
      custody, treasury, keeper, feesCharged, feeDest, events := 0, 0, 0, 0, 0, [];
      new;
      NothingEmitted(bal);
      Runs.GenesisInv(c, now, prices, usdc, insurance);
      EmptyIsCounted(c, bal, wr);
      SumZero(this.cash);
      SumZero(Pools(groups));
    }

    /** A series of the group opens or closes in the account; the first and the last one make a participant. */
    method CountSeries(aid: Aid, g: Gid, opens: bool, closes: bool)
      requires !(opens && closes)
      modifies this`seriesCount, this`participants
      ensures seriesCount == SeriesAfter(old(seriesCount), aid, g, opens, closes)
      ensures participants == ParticipantsAfter(old(seriesCount), old(participants), aid, g, opens, closes)
    {
      var n := Get(seriesCount, (aid, g));
      if opens {
        seriesCount := seriesCount[(aid, g) := n + 1];
        if n + 1 == 1 {
          participants := participants[g := Get(participants, g) + 1];
        }
      }
      if closes {
        seriesCount := seriesCount[(aid, g) := n - 1];
        if n - 1 == 0 {
          participants := participants[g := Get(participants, g) - 1];
        }
      }
    }

    /** A series' totals, long and short, after an entry went from `was` to `v`. */
    method CountTotals(sid: Sid, was: int, v: int)
      modifies this`totLong, this`totShort
      ensures totLong == old(totLong)[sid := Get(old(totLong), sid) + (Max(v, 0) - Max(was, 0))]
      ensures totShort == old(totShort)[sid := Get(old(totShort), sid) + (Max(-v, 0) - Max(-was, 0))]
    {
      totLong := totLong[sid := Get(totLong, sid) + (Max(v, 0) - Max(was, 0))];
      totShort := totShort[sid := Get(totShort, sid) + (Max(-v, 0) - Max(-was, 0))];
    }

    /** Every counter, by what the entry is about to change. */
    method CountEntry(aid: Aid, sid: Sid, v: int)
      requires aid in bal && sid in c.series
      modifies this`totLong, this`totShort, this`seriesCount, this`participants
      ensures Book() == Counters.SetBal(c, old(Book()), aid, sid, v).(bal := bal)
      ensures Counters.SetBal(c, old(Book()), aid, sid, v).bal == SetBalance(bal, aid, sid, v)
    {
      hide Put, Get, Max, SeriesAfter, ParticipantsAfter;
      var was, g := Get(bal[aid], sid), c.series[sid].group;
      CountTotals(sid, was, v);
      CountSeries(aid, g, was == 0 && v != 0, was != 0 && v == 0);
    }

    method SetBal(aid: Aid, sid: Sid, v: int)
      requires 0 < c.lot && aid in bal && sid in c.series && LedgerOk(c, Book()) && IsLots(c.lot, v)
      modifies this`bal, this`events, this`totLong, this`totShort, this`seriesCount, this`participants
      ensures Book() == Counters.SetBal(c, old(Book()), aid, sid, v)
      ensures LedgerOk(c, Book()) && bal == SetBalance(old(bal), aid, sid, v)
      ensures events == old(events) + [Log(sid, aid, v)]
    {
      hide LedgerOk, Put, Max, IsLots, Counters.SetBal;
      LotsAreWhole(c.lot, v);
      SetBalIsRecount(c, Book(), aid, sid, v);
      assert v == 0 || (c.lot <= Max(v, -v) && v % c.lot == 0);  // INV-6
      CountEntry(aid, sid, v);
      bal := bal[aid := Put(bal[aid], sid, v)];
      events := events + [Log(sid, aid, v)];
    }

    method RiskWith(cash: int, row: Row) returns (r: Margin.Risk)
      requires Shaped(c, View()) && row.Keys <= c.series.Keys
      ensures r == RiskAt(c, View(), cash, row)
    {
      r := Margin.AccountRisk(MarketOf(c, now, prices), Liquidation.Tokens(cash), Legs(c, View(), row));
    }

    method RiskOf(aid: Aid) returns (r: Margin.Risk)
      requires Shaped(c, View()) && aid in c.owner
      ensures r == Risk(c, View(), aid)
    {
      r := RiskWith(cash[aid], bal[aid]);
    }

    /** INV-13, as the source checks it after a risk-reducing action. */
    method CheckTolerated(aid: Aid, before: Margin.Risk) returns (fine: bool)
      requires Shaped(c, View()) && aid in c.owner
      ensures fine == Tolerated(before, Risk(c, View(), aid))
    {
      hide Tolerated, Risk, Shaped;
      var after := RiskOf(aid);
      fine := Tolerated(before, after);
    }

    /** INV-11, as the source checks it after an action that raises risk. */
    method CheckHealthy(aid: Aid)
      requires Shaped(c, View()) && aid in c.owner && Healthy(Risk(c, View(), aid))
    {
      hide Healthy, Risk, Shaped;
      var after := RiskOf(aid);
      assert Healthy(after);
    }

    /** Cash between an account and its owner's wallet; custody follows. */
    method MoveCash(aid: Aid, x: int)
      requires Counted() && aid in c.owner && aid in cash && c.owner[aid] in usdc
      modifies this`usdc, this`custody, this`cash
      ensures var s, o := old(View()), c.owner[aid];
        View() == s.(usdc := s.usdc[o := s.usdc[o] - x], cash := s.cash[aid := s.cash[aid] + x])
      ensures Counted()
    {
      hide Emitted, LedgerOk, SupplyOk, Custody;
      ghost var s := View();
      var o := c.owner[aid];
      usdc := usdc[o := usdc[o] - x];
      custody := custody + x;
      cash := cash[aid := cash[aid] + x];
      CustodyOfCash(s, View(), aid, x);
    }

    method Deposit(aid: Aid, amt: int) returns (ok: bool)
      requires Valid() && aid in c.owner
      modifies this
      ensures Valid() && Kept(c, old(View()), View())
      ensures Did(Clearing.Deposit(c, old(View()), aid, amt), ok, old(View()), View())
      ensures events == old(events)
    {
      hide Inv, Core, Kept, Emitted, LedgerOk, SupplyOk, RiskAt, Risk, NotWorse, Tolerated, Shaped, Custody, Priced;
      hide WellFormed, Sum, Get, Pools;
      ghost var s := View();
      KeptSelf(c, s);
      InPlace(c, s, aid);
      var o := c.owner[aid];
      if amt <= 0 || usdc[o] < amt {
        return false;
      }
      var before := RiskOf(aid);
      DepositSafe(c, s, aid, amt);
      DepositNotWorse(c, s, aid, amt);
      ghost var s1 := Clearing.Deposit(c, s, aid, amt).next;
      KeptIsCore(c, s, s1);
      MoveCash(aid, amt);
      assert View() == s1;
      if bal[aid] != map[] {
        var fine := CheckTolerated(aid, before);
        NotWorseIsTolerated(before, Risk(c, s1, aid));
        assert fine;  // INV-13
      }
      ok := true;
    }

    method Withdraw(aid: Aid, amt: int) returns (ok: bool)
      requires Valid() && aid in c.owner
      modifies this
      ensures Valid() && Kept(c, old(View()), View())
      ensures Did(Clearing.Withdraw(c, old(View()), aid, amt), ok, old(View()), View())
      ensures events == old(events)
    {
      hide Inv, Core, Kept, Emitted, LedgerOk, SupplyOk, RiskAt, Risk, Healthy, FreshFor, Shaped, Custody, Priced;
      hide WellFormed, Sum;
      ghost var s := View();
      KeptSelf(c, s);
      InPlace(c, s, aid);
      var row := bal[aid];
      if amt <= 0 || cash[aid] < amt || (row != map[] && !FreshFor(c, View(), row)) {
        return false;
      }
      if row != map[] {
        var r := RiskWith(cash[aid] - amt, row);
        if !Healthy(r) {
          return false;
        }
      }
      WithdrawSafe(c, s, aid, amt);
      ghost var s1 := Clearing.Withdraw(c, s, aid, amt).next;
      KeptIsCore(c, s, s1);
      MoveCash(aid, -amt);
      assert View() == s1;
      if row != map[] {
        WithdrawLeavesHealthy(c, s, aid, amt);
        CheckHealthy(aid);
      }
      ok := true;
    }

    /** The seller fee is split among insurance, keeper reserve and treasury (INV-9). */
    method SplitFee(fee: int)
      requires Counted()
      modifies this`insurance, this`keeper, this`treasury, this`feesCharged, this`feeDest
      ensures var s, ins, kp := old(View()), FeeToInsurance(fee), FeeToKeeper(fee);
        View() == s.(insurance := s.insurance + ins, keeper := s.keeper + kp, treasury := s.treasury + (fee - ins - kp))
      ensures Counted()
    {
      hide Emitted, LedgerOk, SupplyOk, Custody, FeeToInsurance, FeeToKeeper, Sum, Pools, Get;
      ghost var s := View();
      var ins, kp := FeeToInsurance(fee), FeeToKeeper(fee);
      var tr := fee - ins - kp;
      insurance, keeper, treasury := insurance + ins, keeper + kp, treasury + tr;
      feesCharged, feeDest := feesCharged + fee, feeDest + (ins + kp + tr);
      CustodyFrame(s, View());
    }

    method TakeCash(aid: Aid, x: int)
      requires Counted() && aid in cash
      modifies this`cash, this`custody
      ensures View() == old(View()).(cash := old(cash)[aid := old(cash)[aid] - x]) && Counted()
    {
      hide Emitted, LedgerOk, SupplyOk, Custody;
      ghost var s := View();
      cash := cash[aid := cash[aid] - x];
      custody := custody - x;
      CustodyOfCash(s, View(), aid, -x);
    }

    method ChargeFee(aid: Aid, fee: int)
      requires Counted() && aid in cash
      modifies this`cash, this`custody, this`insurance, this`keeper, this`treasury, this`feesCharged, this`feeDest
      ensures View() == FeeCharged(old(View()), aid, fee) && Counted()
    {
      hide Emitted, LedgerOk, SupplyOk, Custody, FeeToInsurance, FeeToKeeper;
      TakeCash(aid, fee);
      SplitFee(fee);
    }

    /** `SetBal` as the rest of the object sees it: one balance changes, and everything stays counted. */
    method Write(aid: Aid, sid: Sid, v: int)
      requires Counted() && 0 < c.lot && aid in bal && sid in c.series && IsLots(c.lot, v)
      modifies this`bal, this`events, this`totLong, this`totShort, this`seriesCount, this`participants
      ensures View() == old(View()).(bal := SetBalance(old(bal), aid, sid, v)) && Counted()
      ensures events == old(events) + [Log(sid, aid, v)]
    {
      hide Emitted, LedgerOk, SupplyOk, Custody, Counters.SetBal, IsLots, SetBalance;
      ghost var s := View();
      EmitOne(bal, events, aid, sid, v);
      SetBal(aid, sid, v);
      CustodyFrame(s, View());
    }

    /** Wrapper tokens minted to a wallet, or burned from it. */
    method Issue(o: Owner, sid: Sid, q: int)
      requires Counted() && o in wr
      modifies this`wr, this`supply
      ensures View() == old(View()).(wr := Give(old(wr), o, sid, q)) && Counted()
    {
      hide Emitted, LedgerOk, SupplyOk, Custody;
      ghost var s := View();
      GiveSupply(wr, supply, o, sid, q);
      wr := wr[o := wr[o][sid := Get(wr[o], sid) + q]];
      supply := supply[sid := Get(supply, sid) + q];
      CustodyFrame(s, View());
    }

    /** Wrapper tokens minted to a wallet, or burned from it, against a balance set to `v`. */
    method Exchange(aid: Aid, o: Owner, sid: Sid, v: int, q: int)
      requires Counted() && 0 < c.lot && aid in bal && o in wr && sid in c.series && IsLots(c.lot, v)
      modifies this`wr, this`supply, this`bal, this`events, this`totLong, this`totShort, this`seriesCount,
        this`participants
      ensures var s := old(View());
        View() == s.(bal := SetBalance(s.bal, aid, sid, v), wr := Give(s.wr, o, sid, q))
      ensures Counted()
      ensures old(events) <= events
    {
      hide Emitted, LedgerOk, SupplyOk, Custody, SetBalance, IsLots, Give;
      Issue(o, sid, q);
      Write(aid, sid, v);
    }

    /** A position moved between two accounts. */
    method MoveBalance(frm: Aid, to: Aid, sid: Sid, m: int)
      requires Counted() && 0 < c.lot && frm in bal && to in bal && frm != to && sid in c.series
      requires IsLots(c.lot, Get(bal[frm], sid) - m) && IsLots(c.lot, Get(bal[to], sid) + m)
      modifies this`bal, this`events, this`totLong, this`totShort, this`seriesCount, this`participants
      ensures View() == old(View()).(bal := Shifted(old(View()).bal, frm, to, sid, m)) && Counted()
      ensures old(events) <= events
    {
      hide Emitted, LedgerOk, SupplyOk, Custody, Counters.SetBal, IsLots, Put, Get;
      Write(frm, sid, Get(bal[frm], sid) - m);
      Write(to, sid, Get(bal[to], sid) + m);
    }

    /** The tests that a mint has to pass, and its fee. */
    method MayMint(aid: Aid, sid: Sid, q: int) returns (allowed: bool, fee: int)
      requires Shaped(c, View()) && Known(c, aid, sid)
      ensures allowed == MintAllowed(c, View(), aid, sid, q) && (allowed ==> fee == MintFee(c, View(), sid, q))
    {
      hide RiskAt, Healthy, FreshFor, MintFee, Active;
      ShapedInPlace(c, View(), aid);
      var row := bal[aid];
      if !Active(c, now, sid) || q <= 0 {
        return false, 0;
      }
      var wanted := row[sid := Get(row, sid) - q];
      if !FreshFor(c, View(), wanted) {
        return false, 0;
      }
      fee := MintFee(c, View(), sid, q);
      if cash[aid] < fee {
        return false, fee;
      }
      var r := RiskWith(cash[aid] - fee, wanted);
      allowed := Healthy(r);
    }

    method Mint(aid: Aid, sid: Sid, q: int, to: Owner) returns (ok: bool, raised: bool)
      requires Valid() && Known(c, aid, sid) && to in c.wallets
      modifies this
      ensures Counted() && (raised ==> Clearing.Mint(c, old(View()), aid, sid, q, to) == Raised)
      ensures !raised ==> Valid() && Kept(c, old(View()), View())
      ensures !raised ==> Did(Clearing.Mint(c, old(View()), aid, sid, q, to), ok, old(View()), View())
      ensures old(events) <= events
    {
      hide Inv, Core, Kept, Emitted, LedgerOk, SupplyOk, RiskAt, Risk, Healthy, MintAllowed, Shaped, Custody, Priced;
      hide Sum;
      hide Clearing.Mint, MintFee, Give, Counters.SetBal, SetBalance, Put, Get, UnderlyingOf, Active, IsLots;
      hide FeeToInsurance;
      hide FeeToKeeper;
      ghost var s := View();
      KeptSelf(c, s);
      InPlace(c, s, aid);
      WalletInPlace(c, s, to);
      ok, raised := false, false;
      MintIs(c, s, aid, sid, q, to);
      var allowed, fee := MayMint(aid, sid, q);
      if !allowed {
        return;
      }
      var v := Get(bal[aid], sid) - q;
      ChargeFee(aid, fee);
      if !IsLots(c.lot, v) {
        raised := true;  // INV-6, by the write
        return;
      }
      MintSafe(c, s, aid, sid, q, to);
      MintLeavesHealthy(c, s, aid, sid, q, to);
      ghost var s1 := Clearing.Mint(c, s, aid, sid, q, to).next;
      KeptIsCore(c, s, s1);
      Exchange(aid, to, sid, v, q);
      assert View() == s1;
      CheckHealthy(aid);
      ok := true;
    }

    method Unwrap(owner: Owner, aid: Aid, sid: Sid, q: int) returns (ok: bool, raised: bool)
      requires Valid() && Known(c, aid, sid) && owner in c.wallets
      modifies this
      ensures Counted() && (raised ==> Clearing.Unwrap(c, old(View()), owner, aid, sid, q) == Raised)
      ensures !raised ==> Valid() && Kept(c, old(View()), View())
      ensures !raised ==> Did(Clearing.Unwrap(c, old(View()), owner, aid, sid, q), ok, old(View()), View())
      ensures old(events) <= events
    {
      hide Inv, Core, Kept, Emitted, LedgerOk, SupplyOk, RiskAt, Risk, Tolerated, Shaped, Custody, Priced, Sum, Give;
      hide Active, IsLots, Counters.SetBal, SetBalance, Put, Get, UnderlyingOf;
      ghost var s := View();
      KeptSelf(c, s);
      InPlace(c, s, aid);
      WalletInPlace(c, s, owner);
      ok, raised := false, false;
      if c.owner[aid] != owner || !Active(c, now, sid) || Get(wr[owner], sid) < q {
        return;
      }
      var nb := Get(bal[aid], sid) + q;
      if nb != 0 && nb < c.lot && -nb < c.lot {
        return;
      }
      var before := RiskOf(aid);
      if !IsLots(c.lot, nb) {
        raised := true;  // INV-6, by the write
        return;
      }
      UnwrapSafe(c, s, owner, aid, sid, q);
      AfterExchange(c, s, owner, aid, sid, -q);
      Exchange(aid, owner, sid, nb, -q);
      var fine := CheckTolerated(aid, before);
      if !fine {
        raised := true;  // INV-13
        return;
      }
      KeptIsCore(c, s, View());
      ok := true;
    }

    method Wrap(aid: Aid, sid: Sid, q: int, to: Owner) returns (ok: bool, raised: bool)
      requires Valid() && Known(c, aid, sid) && to in c.wallets
      modifies this
      ensures Counted() && (raised ==> Clearing.Wrap(c, old(View()), aid, sid, q, to) == Raised)
      ensures !raised ==> Valid() && Kept(c, old(View()), View())
      ensures !raised ==> Did(Clearing.Wrap(c, old(View()), aid, sid, q, to), ok, old(View()), View())
      ensures old(events) <= events
    {
      hide Inv, Core, Kept, Emitted, LedgerOk, SupplyOk, RiskAt, Risk, Healthy, FreshFor, Shaped, Custody, Priced, Sum;
      hide Give, Active, IsLots, Counters.SetBal, SetBalance, Put, Get, UnderlyingOf;
      ghost var s := View();
      KeptSelf(c, s);
      InPlace(c, s, aid);
      WalletInPlace(c, s, to);
      ok, raised := false, false;
      var row := bal[aid];
      if !Active(c, now, sid) || Get(row, sid) < q || q <= 0 {
        return;
      }
      var left := Put(row, sid, Get(row, sid) - q);
      if !FreshFor(c, View(), row) {
        return;
      }
      var r := RiskWith(cash[aid], left);
      if !Healthy(r) {
        return;
      }
      if !IsLots(c.lot, Get(row, sid) - q) {
        raised := true;  // INV-6, by the write
        return;
      }
      WrapSafe(c, s, aid, sid, q, to);
      WrapLeavesHealthy(c, s, aid, sid, q, to);
      ghost var s1 := Clearing.Wrap(c, s, aid, sid, q, to).next;
      KeptIsCore(c, s, s1);
      Exchange(aid, to, sid, Get(row, sid) - q, q);
      assert View() == s1;
      CheckHealthy(aid);
      ok := true;
    }

    method CloseWithWrapper(owner: Owner, aid: Aid, sid: Sid, q: int) returns (ok: bool, raised: bool)
      requires Valid() && Known(c, aid, sid) && owner in c.wallets
      modifies this
      ensures Counted() && (raised ==> Clearing.CloseWithWrapper(c, old(View()), owner, aid, sid, q) == Raised)
      ensures !raised ==> Valid() && Kept(c, old(View()), View())
      ensures !raised ==> Did(Clearing.CloseWithWrapper(c, old(View()), owner, aid, sid, q), ok, old(View()), View())
      ensures old(events) <= events
    {
      hide Inv, Core, Kept, Emitted, LedgerOk, SupplyOk, RiskAt, Risk, Tolerated, Shaped, Custody, Priced, Sum, Give;
      hide IsLots, Counters.SetBal, SetBalance, Put, Get, UnderlyingOf;
      ghost var s := View();
      KeptSelf(c, s);
      InPlace(c, s, aid);
      WalletInPlace(c, s, owner);
      GroupInPlace(c, s, c.series[sid].group);
      ok, raised := false, false;
      var x := Get(bal[aid], sid);
      if c.owner[aid] != owner || groups[c.series[sid].group].price.Some? || -q < x || Get(wr[owner], sid) < q {
        return;
      }
      var before := RiskOf(aid);
      if sid !in bal[aid] || !IsLots(c.lot, x + q) {
        raised := true;  // no entry to add to; INV-6, by the write
        return;
      }
      CloseWithWrapperSafe(c, s, owner, aid, sid, q);
      AfterExchange(c, s, owner, aid, sid, -q);
      Exchange(aid, owner, sid, x + q, -q);
      var fine := CheckTolerated(aid, before);
      if !fine {
        raised := true;  // INV-13
        return;
      }
      KeptIsCore(c, s, View());
      ok := true;
    }

    /** Whether an account may give a long away. */
    method MayGive(frm: Aid, sid: Sid, q: int) returns (allowed: bool)
      requires Shaped(c, View()) && Known(c, frm, sid)
      ensures allowed == GiveAllowed(c, View(), frm, sid, q)
    {
      hide RiskAt, Healthy, FreshFor;
      ShapedInPlace(c, View(), frm);
      if !FreshFor(c, View(), bal[frm]) {
        return false;
      }
      var r := RiskWith(cash[frm], Put(bal[frm], sid, Get(bal[frm], sid) - q));
      allowed := Healthy(r);
    }

    method CloseInternal(frm: Aid, to: Aid, sid: Sid, q: int) returns (ok: bool, raised: bool)
      requires Valid() && Known(c, frm, sid) && to in c.owner
      modifies this
      ensures Counted() && (raised ==> Clearing.CloseInternal(c, old(View()), frm, to, sid, q) == Raised)
      ensures !raised ==> Valid() && Kept(c, old(View()), View())
      ensures !raised ==> Did(Clearing.CloseInternal(c, old(View()), frm, to, sid, q), ok, old(View()), View())
      ensures old(events) <= events
    {
      hide Inv, Core, Kept, Emitted, LedgerOk, SupplyOk, RiskAt, Risk, Healthy, Tolerated, FreshFor, Shaped, Custody;
      hide Clearing.CloseInternal, Priced, Sum, IsLots, Counters.SetBal, SetBalance, Put, Get, UnderlyingOf;
      ghost var s := View();
      KeptSelf(c, s);
      InPlace(c, s, frm);
      InPlace(c, s, to);
      GroupInPlace(c, s, c.series[sid].group);
      CloseIs(c, s, frm, to, sid, q);
      ok, raised := false, false;
      if frm == to || c.owner[frm] != c.owner[to] || groups[c.series[sid].group].price.Some? {
        return;
      }
      var a, b := Get(bal[frm], sid), Get(bal[to], sid);
      if a < q || -q < b {
        return;
      }
      if sid !in bal[frm] {
        raised := true;  // no entry to take from
        return;
      }
      var allowed := MayGive(frm, sid, q);
      if !allowed {
        return;
      }
      var before := RiskOf(to);
      if !IsLots(c.lot, a - q) || !IsLots(c.lot, b + q) {
        raised := true;  // INV-6, by one of the writes
        return;
      }
      CloseInternalSafe(c, s, frm, to, sid, q);
      AfterMove(c, s, frm, to, sid, q);
      MoveBalance(frm, to, sid, q);
      CheckHealthy(frm);
      var fine := CheckTolerated(to, before);
      if !fine {
        raised := true;  // INV-13
        return;
      }
      KeptIsCore(c, s, View());
      ok := true;
    }

    /** Wrapper tokens from wallet to wallet: the supply stays. */
    method HandOver(frm: Owner, to: Owner, sid: Sid, q: int)
      requires Counted() && frm in wr && to in wr
      modifies this`wr
      ensures View() == old(View()).(wr := Give(Give(old(wr), frm, sid, -q), to, sid, q)) && Counted()
    {
      hide Emitted, LedgerOk, SupplyOk, Custody, Get;
      ghost var s := View();
      TransferSupply(wr, supply, frm, to, sid, q);
      wr := wr[frm := wr[frm][sid := Get(wr[frm], sid) - q]];
      wr := wr[to := wr[to][sid := Get(wr[to], sid) + q]];
      CustodyFrame(s, View());
    }

    method TransferWrapper(frm: Owner, to: Owner, sid: Sid, q: int) returns (ok: bool)
      requires Valid() && frm in c.wallets && to in c.wallets && sid in c.series
      modifies this
      ensures Valid() && Kept(c, old(View()), View())
      ensures Did(Clearing.TransferWrapper(c, old(View()), frm, to, sid, q), ok, old(View()), View())
      ensures events == old(events)
    {
      hide Inv, Core, Kept, Emitted, LedgerOk, SupplyOk, Shaped, Custody, Priced, Sum, Get;
      ghost var s := View();
      KeptSelf(c, s);
      WalletInPlace(c, s, frm);
      WalletInPlace(c, s, to);
      CoreShaped(c, s);
      if Get(wr[frm], sid) < q || q <= 0 {
        return false;
      }
      TransferWrapperSafe(c, s, frm, to, sid, q);
      ghost var s1 := Clearing.TransferWrapper(c, s, frm, to, sid, q).next;
      KeptIsCore(c, s, s1);
      HandOver(frm, to, sid, q);
      assert View() == s1;
      ok := true;
    }

    // -------------------------------------------------------------------------------------------------------
    // Liquidation
    // -------------------------------------------------------------------------------------------------------

    /** Which whole lots a slice moves. */
    method PickMove(aid: Aid, u: Underlying, sliceBps: nat) returns (move: Row)
      requires Shaped(c, View()) && aid in c.owner
      ensures move == Move(c, View(), aid, u, sliceBps)
    {
      hide Shaped, SliceOf;
      ShapedInPlace(c, View(), aid);
      var row := bal[aid];
      var todo := Movable(c, View(), aid, u);
      move := map[];
      while todo != {}
        invariant todo <= Movable(c, View(), aid, u)
        invariant move == map sid | sid in Movable(c, View(), aid, u) - todo && SliceOf(c.lot, row[sid], sliceBps) != 0
                    :: SliceOf(c.lot, row[sid], sliceBps)
        decreases |todo|
      {
        var sid :| sid in todo;
        var m := SliceOf(c.lot, row[sid], sliceBps);
        if m != 0 {
          move := move[sid := m];
        }
        todo := todo - {sid};
      }
    }

    /** Whether an account can be liquidated, with what a slice moves and the margin that this frees. */
    method Assess(aid: Aid, u: Underlying, sliceBps: nat) returns (due: bool, r0: Margin.Risk, move: Row, sliceMm: real)
      requires Valid() && aid in c.owner
      ensures Shaped(c, View()) && r0 == Risk(c, View(), aid) && move == Move(c, View(), aid, u, sliceBps)
      ensures due <==> r0.equity < r0.mm && move != map[] && 0.0 < SliceMm(c, View(), aid, move)
      ensures due ==> sliceMm == SliceMm(c, View(), aid, move)
    {
      hide Inv, Core, Emitted, LedgerOk, SupplyOk, RiskAt, Shaped, Custody, Priced, Move, Less;
      InPlace(c, View(), aid);
      r0 := RiskWith(cash[aid], bal[aid]);
      move := PickMove(aid, u, sliceBps);
      due, sliceMm := false, 0.0;
      if r0.mm <= r0.equity || move == map[] {
        return;
      }
      MoveInPlace(c, View(), aid, u, sliceBps);
      var rRest := RiskWith(cash[aid], Less(bal[aid], move));
      sliceMm := r0.mm - rRest.mm;
      due := 0.0 < sliceMm;
    }

    /** The cash of a slice, in native units: to the liquidator rounded up, from the liquidator rounded down. */
    method PriceSlice(aid: Aid, move: Row, sliceMm: real, bonusBps: nat) returns (n: Liquidation.NativeSlice)
      requires Shaped(c, View()) && aid in c.owner && move.Keys <= c.series.Keys
      requires sliceMm == SliceMm(c, View(), aid, move)
      ensures n == SliceCashFlow(c, View(), aid, move, bonusBps)
    {
      hide Shaped, SliceMm, Liquidation.SliceCash, Liquidation.Pay, Liquidation.RoundUp, Liquidation.Tokens;
      ShapedInPlace(c, View(), aid);
      var mark := Margin.SumValues(MarketOf(c, now, prices), Legs(c, View(), move), None);
      var res := Liquidation.LiquidationCash(mark, sliceMm, bonusBps, PENALTY_BPS,
                                             Liquidation.Tokens(cash[aid]), Liquidation.Tokens(insurance));
      var pay := Liquidation.Pay(res.cashToLiq * (UNIT as real));
      var pen := Liquidation.RoundUp(res.penalty * (UNIT as real));
      var payAcc, topup := pay, 0;
      if cash[aid] < pay {
        topup := Min(pay - cash[aid], insurance);
        payAcc, pen := cash[aid], 0;
      } else {
        pen := Min(pen, cash[aid] - pay);
      }
      n := Liquidation.NativeSlice(payAcc, pen, topup);
    }

    /** Every leg of a slice moves to the liquidator. */
    method MoveLegs(aid: Aid, move: Row)
      requires Counted() && Shaped(c, View()) && WholeLots(c.lot, bal) && aid in c.owner && aid != c.liqAid
      requires aid in bal && move.Keys <= bal[aid].Keys && forall sid :: sid in move ==> IsLots(c.lot, move[sid])
      modifies this`bal, this`events, this`totLong, this`totShort, this`seriesCount, this`participants
      ensures View() == old(View()).(bal := Moved(old(View()).bal, aid, c.liqAid, move)) && Counted()
      ensures old(events) <= events
    {
      hide Emitted, LedgerOk, SupplyOk, Custody, Shaped, WholeLots, IsLots, Moved, Shifted;
      ghost var s := View();
      ShapedInPlace(c, s, aid);
      ShapedInPlace(c, s, c.liqAid);
      ghost var done: Row := map[];
      var todo := move.Keys;
      MovedNothing(c.lot, bal, aid, c.liqAid);
      while todo != {}
        invariant todo <= move.Keys && done == move - todo
        invariant View() == s.(bal := Moved(s.bal, aid, c.liqAid, done)) && Counted() && old(events) <= events
        decreases |todo|
      {
        var sid :| sid in todo;
        MovedOne(c, s.bal, aid, c.liqAid, move, done, sid);
        MoveBalance(aid, c.liqAid, sid, move[sid]);
        todo, done := todo - {sid}, done[sid := move[sid]];
      }
      assert done == move;
    }

    /** The cash of a slice: the penalty leaves custody for insurance, a top-up arrives from there. */
    method PaySlice(aid: Aid, n: Liquidation.NativeSlice)
      requires Counted() && aid in cash && c.liqAid in cash && aid != c.liqAid
      modifies this`cash, this`custody, this`insurance
      ensures var s := old(View());
        var paid := s.cash[aid := s.cash[aid] - n.payAcc - n.pen];
        View() == s.(cash := paid[c.liqAid := paid[c.liqAid] + n.payAcc + n.topup],
                     insurance := s.insurance + n.pen - n.topup)
      ensures Counted()
    {
      hide Emitted, LedgerOk, SupplyOk, Custody;
      ghost var s := View();
      cash := cash[aid := cash[aid] - n.payAcc - n.pen];
      cash := cash[c.liqAid := cash[c.liqAid] + n.payAcc + n.topup];
      insurance := insurance + n.pen - n.topup;
      custody := custody + n.topup - n.pen;
      CustodyOfSlice(c, s, View(), aid, n);
    }

    /** The effects of a slice. */
    method TakeSlice(aid: Aid, move: Row, n: Liquidation.NativeSlice)
      requires Counted() && Shaped(c, View()) && WholeLots(c.lot, bal) && aid in c.owner && aid != c.liqAid
      requires aid in bal && move.Keys <= bal[aid].Keys && forall sid :: sid in move ==> IsLots(c.lot, move[sid])
      modifies this`cash, this`custody, this`insurance
      modifies this`bal, this`events, this`totLong, this`totShort, this`seriesCount, this`participants
      ensures View() == Sliced(c, old(View()), aid, move, n) && Counted()
      ensures old(events) <= events
    {
      hide Emitted, LedgerOk, SupplyOk, Custody, Shaped, WholeLots, IsLots, Less, More;
      ghost var s := View();
      ShapedInPlace(c, s, aid);
      ShapedInPlace(c, s, c.liqAid);
      MoveLegs(aid, move);
      PaySlice(aid, n);
    }

    /** What the account would be left with: the slice's cash, and its margin after it. */
    method Simulate(aid: Aid, move: Row, sliceMm: real, bonusBps: nat)
      returns (n: Liquidation.NativeSlice, sim: Margin.Risk)
      requires Shaped(c, View()) && aid in c.owner && move.Keys <= c.series.Keys
      requires sliceMm == SliceMm(c, View(), aid, move)
      ensures n == SliceCashFlow(c, View(), aid, move, bonusBps)
      ensures sim == RiskAt(c, View(), View().cash[aid] - n.payAcc - n.pen, Less(View().bal[aid], move))
    {
      hide SliceCashFlow, SliceMm, RiskAt;
      ShapedInPlace(c, View(), aid);
      n := PriceSlice(aid, move, sliceMm, bonusBps);
      sim := RiskWith(cash[aid] - n.payAcc - n.pen, Less(bal[aid], move));
    }

    /**
     * The effects of a slice, and what the source checks after them: INV-22 and INV-25 cannot fail, the rest decides.
     */
    method SliceAndCheck(aid: Aid, ghost u: Underlying, ghost sliceBps: nat, ghost bonusBps: nat, move: Row,
        n: Liquidation.NativeSlice, ghost r0: Margin.Risk) returns (fine: bool)
      requires Valid() && aid in c.owner && aid != c.liqAid && r0 == Risk(c, View(), aid)
      requires move == Move(c, View(), aid, u, sliceBps)
      requires 0.0 <= SliceMm(c, View(), aid, move) && n == SliceCashFlow(c, View(), aid, move, bonusBps)
      requires 0.0 < SliceGain(c, View(), aid, move, n)
      modifies this`cash, this`custody, this`insurance
      modifies this`bal, this`events, this`totLong, this`totShort, this`seriesCount, this`participants
      ensures View() == Sliced(c, old(View()), aid, move, n) && Counted() && 0 <= insurance
      ensures fine <==> Healthy(Risk(c, View(), c.liqAid)) && ShortsHold(c, old(bal), bal)
      ensures old(events) <= events
    {
      hide Inv, Core, Emitted, LedgerOk, SupplyOk, RiskAt, Healthy, Custody, Priced, WholeLots, IsLots, Less, More;
      hide SliceCashFlow, Move, SliceMm, ShortsHold, NetsHold, Sliced, Shaped;
      ghost var s := View();
      InPlace(c, s, aid);
      MoveInPlace(c, s, aid, u, sliceBps);
      AfterSlice(c, s, aid, u, sliceBps, bonusBps);
      var longs, shorts := totLong, totShort;
      ghost var before := Book();
      TakeSlice(aid, move, n);
      InPlaceAfter(c, s, aid, move, n);
      var r1 := RiskOf(aid);
      var rl := RiskOf(c.liqAid);
      assert r0.equity - r0.mm < r1.equity - r1.mm;  // INV-22
      NetsStay(c, before, Book());
      assert 0 <= insurance;  // INV-25
      fine := Healthy(rl) && NetsHold(c.series.Keys, longs, shorts, totLong, totShort);
    }

    /**
     * One slice. It ends the run (`raised`) when the liquidator's own margin does not bear it (INV-23) or when a total
     * short rises (INV-24); `SliceDecided` in module Health says when. Nothing checks that the liquidator can pay, and
     * the whole invariant survives exactly when it can.
     */
    method Liquidate(aid: Aid, u: Underlying, sliceBps: nat, bonusBps: nat) returns (ok: bool, raised: bool)
      requires Valid() && aid in c.owner
      modifies this
      ensures Counted()
      ensures raised ==> Clearing.Liquidate(c, old(View()), aid, u, sliceBps, bonusBps) == Raised
      ensures !raised ==> Valid() && Slid(c, old(View()), View(), aid, u, sliceBps, bonusBps, ok)
      ensures !raised ==>
        Did(Clearing.Liquidate(c, old(View()), aid, u, sliceBps, bonusBps), ok, old(View()), View())
      ensures old(events) <= events
    {
      hide Inv, Core, Harmless, Emitted, LedgerOk, SupplyOk, RiskAt, Healthy, Shaped, Custody, Priced, Sum, WholeLots;
      hide IsLots, Parts, Less, More, SliceCashFlow, Move, LiquidatorCanPay, Sliced, Money, SliceMark, Liquidation.Bps;
      hide Liquidation.Tokens, Slid, Dust, ShortsHold, NetsHold;
      ghost var s := View();
      NothingSlid(c, s, aid, u, sliceBps, bonusBps);
      InPlace(c, s, aid);
      InPlace(c, s, c.liqAid);
      ok, raised := false, false;
      if aid == c.liqAid || !prices.isFresh(u) {
        return;
      }
      var due, r0, move, sliceMm := Assess(aid, u, sliceBps);
      if !due {
        return;
      }
      MoveInPlace(c, s, aid, u, sliceBps);
      var n, sim := Simulate(aid, move, sliceMm, bonusBps);
      NeverDust(c, s, aid, u, sliceBps, bonusBps);
      if sim.equity - sim.mm <= r0.equity - r0.mm {
        assert Dust(sliceMm, bonusBps, r0.equity);  // INV-22
        return;
      }
      var fine := SliceAndCheck(aid, u, sliceBps, bonusBps, move, n, r0);
      if !fine {
        raised := true;  // INV-23, INV-24
        return;
      }
      SliceIsSlid(c, s, aid, u, sliceBps, bonusBps);
      ok := true;
    }

    // -------------------------------------------------------------------------------------------------------
    // Settlement
    // -------------------------------------------------------------------------------------------------------

    /** A look at the books of one series (INV-1), and its supply. */
    method SeriesSupply(sid: Sid) returns (q: int)
      requires Valid() && sid in c.series && c.series[sid].group in groups && groups[c.series[sid].group].price.None?
      ensures q == Supply(wr, sid)
    {
      hide Inv, LedgerOk, SupplyOk, Emitted, Custody, Priced, Supply, Get;
      BooksBalance(c, View(), Book(), supply, sid);
      assert Get(totLong, sid) - Get(totShort, sid) + Get(supply, sid) == 0;  // INV-1
      q := Get(supply, sid);
    }

    /** The series' supply is recorded, after a look at the books (INV-1). */
    method TakeSnapshot(g: Gid) returns (snapshot: map<Sid, int>)
      requires Valid() && g in c.groups && g in groups && groups[g].price.None?
      ensures snapshot == Snapshot(c, wr, g)
    {
      hide Inv, Core, Emitted, LedgerOk, SupplyOk, Custody, Priced, HoldsIn, Shaped, Supply, Get;
      snapshot := map[];
      var todo := SeriesOf(c, g);
      while todo != {}
        invariant todo <= SeriesOf(c, g) && snapshot == SnapshotBut(c, wr, g, todo)
        decreases |todo|
      {
        var sid :| sid in todo;
        var q := SeriesSupply(sid);
        snapshot := snapshot[sid := q];
        todo := todo - {sid};
      }
    }

    method Finalize(g: Gid, price: int) returns (ok: bool)
      requires Valid() && g in c.groups
      modifies this
      ensures Valid() && Kept(c, old(View()), View()) && events == old(events)
      ensures Did(Clearing.Finalize(c, old(View()), g, price), ok, old(View()), View())
    {
      hide Inv, Core, Kept, Emitted, LedgerOk, SupplyOk, Shaped, Custody, Priced, Snapshot, BooksAgree;
      ghost var s := View();
      KeptSelf(c, s);
      CoreShaped(c, s);
      GroupInPlace(c, s, g);
      if groups[g].price.Some? || now < c.groups[g].expiry {
        return false;
      }
      var snapshot := TakeSnapshot(g);
      FinalizeSafe(c, s, g, price);
      KeptIsCore(c, s, Clearing.Finalize(c, s, g, price).next);
      groups := groups[g := groups[g].(price := Some(price), snapshot := snapshot)];
      CustodyOfPool(s, View(), g);
      ok := true;
    }

    /** Every series of the group leaves the account; `n` is what they were worth together. */
    method CloseOut(aid: Aid, g: Gid, price: int) returns (n: int)
      requires Counted() && 0 < c.lot && aid in bal && bal[aid].Keys <= c.series.Keys
      modifies this`bal, this`events, this`totLong, this`totShort, this`seriesCount, this`participants
      ensures View() == old(View()).(bal := old(bal)[aid := Outside(c, old(bal)[aid], g)]) && Counted()
      ensures n == Claim(old(bal)[aid], Units(c, g, price)) && old(events) <= events
    {
      hide Emitted, LedgerOk, SupplyOk, Custody, Counters.SetBal, Claim, Units, UnitOf, SeriesOf, Put, Outside;
      hide ClosedBut, IsLots;
      ghost var s := View();
      var row := bal[aid];
      var rest := row;
      n := 0;
      NothingClosed(c, bal, aid, g);
      while rest != map[]
        invariant rest.Keys <= row.Keys && forall sid :: sid in rest ==> rest[sid] == row[sid]
        invariant n + Claim(rest, Units(c, g, price)) == Claim(row, Units(c, g, price))
        invariant View() == s.(bal := s.bal[aid := ClosedBut(c, row, rest.Keys, g)]) && Counted()
        invariant old(events) <= events
        decreases |rest|
      {
        var sid :| sid in rest;
        var q := rest[sid];
        CloseOne(c, row, rest, sid, g, price);
        if c.series[sid].group == g {
          n := n + q * UnitOf(c, sid, price);
          Write(aid, sid, 0);
        }
        rest := rest - {sid};
      }
      AllClosed(c, row, g, price);
    }

    /** A debt is collected as far as the account's cash goes; a net credit is noted. */
    method RecordNet(aid: Aid, g: Gid, n: int)
      requires Counted() && aid in cash && g in groups
      modifies this`cash, this`groups
      ensures var s := old(View());
        var paid := DebtPaid(n, s.cash[aid], Scale(DEC));
        View() == s.(cash := s.cash[aid := s.cash[aid] - paid],
                     groups := s.groups[g := Settled(s.groups[g], aid, n, paid, Scale(DEC))])
      ensures Counted()
    {
      hide Emitted, LedgerOk, SupplyOk, Custody, CeilDiv, Sum, Scale;
      ghost var s := View();
      var x := groups[g];
      if n < 0 {
        var debt := CeilDiv(-n, Scale(DEC));
        var paid := Min(cash[aid], debt);
        cash := cash[aid := cash[aid] - paid];
        x := x.(collected := x.collected + paid, pool := x.pool + paid, unpaid := x.unpaid + (debt - paid));
      } else if 0 < n {
        x := x.(credits := x.credits[aid := n]);
      }
      groups := groups[g := x.(settled := x.settled + {aid})];
      assert cash == s.cash[aid := cash[aid]];
      CustodyOfSettlement(s, View(), aid, g);
    }

    method Settle(aid: Aid, g: Gid) returns (ok: bool)
      requires Valid() && aid in c.owner && g in c.groups
      modifies this
      ensures Valid() && Kept(c, old(View()), View()) && old(events) <= events
      ensures Did(Clearing.Settle(c, old(View()), aid, g), ok, old(View()), View())
    {
      hide Inv, Core, Kept, Emitted, LedgerOk, SupplyOk, Shaped, Custody, Priced, Claim, Units, HoldsIn, Outside;
      ghost var s := View();
      KeptSelf(c, s);
      InPlace(c, s, aid);
      GroupInPlace(c, s, g);
      CountIsHolding(c, Book(), aid, g);
      if groups[g].price.None? || Get(seriesCount, (aid, g)) == 0 {
        return false;
      }
      SettleSafe(c, s, aid, g);
      KeptIsCore(c, s, Clearing.Settle(c, s, aid, g).next);
      var n := CloseOut(aid, g, groups[g].price.value);
      RecordNet(aid, g, n);
      ok := true;
    }

    /** Insurance covers the shortfall of a group's pool, as far as it goes. */
    method FillPool(g: Gid, gross: int)
      requires Counted() && g in groups
      modifies this`insurance, this`custody, this`groups
      ensures var s := old(View());
        var x := s.groups[g];
        var ins := InsuranceDraw(gross, x.collected, s.insurance, Scale(DEC));
        View() == s.(insurance := s.insurance - ins,
                     groups := s.groups[g := x.(insurance := ins, pool := x.pool + ins, available := x.pool + ins)])
      ensures Counted()
    {
      hide Emitted, LedgerOk, SupplyOk, Custody, CeilDiv;
      ghost var s := View();
      var x := groups[g];
      var shortfall := Max(0, CeilDiv(gross, Scale(DEC)) - x.collected);
      var ins := Min(shortfall, insurance);
      insurance := insurance - ins;
      custody := custody + ins;
      groups := groups[g := x.(insurance := ins, pool := x.pool + ins, available := x.pool + ins)];
      CustodyOfPool(s, View(), g);
    }

    method PublishRatio(g: Gid, ratio: int)
      requires Counted() && g in groups
      modifies this`groups
      ensures View() == old(View()).(groups := old(groups)[g := old(groups)[g].(ratio := Some(ratio))]) && Counted()
    {
      hide Emitted, LedgerOk, SupplyOk, Custody;
      ghost var s := View();
      groups := groups[g := groups[g].(ratio := Some(ratio))];
      CustodyOfPool(s, View(), g);
    }

    method FixRatio(g: Gid, gross: int)
      requires Counted() && g in groups
      modifies this`insurance, this`custody, this`groups
      ensures var s := old(View());
        var x := s.groups[g];
        var ins := InsuranceDraw(gross, x.collected, s.insurance, Scale(DEC));
        View() == s.(insurance := s.insurance - ins,
                     groups := s.groups[g := x.(insurance := ins, pool := x.pool + ins, available := x.pool + ins,
                                                ratio := Some(RatioOf(x.pool + ins, gross, Scale(DEC))))])
      ensures Counted()
    {
      hide Emitted, LedgerOk, SupplyOk, Custody, InsuranceDraw, RatioOf;
      ghost var before := groups;
      FillPool(g, gross);
      var ratio := RatioFor(groups[g].pool, gross);
      PublishRatio(g, ratio);
      assert groups == before[g := groups[g]];
    }

    method ComputeRatio(g: Gid) returns (ok: bool)
      requires Valid() && g in c.groups
      modifies this
      ensures Valid() && Shared(c, old(View()), View(), g, ok) && events == old(events)
      ensures Did(Clearing.ComputeRatio(c, old(View()), g), ok, old(View()), View())
    {
      hide Inv, Core, Shared, Emitted, LedgerOk, SupplyOk, Shaped, Custody, Priced, GrossClaim, Holders, Sum, RatioOf;
      hide InsuranceDraw, CeilDiv, RatioChecked;
      ghost var s := View();
      NothingShared(c, s, g);
      CoreShaped(c, s);
      GroupInPlace(c, s, g);
      ParticipantsZero(c, Book(), g);
      var x := groups[g];
      if x.price.None? || Get(participants, g) != 0 || x.ratio.Some? {
        return false;
      }
      RatioIsShared(c, s, g);
      ghost var s1 := Clearing.ComputeRatio(c, s, g).next;
      var gross := GrossOf(c, x, g);
      FixRatio(g, gross);
      assert View() == s1;
      x := groups[g];
      assert x.pool == x.collected + x.insurance;  // INV-31
      assert x.unpaid == 0 ==> x.ratio == Some(WAD);  // INV-30
      assert x.ratio.value <= WAD;  // INV-29
      ok := true;
    }

    method PayFromPool(o: Owner, g: Gid, pay: int)
      requires Counted() && o in usdc && g in groups
      modifies this`groups, this`custody, this`usdc
      ensures var s := old(View());
        View() == s.(groups := s.groups[g := s.groups[g].(pool := s.groups[g].pool - pay)],
                     usdc := s.usdc[o := s.usdc[o] + pay])
      ensures Counted()
    {
      hide Emitted, LedgerOk, SupplyOk, Custody;
      ghost var s := View();
      groups := groups[g := groups[g].(pool := groups[g].pool - pay)];
      custody := custody - pay;
      usdc := usdc[o := usdc[o] + pay];
      CustodyOfPool(s, View(), g);
    }

    method Redeem(owner: Owner, sid: Sid, q: int) returns (ok: bool, raised: bool)
      requires Valid() && owner in c.wallets && sid in c.series
      modifies this
      ensures Valid() && (raised ==> Clearing.Redeem(c, old(View()), owner, sid, q) == Raised)
      ensures Kept(c, old(View()), View()) && c.series[sid].group in old(groups)
      ensures raised ==> !InOrder(c, old(View()), c.series[sid].group) && View() == old(View())
      ensures !raised ==> Did(Clearing.Redeem(c, old(View()), owner, sid, q), ok, old(View()), View())
      ensures events == old(events)
    {
      hide Inv, Core, Kept, InOrder, Emitted, LedgerOk, SupplyOk, Shaped, Custody, Priced, Payout, UnitOf, Give, Get;
      ghost var s := View();
      KeptSelf(c, s);
      WalletInPlace(c, s, owner);
      SeriesInPlace(c, s, sid);
      RedeemSafe(c, s, owner, sid, q);
      ok, raised := false, false;
      var g := c.series[sid].group;
      if groups[g].ratio.None? || Get(wr[owner], sid) < q || q <= 0 {
        return;
      }
      var pay := Payout(q * UnitOf(c, sid, groups[g].price.value), groups[g].ratio.value, Scale(DEC));
      if groups[g].pool < pay {
        raised := true;  // INV-31
        return;
      }
      KeptIsCore(c, s, Clearing.Redeem(c, s, owner, sid, q).next);
      Issue(owner, sid, -q);
      PayFromPool(owner, g, pay);
      ok := true;
    }

    method CreditFromPool(aid: Aid, g: Gid, amt: int)
      requires Counted() && aid in cash && g in groups
      modifies this`groups, this`cash
      ensures var s := old(View());
        var x := s.groups[g];
        View() == s.(groups := s.groups[g := x.(pool := x.pool - amt, claimed := x.claimed + {aid})],
                     cash := s.cash[aid := s.cash[aid] + amt])
      ensures Counted()
    {
      hide Emitted, LedgerOk, SupplyOk, Custody;
      ghost var s := View();
      groups := groups[g := groups[g].(pool := groups[g].pool - amt, claimed := groups[g].claimed + {aid})];
      cash := cash[aid := cash[aid] + amt];
      assert cash == s.cash[aid := cash[aid]];
      CustodyOfSettlement(s, View(), aid, g);
    }

    method ClaimCredit(aid: Aid, g: Gid) returns (ok: bool, raised: bool)
      requires Valid() && aid in c.owner && g in c.groups
      modifies this
      ensures Valid() && (raised ==> Clearing.ClaimCredit(c, old(View()), aid, g) == Raised)
      ensures Kept(c, old(View()), View()) && g in old(groups)
      ensures raised ==> !InOrder(c, old(View()), g) && View() == old(View())
      ensures !raised ==> Did(Clearing.ClaimCredit(c, old(View()), aid, g), ok, old(View()), View())
      ensures events == old(events)
    {
      hide Inv, Core, Kept, InOrder, Emitted, LedgerOk, SupplyOk, Shaped, Custody, Priced, Payout;
      ghost var s := View();
      KeptSelf(c, s);
      InPlace(c, s, aid);
      GroupInPlace(c, s, g);
      ClaimSafe(c, s, aid, g);
      ok, raised := false, false;
      var x := groups[g];
      if x.ratio.None? || aid !in x.credits || aid in x.claimed {
        return;
      }
      var amt := Payout(x.credits[aid], x.ratio.value, Scale(DEC));
      if x.pool < amt {
        raised := true;  // INV-31
        return;
      }
      KeptIsCore(c, s, Clearing.ClaimCredit(c, s, aid, g).next);
      CreditFromPool(aid, g, amt);
      ok := true;
    }

    /** Time passes and prices move; time never goes back. */
    method MoveMarket(now: int, prices: Prices)
      requires Valid() && this.now <= now
      modifies this`now, this`prices
      ensures Valid() && Kept(c, old(View()), View())
      ensures View() == old(View()).(now := now, prices := prices)
    {
      hide Inv, Core, Kept, Emitted, LedgerOk, SupplyOk, Custody, Priced;
      ghost var s := View();
      MarketMoveSafe(c, s, now, prices);
      KeptIsCore(c, s, s.(now := now, prices := prices));
      this.now, this.prices := now, prices;
      CustodyFrame(s, View());
    }

    // -------------------------------------------------------------------------------------------------------
    // Transactions
    // -------------------------------------------------------------------------------------------------------

    function Fields(): Saved
      reads this
    {
      Saved(View(), Book(), supply, custody, feesCharged, feeDest, events)
    }

    /** A call as a transaction: it does what it does, or nothing at all if it is turned down or a check fails. */
    method Do(a: Runs.Action)
      requires Valid() && Runs.Legal(c, View(), a)
      modifies this
      ensures Valid() && Shaped(c, old(View())) && View() == Runs.After(c, old(View()), a) && old(events) <= events
    {
      hide Inv, Core, Emitted, LedgerOk, SupplyOk, Custody, Priced, Shaped, Runs.Step, Runs.Legal;
      CoreShaped(c, View());
      var was := Fields();
      var raised := false;
      if Pays(a) {
        Pay(a);
      } else if Trades(a) {
        raised := Trade(a);
      } else {
        raised := AfterTrading(a);
      }
      if raised {
        Undo(was);
      }
    }

    /** A whole run, one transaction after another: the object follows the states of the run. */
    method DoAll(actions: seq<Runs.Action>)
      requires Valid() && Runs.CanRun(c, View(), actions)
      modifies this
      ensures Valid() && old(events) <= events && View() == Runs.End(c, old(View()), actions)
    {
      hide Inv, Core, Emitted, LedgerOk, SupplyOk, Custody, Priced, Shaped, Runs.After, Runs.Legal;
      assert actions[0..] == actions;
      for i := 0 to |actions|
        invariant Valid() && old(events) <= events && Runs.CanRun(c, View(), actions[i..])
        invariant Runs.End(c, View(), actions[i..]) == Runs.End(c, old(View()), actions)
      {
        assert actions[i..][0] == actions[i] && actions[i..][1..] == actions[i + 1..];
        Do(actions[i]);
      }
    }

    method Pay(a: Runs.Action)
      requires Valid() && Runs.Legal(c, View(), a) && Pays(a)
      modifies this
      ensures Shaped(c, old(View())) && Valid() && View() == Runs.After(c, old(View()), a) && old(events) <= events
    {
      hide Inv, Core, Kept, Emitted, LedgerOk, SupplyOk, Custody, Priced, Shaped, Known, WellFormed, Get, Sum, Pools;
      hide Clearing.Deposit, Clearing.Withdraw, Clearing.Mint, Clearing.Unwrap, Clearing.Wrap;
      hide Clearing.CloseWithWrapper, Clearing.CloseInternal, Clearing.TransferWrapper, Clearing.Liquidate;
      hide Clearing.Finalize, Clearing.Settle, Clearing.ComputeRatio, Clearing.Redeem, Clearing.ClaimCredit;
      CoreShaped(c, View());
      var ok;
      match a
      case DepositCash(aid, amt) => ok := Deposit(aid, amt);
      case WithdrawCash(aid, amt) => ok := Withdraw(aid, amt);
      case Transfer(o, to, sid, q) => ok := TransferWrapper(o, to, sid, q);
    }

    method Trade(a: Runs.Action) returns (raised: bool)
      requires Valid() && Runs.Legal(c, View(), a) && Trades(a)
      modifies this
      ensures Shaped(c, old(View()))
      ensures raised ==> Runs.Step(c, old(View()), a) == Raised
      ensures !raised ==> Valid() && View() == Runs.After(c, old(View()), a) && old(events) <= events
    {
      hide Inv, Core, Kept, Emitted, LedgerOk, SupplyOk, Custody, Priced, Shaped, Known, WellFormed, Get, Sum, Pools;
      hide Clearing.Deposit, Clearing.Withdraw, Clearing.Mint, Clearing.Unwrap, Clearing.Wrap;
      hide Clearing.CloseWithWrapper, Clearing.CloseInternal, Clearing.TransferWrapper, Clearing.Liquidate;
      hide Clearing.Finalize, Clearing.Settle, Clearing.ComputeRatio, Clearing.Redeem, Clearing.ClaimCredit;
      CoreShaped(c, View());
      var ok;
      match a
      case MintLong(aid, sid, q, to) => ok, raised := Mint(aid, sid, q, to);
      case WrapLong(aid, sid, q, to) => ok, raised := Wrap(aid, sid, q, to);
      case UnwrapLong(o, aid, sid, q) => ok, raised := Unwrap(o, aid, sid, q);
      case CloseShort(o, aid, sid, q) => ok, raised := CloseWithWrapper(o, aid, sid, q);
      case CloseAcross(frm, aid, sid, q) => ok, raised := CloseInternal(frm, aid, sid, q);
    }

    method AfterTrading(a: Runs.Action) returns (raised: bool)
      requires Valid() && Runs.Legal(c, View(), a) && !Pays(a) && !Trades(a)
      modifies this
      ensures Shaped(c, old(View()))
      ensures raised ==> Runs.Step(c, old(View()), a) == Raised
      ensures !raised ==> Valid() && View() == Runs.After(c, old(View()), a) && old(events) <= events
    {
      hide Inv, Core, Kept, Shared, Slid, Emitted, LedgerOk, SupplyOk, Custody, Priced, Shaped, Known, WellFormed, Get;
      hide Sum, Pools, InOrder, Clearing.Liquidate, Clearing.Finalize, Clearing.Settle, Clearing.ComputeRatio;
      hide Clearing.Redeem, Clearing.ClaimCredit;
      CoreShaped(c, View());
      raised := false;
      var ok;
      match a
      case Slice(aid, u, sliceBps, bonusBps) => ok, raised := Liquidate(aid, u, sliceBps, bonusBps);
      case FinalizeGroup(g, price) => ok := Finalize(g, price);
      case SettleAccount(aid, g) => ok := Settle(aid, g);
      case FixRatio(g) => ok := ComputeRatio(g);
      case RedeemWrapper(o, sid, q) => ok, raised := Redeem(o, sid, q);
      case ClaimSettlement(aid, g) => ok, raised := ClaimCredit(aid, g);
      case MarketMove(now, prices) => MoveMarket(now, prices);
    }

    /** A transaction that fails leaves nothing behind. */
    method Undo(was: Saved)
      requires was.state.bal == was.ledger.bal
      modifies this
      ensures Fields() == was
    {
      UndoBooks(was.ledger, was.supply, was.events);
      UndoFunds(was.state.insurance, was.state.treasury, was.state.keeper, was.custody, was.feesCharged, was.feeDest);
      UndoState(was.state);
    }

    method UndoState(s: State)
      requires bal == s.bal && insurance == s.insurance && treasury == s.treasury && keeper == s.keeper
      modifies this`now, this`prices, this`cash, this`usdc, this`wr, this`groups
      ensures View() == s
    {
      now, prices, cash, usdc, wr, groups := s.now, s.prices, s.cash, s.usdc, s.wr, s.groups;
    }

    method UndoFunds(insurance: int, treasury: int, keeper: int, custody: int, feesCharged: int, feeDest: int)
      modifies this`insurance, this`treasury, this`keeper, this`custody, this`feesCharged, this`feeDest
      ensures this.insurance == insurance && this.treasury == treasury && this.keeper == keeper
      ensures this.custody == custody && this.feesCharged == feesCharged && this.feeDest == feeDest
    {
      this.insurance, this.treasury, this.keeper := insurance, treasury, keeper;
      this.custody, this.feesCharged, this.feeDest := custody, feesCharged, feeDest;
    }

    method UndoBooks(l: Ledger, supply: map<Sid, int>, events: seq<Log>)
      modifies this`bal, this`totLong, this`totShort, this`seriesCount, this`participants, this`supply, this`events
      ensures Book() == l && this.supply == supply && this.events == events
    {
      bal, totLong, totShort, seriesCount, participants := l.bal, l.totLong, l.totShort, l.seriesCount, l.participants;
      this.supply, this.events := supply, events;
    }
  }

  lemma {:induction false} LongLessShort(bal: map<Aid, Row>, sid: Sid)
    ensures Sum(LongColumn(bal, sid)) - Sum(ShortColumn(bal, sid)) == Held(bal, sid)
  {
    SumAdd(ShortColumn(bal, sid), Column(bal, sid), LongColumn(bal, sid));
  }

  /** INV-24 as the counters show it. */
  predicate NetsHold(sids: set<Sid>, longs: map<Sid, int>, shorts: map<Sid, int>, longs': map<Sid, int>,
      shorts': map<Sid, int>)
  {
    forall sid {:trigger Get(shorts', sid)} :: sid in sids ==>
      && Get(longs', sid) - Get(shorts', sid) == Get(longs, sid) - Get(shorts, sid)
      && Get(shorts', sid) <= Get(shorts, sid)
  }

  /** INV-24: what the counters show is what the balances are. */
  lemma {:induction false} NetsStay(c: Config, l: Ledger, l': Ledger)
    requires LedgerOk(c, l) && LedgerOk(c, l')
    ensures NetsHold(c.series.Keys, l.totLong, l.totShort, l'.totLong, l'.totShort) <==> ShortsHold(c, l.bal, l'.bal)
  {
    forall sid
      ensures Get(l.totLong, sid) - Get(l.totShort, sid) == Held(l.bal, sid)
      ensures Get(l'.totLong, sid) - Get(l'.totShort, sid) == Held(l'.bal, sid)
      ensures Get(l.totShort, sid) == Sum(ShortColumn(l.bal, sid))
      ensures Get(l'.totShort, sid) == Sum(ShortColumn(l'.bal, sid))
    {
      TotalsAt(c, l, sid);
      TotalsAt(c, l', sid);
    }
  }

  lemma {:induction false} TotalsAt(c: Config, l: Ledger, sid: Sid)
    requires LedgerOk(c, l)
    ensures Get(l.totLong, sid) - Get(l.totShort, sid) == Held(l.bal, sid)
    ensures Get(l.totShort, sid) == Sum(ShortColumn(l.bal, sid))
  {
    LongLessShort(l.bal, sid);
  }

  /** INV-1 in the counters, while the group is not finalized. */
  lemma {:induction false} BooksBalance(c: Config, s: State, l: Ledger, supply: map<Sid, int>, sid: Sid)
    requires Core(c, s) && LedgerOk(c, l) && l.bal == s.bal && SupplyOk(s.wr, supply)
    requires sid in c.series && c.series[sid].group in s.groups && s.groups[c.series[sid].group].price.None?
    ensures Get(l.totLong, sid) - Get(l.totShort, sid) + Get(supply, sid) == 0
    ensures Get(supply, sid) == Supply(s.wr, sid)
  {
    TotalsAt(c, l, sid);
    assert Held(s.bal, sid) + Held(s.wr, sid) == 0;
  }

  lemma {:induction false} SeriesInPlace(c: Config, s: State, sid: Sid)
    requires Core(c, s) && sid in c.series
    ensures Shaped(c, s) && c.series[sid].group in s.groups
    ensures s.groups[c.series[sid].group].ratio.Some? ==> s.groups[c.series[sid].group].price.Some?
  {
    var g := c.series[sid].group;
    CoreGroup(c, s, g);
  }

  lemma {:induction false} CustodyOfPool(s: State, s': State, g: Gid)
    requires g in s.groups && g in s'.groups && s'.groups == s.groups[g := s'.groups[g]] && s'.cash == s.cash
    ensures Custody(s') == Custody(s) + s'.groups[g].pool - s.groups[g].pool
  {
    PoolsPut(s.groups, g, s'.groups[g]);
  }

  lemma {:induction false} CustodyOfSettlement(s: State, s': State, aid: Aid, g: Gid)
    requires g in s.groups && g in s'.groups && s'.groups == s.groups[g := s'.groups[g]]
    requires aid in s.cash && aid in s'.cash && s'.cash == s.cash[aid := s'.cash[aid]]
    ensures Custody(s') == Custody(s) + s'.groups[g].pool - s.groups[g].pool + s'.cash[aid] - s.cash[aid]
  {
    PoolsPut(s.groups, g, s'.groups[g]);
    SumPut(s.cash, aid, s'.cash[aid]);
  }

  lemma {:induction false} CountIsHolding(c: Config, l: Ledger, aid: Aid, g: Gid)
    requires LedgerOk(c, l) && aid in l.bal
    ensures Get(l.seriesCount, (aid, g)) == 0 <==> !HoldsIn(c, l.bal[aid], g)
  {
    HoldsIsCount(c, l.bal[aid], g);
  }

  /** A row whose series of the group are gone, but for those still to come. */
  function ClosedBut(c: Config, row: Row, rest: set<Sid>, g: Gid): Row {
    row - (SeriesOf(c, g) - rest)
  }

  lemma {:induction false} NothingClosed(c: Config, bal: map<Aid, Row>, aid: Aid, g: Gid)
    requires aid in bal
    ensures bal[aid := ClosedBut(c, bal[aid], bal[aid].Keys, g)] == bal
  {
    assert ClosedBut(c, bal[aid], bal[aid].Keys, g) == bal[aid];
  }

  lemma {:induction false} CloseOne(c: Config, row: Row, rest: Row, sid: Sid, g: Gid, price: int)
    requires sid in rest && rest.Keys <= row.Keys && sid in c.series && 0 < c.lot
    ensures IsLots(c.lot, 0)
    ensures var now, later := ClosedBut(c, row, rest.Keys, g), ClosedBut(c, row, (rest - {sid}).Keys, g);
      later == if c.series[sid].group == g then Put(now, sid, 0) else now
    ensures Claim(rest, Units(c, g, price)) == Claim(rest - {sid}, Units(c, g, price))
      + if c.series[sid].group == g then rest[sid] * UnitOf(c, sid, price) else 0
  {
    hide UnitOf;
    var units := Units(c, g, price);
    if c.series[sid].group == g {
      OneEntryClaim(rest, rest - {sid}, units, sid);
      Negate(rest[sid], units[sid]);
    } else {
      SameClaim(rest, rest - {sid}, units);
    }
  }

  lemma {:induction false} AllClosed(c: Config, row: Row, g: Gid, price: int)
    ensures ClosedBut(c, row, {}, g) == Outside(c, row, g)
    ensures Claim(map[], Units(c, g, price)) == 0
  {
    SumZero(Products(map[], Units(c, g, price)));
  }

  /** What fixing the ratio, or not, does to each layer of the invariant. */
  ghost predicate Shared(c: Config, s: State, s': State, g: Gid, ok: bool) {
    && Shaped(c, s) && g in s.groups && Core(c, s') && Money(s') == Money(s) && (Inv(c, s) ==> Inv(c, s'))
    && (Spared(c, s) ==> (Spared(c, s') <==> (ok ==> 0 <= s.groups[g].collected + s.insurance)))
  }

  lemma {:induction false} NothingShared(c: Config, s: State, g: Gid)
    requires Core(c, s) && g in c.groups
    ensures Shared(c, s, s, g, false)
  {
  }

  /** Fixing the ratio, with what the source checks there (INV-29, INV-30, INV-31). */
  lemma {:induction false} RatioIsShared(c: Config, s: State, g: Gid)
    requires Core(c, s) && g in c.groups && g in s.groups
    requires s.groups[g].price.Some? && s.groups[g].ratio.None? && Holders(c, s.bal, g) == {}
    ensures s.groups[g].snapshot.Keys == SeriesOf(c, g)
    ensures var r, x := ComputeRatio(c, s, g), s.groups[g];
      && r.Done? && Shared(c, s, r.next, g, true) && Core(c, r.next)
      && g in r.next.groups && r.next.groups[g].ratio.Some?
      && var x' := r.next.groups[g];
      && x'.pool == x.collected + x'.insurance
      && x'.ratio.value <= WAD && (x.unpaid == 0 ==> x'.ratio.value == WAD)
  {
    hide Inv, Core, Harmless, InOrder, Holders, GrossClaim, RatioOf, InsuranceDraw, RatioChecked, Money;
    InsuranceNonNegative(c, s);
    SnapshotKeys(c, s, g);
    ComputeRatioSafe(c, s, g);
    RecoveryRatio(c, s, g);
  }

  lemma {:induction false} InsuranceNonNegative(c: Config, s: State)
    requires Core(c, s)
    ensures 0 <= s.insurance && Shaped(c, s)
  {
  }

  /** The snapshot so far. */
  ghost function SnapshotBut(c: Config, wr: map<Owner, Row>, g: Gid, todo: set<Sid>): map<Sid, int> {
    map sid | sid in SeriesOf(c, g) - todo :: Supply(wr, sid)
  }

  lemma {:induction false} InPlaceAfter(c: Config, s: State, aid: Aid, move: Row, n: Liquidation.NativeSlice)
    requires Shaped(c, s) && aid in c.owner && move.Keys <= c.series.Keys
    ensures Shaped(c, Sliced(c, s, aid, move, n)) && c.liqAid in c.owner
  {
  }

  /** What a slice, taken or turned down, does to each layer of the invariant. */
  ghost predicate Slid(c: Config, s: State, s': State, aid: Aid, u: Underlying, sliceBps: nat, bonusBps: nat,
      ok: bool)
  {
    && Shaped(c, s) && aid in c.owner && Core(c, s') && Money(s') == Money(s) && Harmless(c, s, s')
    && (Inv(c, s) ==>
          (Inv(c, s') <==> (ok ==> LiquidatorCanPay(c, s, aid, Move(c, s, aid, u, sliceBps), bonusBps))))
  }

  lemma {:induction false} NothingSlid(c: Config, s: State, aid: Aid, u: Underlying, sliceBps: nat, bonusBps: nat)
    requires Core(c, s) && aid in c.owner
    ensures Slid(c, s, s, aid, u, sliceBps, bonusBps, false)
  {
    hide LiquidatorCanPay, Move;
  }

  lemma {:induction false} SliceIsSlid(c: Config, s: State, aid: Aid, u: Underlying, sliceBps: nat, bonusBps: nat)
    requires Core(c, s) && aid in c.owner && Liquidate(c, s, aid, u, sliceBps, bonusBps).Done?
    ensures Slid(c, s, Liquidate(c, s, aid, u, sliceBps, bonusBps).next, aid, u, sliceBps, bonusBps, true)
    ensures Core(c, Liquidate(c, s, aid, u, sliceBps, bonusBps).next)
  {
    hide LiquidatorCanPay, Move, Liquidate, Harmless, Inv, Money;
    LiquidateSafe(c, s, aid, u, sliceBps, bonusBps);
  }

  lemma {:induction false} SnapshotKeys(c: Config, s: State, g: Gid)
    requires Core(c, s) && g in s.groups && s.groups[g].price.Some?
    ensures s.groups[g].snapshot.Keys == SeriesOf(c, g)
  {
    CoreGroup(c, s, g);
  }

  method RatioFor(pool: int, gross: int) returns (ratio: int)
    ensures ratio == RatioOf(pool, gross, Scale(DEC))
  {
    if gross == 0 {
      ratio := WAD;
    } else {
      ratio := Min(WAD, FloorDiv(pool * Scale(DEC) * WAD, gross));
    }
  }

  method SumRow(m: map<Sid, int>, units: map<Sid, int>) returns (total: int)
    requires m.Keys == units.Keys
    ensures total == Claim(m, units)
  {
    total := 0;
    var todo := units;
    assert Claim(m, units) == Sum(Products(m, units));
    while todo != map[]
      invariant todo.Keys <= units.Keys && forall sid :: sid in todo ==> todo[sid] == units[sid]
      invariant total + Sum(Products(m, todo)) == Sum(Products(m, units))
      decreases |todo|
    {
      var sid :| sid in todo;
      SumRemove(Products(m, todo), sid);
      assert Products(m, todo) - {sid} == Products(m, todo - {sid});
      total := total + m[sid] * units[sid];
      todo := todo - {sid};
    }
  }

  method SumCredits(credits: map<Aid, int>) returns (total: int)
    ensures total == Sum(credits)
  {
    total := 0;
    var todo := credits;
    while todo != map[]
      invariant todo.Keys <= credits.Keys
      invariant total + Sum(todo) == Sum(credits)
      decreases |todo|
    {
      assert exists a :: a in todo by {
        assert (forall a :: a !in todo) ==> todo == map[];
      }
      var a :| a in todo;
      SumRemove(todo, a);
      total := total + todo[a];
      todo := todo - {a};
    }
  }

  /** Wrapper claims at the snapshot plus the settled accounts' credits. */
  method GrossOf(c: Config, x: Group, g: Gid) returns (gross: int)
    requires x.price.Some? && x.snapshot.Keys == SeriesOf(c, g)
    ensures gross == GrossClaim(c, x, g)
  {
    var wrappers := SumRow(x.snapshot, Units(c, g, x.price.value));
    var credits := SumCredits(x.credits);
    gross := wrappers + credits;
  }

  lemma {:induction false} ShapedInPlace(c: Config, s: State, aid: Aid)
    requires Shaped(c, s) && aid in c.owner
    ensures 0 < c.lot && aid in s.bal && aid in s.cash && s.bal[aid].Keys <= c.series.Keys && c.liqAid in c.owner
  {
  }

  /** What a slice moves are legs of the account, in whole lots. */
  lemma {:induction false} MoveInPlace(c: Config, s: State, aid: Aid, u: Underlying, sliceBps: nat)
    requires Core(c, s) && aid in c.owner
    ensures var move := Move(c, s, aid, u, sliceBps);
      && move.Keys <= s.bal[aid].Keys <= c.series.Keys && WholeLots(c.lot, s.bal)
      && Less(s.bal[aid], move).Keys <= c.series.Keys
      && forall sid :: sid in move ==> IsLots(c.lot, move[sid])
  {
    MoveIsParts(c, s, aid, u, sliceBps);
  }

  lemma {:induction false} MovedNothing(lot: nat, bal: map<Aid, Row>, aid: Aid, liq: Aid)
    requires 0 < lot && WholeLots(lot, bal) && aid in bal && liq in bal && aid != liq
    ensures Moved(bal, aid, liq, map[]) == bal
  {
    forall a, sid | a in bal && sid in bal[a] ensures bal[a][sid] != 0 {
      assert IsLots(lot, bal[a][sid]);
    }
    assert Less(bal[aid], map[]) == bal[aid];
    assert More(bal[liq], map[]) == bal[liq];
  }

  lemma {:induction false} SameEntries(a: Row, b: Row)
    requires forall sid :: sid in a <==> sid in b
    requires forall sid :: Get(a, sid) == Get(b, sid)
    ensures a == b
  {
    forall sid | sid in a ensures a[sid] == b[sid] {
      assert Get(a, sid) == Get(b, sid);
    }
  }

  lemma {:induction false} MoreEntry(row: Row, move: Row, t: Sid)
    ensures Get(More(row, move), t) == Get(row, t) + Get(move, t)
    ensures t in More(row, move) <==> Get(row, t) + Get(move, t) != 0
  {
  }

  lemma {:induction false} LessEntry(row: Row, move: Row, t: Sid)
    requires move.Keys <= row.Keys
    ensures Get(Less(row, move), t) == Get(row, t) - Get(move, t)
    ensures t in Less(row, move) <==> Get(row, t) - Get(move, t) != 0
  {
  }

  lemma {:induction false} LessOne(row: Row, done: Row, sid: Sid, m: int)
    requires sid in row && sid !in done && done.Keys <= row.Keys
    ensures Put(Less(row, done), sid, Get(Less(row, done), sid) - m) == Less(row, done[sid := m])
  {
    hide Less, Put;
    var a, b := Put(Less(row, done), sid, Get(Less(row, done), sid) - m), Less(row, done[sid := m]);
    forall t ensures (t in a <==> t in b) && Get(a, t) == Get(b, t) {
      LessEntry(row, done, t);
      LessEntry(row, done[sid := m], t);
    }
    SameEntries(a, b);
  }

  lemma {:induction false} MoreOne(row: Row, done: Row, sid: Sid, m: int)
    requires sid !in done
    ensures Put(More(row, done), sid, Get(More(row, done), sid) + m) == More(row, done[sid := m])
  {
    hide More, Put;
    var a, b := Put(More(row, done), sid, Get(More(row, done), sid) + m), More(row, done[sid := m]);
    forall t ensures (t in a <==> t in b) && Get(a, t) == Get(b, t) {
      MoreEntry(row, done, t);
      MoreEntry(row, done[sid := m], t);
    }
    SameEntries(a, b);
  }

  /** One more leg moved, by two writes of the ledger. */
  lemma {:induction false} MovedOne(c: Config, bal: map<Aid, Row>, aid: Aid, liq: Aid, move: Row, done: Row, sid: Sid)
    requires 0 < c.lot && WholeLots(c.lot, bal) && aid in bal && liq in bal && aid != liq && move.Keys <= bal[aid].Keys
    requires forall t :: t in move ==> IsLots(c.lot, move[t])
    requires sid in move && sid !in done && done.Keys <= move.Keys && forall t :: t in done ==> done[t] == move[t]
    ensures var now, m := Moved(bal, aid, liq, done), move[sid];
      && aid in now && liq in now
      && Shifted(now, aid, liq, sid, m) == Moved(bal, aid, liq, done[sid := m])
      && IsLots(c.lot, Get(now[aid], sid) - m) && IsLots(c.lot, Get(now[liq], sid) + m)
  {
    hide IsLots, Less, More, WholeLots, Put, PartOf;
    var now, m := Moved(bal, aid, liq, done), move[sid];
    MovedKeepsLots(c.lot, bal, aid, liq, done);
    BalanceIsLots(c.lot, now, aid, sid);
    BalanceIsLots(c.lot, now, liq, sid);
    LotsNegate(c.lot, m);
    LotsAdd(c.lot, Get(now[aid], sid), -m);
    LotsAdd(c.lot, Get(now[liq], sid), m);
    LessOne(bal[aid], done, sid, m);
    MoreOne(bal[liq], done, sid, m);
    assert Shifted(now, aid, liq, sid, m)[aid] == Less(bal[aid], done[sid := m]);
    assert Shifted(now, aid, liq, sid, m)[liq] == More(bal[liq], done[sid := m]);
  }

  lemma {:induction false} CustodyOfSlice(c: Config, s: State, s': State, aid: Aid, n: Liquidation.NativeSlice)
    requires aid in s.cash && c.liqAid in s.cash && aid != c.liqAid && s'.groups == s.groups
    requires var paid := s.cash[aid := s.cash[aid] - n.payAcc - n.pen];
      s'.cash == paid[c.liqAid := paid[c.liqAid] + n.payAcc + n.topup]
    ensures Custody(s') == Custody(s) + n.topup - n.pen
  {
    SumPutTwo(s.cash, aid, s.cash[aid] - n.payAcc - n.pen, c.liqAid, s.cash[c.liqAid] + n.payAcc + n.topup);
  }

  /** After a slice the account's margin is what was simulated, and insurance is not overdrawn. */
  lemma {:induction false} AfterSlice(c: Config, s: State, aid: Aid, u: Underlying, sliceBps: nat, bonusBps: nat)
    requires Core(c, s) && aid in c.owner && aid != c.liqAid
    requires 0.0 <= SliceMm(c, s, aid, Move(c, s, aid, u, sliceBps))
    ensures var move := Move(c, s, aid, u, sliceBps);
      var n := SliceCashFlow(c, s, aid, move, bonusBps);
      var s' := Sliced(c, s, aid, move, n);
      && Risk(c, s', aid) == RiskAt(c, s, s.cash[aid] - n.payAcc - n.pen, Less(s.bal[aid], move))
      && 0 <= s'.insurance
  {
    hide SliceMm, SliceCashFlow, Move, RiskAt, Less, More;
    var move := Move(c, s, aid, u, sliceBps);
    MoveInPlace(c, s, aid, u, sliceBps);
    var n := SliceCashFlow(c, s, aid, move, bonusBps);
    var s' := Sliced(c, s, aid, move, n);
    SliceWithinMeans(c, s, aid, move, bonusBps);
    RiskFrame(c, s, s', s'.cash[aid], s'.bal[aid]);
  }

  lemma {:induction false} LotsAreWhole(lot: nat, v: int)
    requires 0 < lot && IsLots(lot, v)
    ensures v == 0 || (lot <= Max(v, -v) && v % lot == 0)
  {
    LotsNegate(lot, v);
    FloorBounds(v, lot);
    FloorBounds(-v, lot);
  }

  lemma {:induction false} WalletInPlace(c: Config, s: State, o: Owner)
    requires Core(c, s) && o in c.wallets
    ensures o in s.wr && o in s.usdc && s.wr[o].Keys <= c.series.Keys
  {
  }

  lemma {:induction false} GroupInPlace(c: Config, s: State, g: Gid)
    requires Core(c, s) && g in c.groups
    ensures g in s.groups && Shaped(c, s)
  {
  }

  lemma {:induction false} CustodyFrame(s: State, s': State)
    requires s'.groups == s.groups && s'.cash == s.cash
    ensures Custody(s') == Custody(s)
  {
  }

  /** A transfer burns nothing and mints nothing. */
  lemma {:induction false} TransferSupply(wr: map<Owner, Row>, supply: map<Sid, int>, frm: Owner, to: Owner, sid: Sid,
      q: int)
    requires frm in wr && to in wr && SupplyOk(wr, supply)
    ensures SupplyOk(Give(Give(wr, frm, sid, -q), to, sid, q), supply)
  {
    GiveSupply(wr, supply, frm, sid, -q);
    GiveSupply(Give(wr, frm, sid, -q), supply[sid := Get(supply, sid) - q], to, sid, q);
    var wr' := Give(Give(wr, frm, sid, -q), to, sid, q);
    forall t ensures Get(supply, t) == Held(wr', t) {
      assert Get(supply[sid := Get(supply, sid) - q][sid := Get(supply[sid := Get(supply, sid) - q], sid) + q], t)
        == Held(wr', t);
    }
  }

  lemma {:induction false} InPlace(c: Config, s: State, aid: Aid)
    requires Core(c, s) && aid in c.owner
    ensures Shaped(c, s) && 0 < c.lot && c.liqAid in c.owner
    ensures aid in s.bal && aid in s.cash && s.bal[aid].Keys <= c.series.Keys
    ensures c.owner[aid] in s.usdc && c.owner[aid] in s.wr
  {
  }

  lemma {:induction false} CustodyOfCash(s: State, s': State, aid: Aid, x: int)
    requires aid in s.cash && s'.groups == s.groups && s'.cash == s.cash[aid := s.cash[aid] + x]
    ensures Custody(s') == Custody(s) + x
  {
    SumPut(s.cash, aid, s.cash[aid] + x);
  }

  ghost predicate MintAllowed(c: Config, s: State, aid: Aid, sid: Sid, q: int)
    requires Shaped(c, s) && Known(c, aid, sid)
  {
    var wanted, fee := s.bal[aid][sid := Get(s.bal[aid], sid) - q], MintFee(c, s, sid, q);
    && Active(c, s.now, sid) && 0 < q && FreshFor(c, s, wanted) && fee <= s.cash[aid]
    && Healthy(RiskAt(c, s, s.cash[aid] - fee, wanted))
  }

  lemma {:induction false} MintIs(c: Config, s: State, aid: Aid, sid: Sid, q: int, to: Owner)
    requires Shaped(c, s) && Known(c, aid, sid) && to in c.wallets && aid in s.bal
    ensures var r, v, fee := Clearing.Mint(c, s, aid, sid, q, to), Get(s.bal[aid], sid) - q, MintFee(c, s, sid, q);
      && (r.Reverted? <==> !MintAllowed(c, s, aid, sid, q))
      && (!r.Reverted? && !IsLots(c.lot, v) ==> r.Raised?)
      && (r.Done? ==>
            && aid in s.cash && to in s.wr
            && r.next == FeeCharged(s, aid, fee).(bal := SetBalance(s.bal, aid, sid, v), wr := Give(s.wr, to, sid, q)))
  {
    hide RiskAt, Healthy, FreshFor, MintFee, Active, IsLots, Give, SetBalance, Put, FeeToInsurance, FeeToKeeper;
  }

  ghost predicate GiveAllowed(c: Config, s: State, frm: Aid, sid: Sid, q: int)
    requires Shaped(c, s) && Known(c, frm, sid)
  {
    && FreshFor(c, s, s.bal[frm])
    && Healthy(RiskAt(c, s, s.cash[frm], Put(s.bal[frm], sid, Get(s.bal[frm], sid) - q)))
  }

  lemma {:induction false} CloseIs(c: Config, s: State, frm: Aid, to: Aid, sid: Sid, q: int)
    requires Shaped(c, s) && Known(c, frm, sid) && to in c.owner && frm in s.bal && to in s.bal
    requires c.series[sid].group in s.groups
    ensures var r, a, b := Clearing.CloseInternal(c, s, frm, to, sid, q), Get(s.bal[frm], sid), Get(s.bal[to], sid);
      if frm == to || c.owner[frm] != c.owner[to] || s.groups[c.series[sid].group].price.Some? || a < q || -q < b
      then r == Reverted
      else if sid !in s.bal[frm] then r == Raised
      else if !GiveAllowed(c, s, frm, sid, q) then r == Reverted
      else if !IsLots(c.lot, a - q) || !IsLots(c.lot, b + q) || !RaiseTolerated(c, s, to, sid, b + q) then r == Raised
      else r == Done(s.(bal := Shifted(s.bal, frm, to, sid, q)))
  {
    hide RiskAt, Healthy, FreshFor, IsLots, RaiseTolerated, SetBalance, Put;
  }

  lemma {:induction false} KeptSelf(c: Config, s: State)
    requires Core(c, s)
    ensures Kept(c, s, s)
  {
  }

  lemma {:induction false} KeptIsCore(c: Config, s: State, s': State)
    requires Kept(c, s, s')
    ensures Core(c, s') && Shaped(c, s')
  {
  }

  /** The account's margin after an exchange of a balance against wrapper tokens, as the check sees it. */
  lemma {:induction false} AfterExchange(c: Config, s: State, o: Owner, aid: Aid, sid: Sid, q: int)
    requires Shaped(c, s) && Known(c, aid, sid) && o in c.wallets && aid in s.bal && o in s.wr
    ensures var v := Get(s.bal[aid], sid) - q;
      var s' := s.(bal := SetBalance(s.bal, aid, sid, v), wr := Give(s.wr, o, sid, q));
      && Shaped(c, s')
      && (Tolerated(Risk(c, s, aid), Risk(c, s', aid)) <==> RaiseTolerated(c, s, aid, sid, v))
  {
    hide RiskAt, Tolerated, Put, Give;
    var v := Get(s.bal[aid], sid) - q;
    RowsStayShaped(c, s, o, aid, sid, q);
    RiskFrame(c, s, s.(bal := SetBalance(s.bal, aid, sid, v), wr := Give(s.wr, o, sid, q)), s.cash[aid],
      Put(s.bal[aid], sid, v));
  }

  lemma {:induction false} ShiftedRows(bal: map<Aid, Row>, frm: Aid, to: Aid, sid: Sid, m: int)
    requires frm in bal && to in bal && frm != to
    ensures var bal' := Shifted(bal, frm, to, sid, m);
      && bal'.Keys == bal.Keys && bal'[frm] == Put(bal[frm], sid, Get(bal[frm], sid) - m)
      && bal'[to] == Put(bal[to], sid, Get(bal[to], sid) + m)
  {
  }

  /** Both accounts' margins after an internal close. */
  lemma {:induction false} AfterMove(c: Config, s: State, frm: Aid, to: Aid, sid: Sid, q: int)
    requires Shaped(c, s) && Known(c, frm, sid) && to in c.owner && frm != to && frm in s.bal && to in s.bal
    ensures var s' := s.(bal := Shifted(s.bal, frm, to, sid, q));
      && Shaped(c, s')
      && Risk(c, s', frm) == RiskAt(c, s, s.cash[frm], Put(s.bal[frm], sid, Get(s.bal[frm], sid) - q))
      && (Tolerated(Risk(c, s, to), Risk(c, s', to)) <==> RaiseTolerated(c, s, to, sid, Get(s.bal[to], sid) + q))
  {
    hide RiskAt, Tolerated, Put, SetBalance, Shaped;
    var s' := s.(bal := Shifted(s.bal, frm, to, sid, q));
    ShiftedRows(s.bal, frm, to, sid, q);
    var mid := SetBalance(s.bal, frm, sid, Get(s.bal[frm], sid) - q);
    BalancesStayShaped(c, s, frm, sid, Get(s.bal[frm], sid) - q);
    BalancesStayShaped(c, s.(bal := mid), to, sid, Get(s.bal[to], sid) + q);
    RiskFrame(c, s, s', s.cash[frm], s'.bal[frm]);
    RiskFrame(c, s, s', s.cash[to], s'.bal[to]);
  }

  ghost predicate Blank<K>(table: map<K, Row>) {
    forall k :: k in table ==> table[k] == map[]
  }

  lemma {:induction false} BlankColumns<K>(table: map<K, Row>, sid: Sid)
    requires Blank(table)
    ensures Held(table, sid) == 0 && Sum(LongColumn(table, sid)) == 0 && Sum(ShortColumn(table, sid)) == 0
  {
    SumZero(Column(table, sid));
    SumZero(LongColumn(table, sid));
    SumZero(ShortColumn(table, sid));
  }

  lemma {:induction false} EmptyIsCounted(c: Config, bal: map<Aid, Row>, wr: map<Owner, Row>)
    requires Blank(bal) && Blank(wr)
    ensures LedgerOk(c, Ledger(bal, map[], map[], map[], map[])) && SupplyOk(wr, map[])
  {
    forall sid ensures Held(wr, sid) == 0 && Sum(LongColumn(bal, sid)) == 0 && Sum(ShortColumn(bal, sid)) == 0 {
      BlankColumns(bal, sid);
      BlankColumns(wr, sid);
    }
    forall g ensures Holders(c, bal, g) == {} {
      forall a | a in bal ensures !HoldsIn(c, bal[a], g) {
        assert bal[a] == map[];
      }
    }
    forall a, g | a in bal ensures SeriesHeld(c, bal[a], g) == {} {
      assert bal[a] == map[];
    }
  }
}
