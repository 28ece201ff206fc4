/**
 * The wrapper part of the indexer (indexer/src/handlers/Wrapper.ts, indexer/src/handlers/Registry.ts,
 * indexer/src/lib.ts): supply and holder balances of listed series from Transfer logs, each applied once however often
 * it is delivered.
 */
module Indexer {
  import opened Sums

  type Address = string
  type LogId = (nat, nat)
  type Holdings = map<Address, int>

  const ZERO_ADDRESS: Address := "0x0000000000000000000000000000000000000000"

  datatype Transfer = Transfer(block: nat, logIndex: nat, wrapper: Address, frm: Address, to: Address, value: int)

  function IdOf(e: Transfer): LogId {
    (e.block, e.logIndex)
  }

  /** What the indexer is handed: a series is listed with its wrapper, wrapper tokens move. */
  datatype Event = Listed(wrapper: Address) | Moved(t: Transfer)

  /** `supply` has an entry for every wrapper whose series is known. */
  datatype Index = Index(processed: set<LogId>, supply: map<Address, int>, balances: map<Address, Holdings>)

  const EMPTY: Index := Index({}, map[], map[])

  function HoldingsOf(balances: map<Address, Holdings>, w: Address): Holdings {
    if w in balances then balances[w] else map[]
  }

  /** One holder's balance moved; the zero address holds nothing. */
  function Credit(holdings: Holdings, h: Address, x: int): Holdings {
    if h == ZERO_ADDRESS then holdings else holdings[h := Get(holdings, h) + x]
  }

  function Minted(e: Transfer): int {
    (if e.frm == ZERO_ADDRESS then e.value else 0) - (if e.to == ZERO_ADDRESS then e.value else 0)
  }

  function Applied(i: Index, e: Transfer): Index
    requires e.wrapper in i.supply
  {
    var w := e.wrapper;
    i.(supply := i.supply[w := i.supply[w] + Minted(e)],
       balances := i.balances[w := Credit(Credit(HoldingsOf(i.balances, w), e.frm, -e.value), e.to, e.value)])
  }

  /**
   * A transfer is recorded before it is applied; a recorded one is skipped, and so is one of an unknown wrapper. A
   * listing is not recorded: a second one sets the supply to zero again.
   */
  function Delivered(i: Index, e: Event): Index {
    match e
    case Listed(w) => i.(supply := i.supply[w := 0])
    case Moved(t) =>
      if IdOf(t) in i.processed then i
      else
        var j := i.(processed := i.processed + {IdOf(t)});
        if t.wrapper in i.supply then Applied(j, t) else j
  }

  function DeliveredAll(es: seq<Event>): Index {
    if es == [] then EMPTY else Delivered(DeliveredAll(es[..|es| - 1]), es[|es| - 1])
  }

  class WrapperIndexer {
    var processed: set<LogId>
    var supply: map<Address, int>
    var balances: map<Address, Holdings>

    function View(): Index
      reads this
    {
      Index(processed, supply, balances)
    }

    constructor ()
      ensures View() == EMPTY
    {
      processed, supply, balances := {}, map[], map[];
    }

    method OnSeriesCreated(w: Address)
      modifies this
      ensures View() == Delivered(old(View()), Listed(w))
    {
      supply := supply[w := 0];
    }

    method OnTransfer(e: Transfer)
      modifies this
      ensures View() == Delivered(old(View()), Moved(e))
    {
      if IdOf(e) in processed {
        return;
      }
      processed := processed + {IdOf(e)};
      if e.wrapper !in supply {
        return;
      }
      var was, total := supply[e.wrapper], supply[e.wrapper];
      var held := HoldingsOf(balances, e.wrapper);
      if e.frm == ZERO_ADDRESS {
        total := total + e.value;
      } else {
        held := held[e.frm := Get(held, e.frm) - e.value];
      }
      if e.to == ZERO_ADDRESS {
        total := total - e.value;
      } else {
        held := held[e.to := Get(held, e.to) + e.value];
      }
      balances := balances[e.wrapper := held];
      if total != was {
        supply := supply[e.wrapper := total];
      } else {
        assert supply == supply[e.wrapper := total];
      }
    }
  }

  // ---------------------------------------------------------------------------------------------------------
  // Each transfer once, from the listing on
  // ---------------------------------------------------------------------------------------------------------

  /** The first delivery of a transfer. */
  predicate First(es: seq<Event>, k: nat)
    requires k < |es|
  {
    es[k].Moved? && forall j {:trigger es[j]} :: 0 <= j < k && es[j].Moved? ==> IdOf(es[j].t) != IdOf(es[k].t)
  }

  /** The first delivery of a transfer of `w` that follows a listing of `w`. */
  predicate Counts(es: seq<Event>, k: nat, w: Address)
    requires k < |es|
  {
    First(es, k) && es[k].t.wrapper == w && Listed(w) in es[..k]
  }

  /** The transfers of `w` that count, by their ids. */
  function CountedLogs(es: seq<Event>, w: Address): map<LogId, Transfer> {
    if es == [] then map[]
    else
      var n := |es| - 1;
      if Counts(es, n, w) then CountedLogs(es[..n], w)[IdOf(es[n].t) := es[n].t] else CountedLogs(es[..n], w)
  }

  ghost predicate CountsIn(es: seq<Event>, w: Address, id: LogId, e: Transfer) {
    exists k: nat {:trigger Counts(es, k, w)} :: k < |es| && Counts(es, k, w) && es[k].t == e && IdOf(e) == id
  }

  /** Those are all that count, and nothing else. */
  lemma {:induction false} CountedAre(es: seq<Event>, w: Address)
    ensures forall id, e :: (id in CountedLogs(es, w) && CountedLogs(es, w)[id] == e) <==> CountsIn(es, w, id, e)
    decreases |es|
  {
    if es != [] {
      var front, n := es[..|es| - 1], |es| - 1;
      CountedAre(front, w);
      forall k: nat | k < n ensures es[k] == front[k] && (Counts(es, k, w) <==> Counts(front, k, w)) {
        EarlierCounts(es, k, w);
      }
      forall id, e
        ensures (id in CountedLogs(es, w) && CountedLogs(es, w)[id] == e) <==> CountsIn(es, w, id, e)
      {
        if CountsIn(front, w, id, e) {
          var k: nat :| k < n && Counts(front, k, w) && front[k].t == e && IdOf(e) == id;
          assert Counts(es, k, w);
        }
        if CountsIn(es, w, id, e) {
          var k: nat :| k < |es| && Counts(es, k, w) && es[k].t == e && IdOf(e) == id;
          assert k < n ==> Counts(front, k, w);
        }
      }
    }
  }

  lemma {:induction false} EarlierCounts(es: seq<Event>, k: nat, w: Address)
    requires k < |es| - 1
    ensures Counts(es, k, w) <==> Counts(es[..|es| - 1], k, w)
  {
    var front := es[..|es| - 1];
    assert es[..k] == front[..k];
    assert forall j :: 0 <= j <= k ==> es[j] == front[j];
  }

  function Effect(e: Transfer, h: Address): int {
    if h == ZERO_ADDRESS then 0
    else (if e.to == h then e.value else 0) - (if e.frm == h then e.value else 0)
  }

  ghost function Effects(logs: map<LogId, Transfer>, h: Address): map<LogId, int> {
    map id | id in logs :: Effect(logs[id], h)
  }

  /** What the indexer remembers: every transfer delivered, and every wrapper listed. */
  lemma {:induction false} Remembered(es: seq<Event>)
    ensures forall id :: id in DeliveredAll(es).processed <==>
      exists k :: 0 <= k < |es| && es[k].Moved? && IdOf(es[k].t) == id
    ensures forall w :: w in DeliveredAll(es).supply <==> Listed(w) in es
    decreases |es|
  {
    if es != [] {
      var front, e := es[..|es| - 1], es[|es| - 1];
      Remembered(front);
      assert es == front + [e];
      forall id
        ensures id in DeliveredAll(es).processed <==> exists k :: 0 <= k < |es| && es[k].Moved? && IdOf(es[k].t) == id
      {
        if k :| 0 <= k < |front| && front[k].Moved? && IdOf(front[k].t) == id {
          assert es[k] == front[k];
        }
        if k :| 0 <= k < |es| && es[k].Moved? && IdOf(es[k].t) == id && k != |es| - 1 {
          assert es[k] == front[k];
        }
      }
    }
  }

  /** A delivery is applied exactly when it counts. */
  lemma {:induction false} AppliedIfCounted(es: seq<Event>, w: Address)
    requires es != [] && es[|es| - 1].Moved? && es[|es| - 1].t.wrapper == w
    ensures var front, e := es[..|es| - 1], es[|es| - 1].t;
      var i := DeliveredAll(front);
      Counts(es, |es| - 1, w) <==> IdOf(e) !in i.processed && w in i.supply
  {
    var front := es[..|es| - 1];
    Remembered(front);
    assert forall k :: 0 <= k < |front| ==> front[k] == es[k];
  }

  /**
   * A holder's balance is the sum over the transfers whose first delivery follows the listing of their wrapper, each
   * once, however often it is delivered again. A transfer that came before is lost.
   */
  lemma {:induction false} EachTransferOnce(es: seq<Event>, w: Address, h: Address)
    ensures Get(HoldingsOf(DeliveredAll(es).balances, w), h) == Sum(Effects(CountedLogs(es, w), h))
    decreases |es|
  {
    hide Effects, Delivered, HoldingsOf, Effect, Counts;
    if es == [] {
      NothingDelivered(w, h);
    } else {
      var front, n := es[..|es| - 1], |es| - 1;
      EachTransferOnce(front, w, h);
      if es[n].Moved? && es[n].t.wrapper == w {
        AppliedIfCounted(es, w);
        if Counts(es, n, w) {
          NotCountedYet(es, w);
          OneMoreEffect(CountedLogs(front, w), es[n].t, h);
          ZeroHoldsNothing(CountedLogs(front, w));
          DeliveryEffect(DeliveredAll(front), es[n].t, h);
        } else {
          Skipped(DeliveredAll(front), es[n].t, w);
        }
      } else {
        NotOfWrapper(es, w);
        Elsewhere(DeliveredAll(front), es[n], w);
      }
    }
  }

  lemma {:induction false} NotOfWrapper(es: seq<Event>, w: Address)
    requires es != [] && (es[|es| - 1].Moved? ==> es[|es| - 1].t.wrapper != w)
    ensures !Counts(es, |es| - 1, w)
  {
  }

  lemma {:induction false} NotCountedYet(es: seq<Event>, w: Address)
    requires es != [] && Counts(es, |es| - 1, w)
    ensures IdOf(es[|es| - 1].t) !in CountedLogs(es[..|es| - 1], w)
  {
    var front, n := es[..|es| - 1], |es| - 1;
    CountedAre(front, w);
    forall k: nat | k < n && Counts(front, k, w) ensures IdOf(front[k].t) != IdOf(es[n].t) {
      assert es[k] == front[k];
    }
    var logs := CountedLogs(front, w);
    forall id | id in logs ensures id != IdOf(es[n].t) {
      assert CountsIn(front, w, id, logs[id]);
    }
  }

  lemma {:induction false} NothingDelivered(w: Address, h: Address)
    ensures Get(HoldingsOf(EMPTY.balances, w), h) == 0 && Sum(Effects(CountedLogs([], w), h)) == 0
  {
    SumZero(Effects(CountedLogs([], w), h));
  }

  lemma {:induction false} OneMoreEffect(logs: map<LogId, Transfer>, e: Transfer, h: Address)
    requires IdOf(e) !in logs
    ensures Sum(Effects(logs[IdOf(e) := e], h)) == Sum(Effects(logs, h)) + Effect(e, h)
  {
    assert Effects(logs[IdOf(e) := e], h) == Effects(logs, h)[IdOf(e) := Effect(e, h)];
    SumPut(Effects(logs, h), IdOf(e), Effect(e, h));
  }

  lemma {:induction false} ZeroHoldsNothing(logs: map<LogId, Transfer>)
    ensures Sum(Effects(logs, ZERO_ADDRESS)) == 0
  {
    SumZero(Effects(logs, ZERO_ADDRESS));
  }

  lemma {:induction false} DeliveryEffect(i: Index, e: Transfer, h: Address)
    requires e.wrapper in i.supply && IdOf(e) !in i.processed
    requires h == ZERO_ADDRESS ==> Get(HoldingsOf(i.balances, e.wrapper), h) == 0
    ensures Get(HoldingsOf(Delivered(i, Moved(e)).balances, e.wrapper), h)
         == Get(HoldingsOf(i.balances, e.wrapper), h) + Effect(e, h)
  {
  }

  lemma {:induction false} Skipped(i: Index, e: Transfer, w: Address)
    requires e.wrapper == w && (IdOf(e) in i.processed || w !in i.supply)
    ensures HoldingsOf(Delivered(i, Moved(e)).balances, w) == HoldingsOf(i.balances, w)
  {
  }

  lemma {:induction false} Elsewhere(i: Index, e: Event, w: Address)
    requires e.Moved? ==> e.t.wrapper != w
    ensures HoldingsOf(Delivered(i, e).balances, w) == HoldingsOf(i.balances, w)
  {
  }

  // ---------------------------------------------------------------------------------------------------------
  // Supply and holdings
  // ---------------------------------------------------------------------------------------------------------

  /** What the holders of `w` had when it was last listed. */
  ghost function HeldAtListing(es: seq<Event>, w: Address): int {
    if es == [] then 0
    else
      var front := es[..|es| - 1];
      if es[|es| - 1] == Listed(w) then Sum(HoldingsOf(DeliveredAll(front).balances, w)) else HeldAtListing(front, w)
  }

  lemma {:induction false} CreditTotal(holdings: Holdings, h: Address, x: int)
    ensures Sum(Credit(holdings, h, x)) == Sum(holdings) + if h == ZERO_ADDRESS then 0 else x
  {
    SumPut(holdings, h, Get(holdings, h) + x);
  }

  lemma {:induction false} TransferKeepsGap(i: Index, e: Transfer)
    requires e.wrapper in i.supply && IdOf(e) !in i.processed
    ensures var j, w := Delivered(i, Moved(e)), e.wrapper;
      && w in j.supply
      && Sum(HoldingsOf(j.balances, w)) - j.supply[w] == Sum(HoldingsOf(i.balances, w)) - i.supply[w]
  {
    var held := HoldingsOf(i.balances, e.wrapper);
    CreditTotal(held, e.frm, -e.value);
    CreditTotal(Credit(held, e.frm, -e.value), e.to, e.value);
  }

  /** After any deliveries, the supply of a listed wrapper is what its holders have more than at its last listing. */
  lemma {:induction false} SupplySinceListing(es: seq<Event>, w: Address)
    requires w in DeliveredAll(es).supply
    ensures DeliveredAll(es).supply[w] == Sum(HoldingsOf(DeliveredAll(es).balances, w)) - HeldAtListing(es, w)
    decreases |es|
  {
    hide HoldingsOf, Applied;
    if es != [] {
      var front, e := es[..|es| - 1], es[|es| - 1];
      var i := DeliveredAll(front);
      if e != Listed(w) {
        KnownBefore(i, e, w);
        SupplySinceListing(front, w);
        if e.Moved? && e.t.wrapper == w && IdOf(e.t) !in i.processed {
          TransferKeepsGap(i, e.t);
        } else if e.Moved? && e.t.wrapper == w {
          Skipped(i, e.t, w);
        } else {
          Elsewhere(i, e, w);
          OtherSupply(i, e, w);
        }
      } else {
        Elsewhere(i, e, w);
      }
    }
  }

  lemma {:induction false} KnownBefore(i: Index, e: Event, w: Address)
    requires e != Listed(w) && w in Delivered(i, e).supply
    ensures w in i.supply
  {
  }

  lemma {:induction false} OtherSupply(i: Index, e: Event, w: Address)
    requires e != Listed(w) && (e.Moved? ==> e.t.wrapper != w) && w in i.supply
    ensures w in Delivered(i, e).supply && Delivered(i, e).supply[w] == i.supply[w]
  {
  }

  /** Listed once, a wrapper's supply is the sum of its holders' balances. */
  lemma {:induction false} SupplyAlwaysHeld(es: seq<Event>, w: Address, n: nat)
    requires n < |es| && es[n] == Listed(w) && forall k :: 0 <= k < |es| && k != n ==> es[k] != Listed(w)
    ensures w in DeliveredAll(es).supply
    ensures DeliveredAll(es).supply[w] == Sum(HoldingsOf(DeliveredAll(es).balances, w))
  {
    Remembered(es);
    SupplySinceListing(es, w);
    NothingHeldBefore(es, w, n);
  }

  lemma {:induction false} NothingHeldBefore(es: seq<Event>, w: Address, n: nat)
    requires n < |es| && es[n] == Listed(w) && forall k :: 0 <= k < |es| && k != n ==> es[k] != Listed(w)
    ensures HeldAtListing(es, w) == 0
    decreases |es|
  {
    var front := es[..|es| - 1];
    assert forall k :: 0 <= k < |front| ==> front[k] == es[k];
    if n == |es| - 1 {
      UnlistedHoldsNothing(front, w);
    } else {
      NothingHeldBefore(front, w, n);
    }
  }

  lemma {:induction false} UnlistedHoldsNothing(es: seq<Event>, w: Address)
    requires Listed(w) !in es
    ensures Sum(HoldingsOf(DeliveredAll(es).balances, w)) == 0
  {
    forall h ensures Get(HoldingsOf(DeliveredAll(es).balances, w), h) == 0 {
      EachTransferOnce(es, w, h);
      NoneCount(es, w);
      SumZero(Effects(CountedLogs(es, w), h));
    }
    AllZero(HoldingsOf(DeliveredAll(es).balances, w));
  }

  lemma {:induction false} NoneCount(es: seq<Event>, w: Address)
    requires Listed(w) !in es
    ensures CountedLogs(es, w) == map[]
    decreases |es|
  {
    if es != [] {
      NoneCount(es[..|es| - 1], w);
    }
  }

  lemma {:induction false} AllZero(a: Holdings)
    requires forall h :: Get(a, h) == 0
    ensures Sum(a) == 0
  {
    forall h | h in a ensures a[h] == 0 {
      assert Get(a, h) == 0;
    }
    SumZero(a);
  }

  /** The handler of listings is not guarded as the one of transfers is: a listing delivered again loses the supply. */
  lemma {:induction false} RelistingLosesSupply(w: Address, h: Address, x: int)
    requires h != ZERO_ADDRESS && x != 0
    ensures var es := [Listed(w), Moved(Transfer(1, 0, w, ZERO_ADDRESS, h, x)), Listed(w)];
      var i := DeliveredAll(es);
      w in i.supply && i.supply[w] == 0 && Get(HoldingsOf(i.balances, w), h) == x != 0
  {
    var e := Transfer(1, 0, w, ZERO_ADDRESS, h, x);
    var es := [Listed(w), Moved(e), Listed(w)];
    assert es[..2] == [Listed(w), Moved(e)] && [Listed(w), Moved(e)][..1] == [Listed(w)] && [Listed(w)][..0] == [];
    assert DeliveredAll([Listed(w)]) == Delivered(EMPTY, Listed(w));
    assert DeliveredAll([Listed(w), Moved(e)]) == Delivered(DeliveredAll([Listed(w)]), Moved(e));
  }

  // ---------------------------------------------------------------------------------------------------------
  // Order
  // ---------------------------------------------------------------------------------------------------------

  /** A log's id names it: the same id is the same transfer. */
  ghost predicate OneLogPerId(es: seq<Event>) {
    forall d, e :: Moved(d) in es && Moved(e) in es && IdOf(d) == IdOf(e) ==> d == e
  }

  /** Every transfer of `w` comes after a listing of `w`. */
  predicate ListedFirst(es: seq<Event>, w: Address) {
    forall k {:trigger es[k]} :: 0 <= k < |es| && es[k].Moved? && es[k].t.wrapper == w ==> Listed(w) in es[..k]
  }

  ghost predicate MovedIn(es: seq<Event>, id: LogId, e: Transfer) {
    Moved(e) in es && IdOf(e) == id
  }

  /** Then exactly the distinct transfers count. */
  lemma {:induction false} AllCount(es: seq<Event>, w: Address)
    requires OneLogPerId(es) && ListedFirst(es, w)
    ensures forall id, e ::
      (id in CountedLogs(es, w) && CountedLogs(es, w)[id] == e) <==> (MovedIn(es, id, e) && e.wrapper == w)
  {
    hide CountedLogs;
    CountedAre(es, w);
    forall id, e
      ensures CountsIn(es, w, id, e) <==> MovedIn(es, id, e) && e.wrapper == w
    {
      if CountsIn(es, w, id, e) {
        var k: nat :| k < |es| && Counts(es, k, w) && es[k].t == e && IdOf(e) == id;
        assert es[k] == Moved(e);
      }
      if MovedIn(es, id, e) && e.wrapper == w {
        var k :| 0 <= k < |es| && es[k] == Moved(e);
        var n := FirstOf(es, k);
        assert Moved(es[n].t) in es;
        assert Counts(es, n, w);
      }
    }
  }

  lemma {:induction false} FirstOf(es: seq<Event>, k: nat) returns (n: nat)
    requires k < |es| && es[k].Moved?
    ensures n <= k && First(es, n) && IdOf(es[n].t) == IdOf(es[k].t)
    decreases k
  {
    if j :| 0 <= j < k && es[j].Moved? && IdOf(es[j].t) == IdOf(es[k].t) {
      n := FirstOf(es, j);
    } else {
      n := k;
    }
  }

  /**
   * Two deliveries of the same transfers, in whatever order and however often, lead to the same balances and supply of
   * a wrapper that is listed first, and once.
   */
  lemma {:induction false} DeliveryOrderIsIrrelevant(es: seq<Event>, fs: seq<Event>, w: Address, n: nat, m: nat)
    requires OneLogPerId(es) && OneLogPerId(fs) && ListedFirst(es, w) && ListedFirst(fs, w)
    requires forall e :: Moved(e) in es <==> Moved(e) in fs
    requires n < |es| && es[n] == Listed(w) && forall k :: 0 <= k < |es| && k != n ==> es[k] != Listed(w)
    requires m < |fs| && fs[m] == Listed(w) && forall k :: 0 <= k < |fs| && k != m ==> fs[k] != Listed(w)
    ensures var i, j := DeliveredAll(es), DeliveredAll(fs);
      && (forall h :: Get(HoldingsOf(i.balances, w), h) == Get(HoldingsOf(j.balances, w), h))
      && w in i.supply && w in j.supply && i.supply[w] == j.supply[w]
  {
    var i, j := DeliveredAll(es), DeliveredAll(fs);
    SameCounted(es, fs, w);
    forall h ensures Get(HoldingsOf(i.balances, w), h) == Get(HoldingsOf(j.balances, w), h) {
      EachTransferOnce(es, w, h);
      EachTransferOnce(fs, w, h);
    }
    SupplyAlwaysHeld(es, w, n);
    SupplyAlwaysHeld(fs, w, m);
    SameTotal(HoldingsOf(i.balances, w), HoldingsOf(j.balances, w));
  }

  lemma {:induction false} SameCounted(es: seq<Event>, fs: seq<Event>, w: Address)
    requires OneLogPerId(es) && OneLogPerId(fs) && ListedFirst(es, w) && ListedFirst(fs, w)
    requires forall e :: Moved(e) in es <==> Moved(e) in fs
    ensures CountedLogs(es, w) == CountedLogs(fs, w)
  {
    hide CountedLogs;
    AllCount(es, w);
    AllCount(fs, w);
    var a, b := CountedLogs(es, w), CountedLogs(fs, w);
    forall id | id in a ensures id in b && b[id] == a[id] {
      assert MovedIn(es, id, a[id]) && MovedIn(fs, id, a[id]);
    }
    forall id | id in b ensures id in a {
      assert MovedIn(fs, id, b[id]) && MovedIn(es, id, b[id]);
    }
  }

  lemma {:induction false} SameTotal(a: Holdings, b: Holdings)
    requires forall h :: Get(a, h) == Get(b, h)
    ensures Sum(a) == Sum(b)
    decreases |a|
  {
    if a == map[] {
      forall h | h in b ensures b[h] == 0 {
        assert Get(a, h) == Get(b, h);
      }
      SumZero(b);
    } else {
      var h :| h in a;
      SumRemove(a, h);
      assert Get(a, h) == Get(b, h);
      if h in b {
        SumRemove(b, h);
      } else {
        assert b - {h} == b;
      }
      forall k ensures Get(a - {h}, k) == Get(b - {h}, k) {
        assert Get(a, k) == Get(b, k);
      }
      SameTotal(a - {h}, b - {h});
    }
  }
}
