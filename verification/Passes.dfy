/**
 * What a pass of the settlement keeper (keepers/src/settlementKeeper.ts) means for the ledger: what it finds and
 * reports, how its batches add up if nobody interferes, and what holds whatever the others do.
 */
module Passes {
  import opened Basics
  import opened Sums
  import opened Tables
  import opened Clearing
  import opened Invariant
  import opened Counters
  import opened Batch
  import opened ProtocolObject
  import opened Directory
  import opened Ordering
  import opened Onward
  import Settlement
  import Runs

  datatype GroupState = Active | Expired | OracleStalled | Finalized | AllSettled | Redeemable

  datatype KeeperError =
    | NoPrice(g: Gid)
    | FinalizeFailed(g: Gid)
    | SettledNobody(g: Gid, left: int)
    | UnknownParticipants(g: Gid, left: int)
    | SettleFailed(g: Gid)
    | RatioFailed(g: Gid)

  /** The participants of a group that the directory lists. */
  ghost function KnownHolders(c: Config, s: State, g: Gid, known: seq<Aid>): set<Aid> {
    set a | a in Holders(c, s.bal, g) && a in known
  }

  // ---------------------------------------------------------------------------------------------------------
  // Settled states
  // ---------------------------------------------------------------------------------------------------------

  /** Holders once some accounts have settled: the rest. */
  lemma {:induction false} HoldersLeft(c: Config, s: State, g: Gid, done: set<Aid>)
    requires Shaped(c, s) && g in s.groups && s.groups[g].price.Some?
    ensures Holders(c, SettledState(c, s, g, done).bal, g) == Holders(c, s.bal, g) - done
  {
    forall a | a in s.bal
      ensures HoldsIn(c, SettledBal(c, s.bal, g, done)[a], g) <==> a !in done && HoldsIn(c, s.bal[a], g)
    {
      Settlement.OutsideClaim(c, s.bal[a], g, 0);
    }
  }

  lemma {:induction false} SameSet(order: seq<Aid>, accounts: set<Aid>)
    requires forall a :: a in order <==> a in accounts
    ensures AsSet(order) == accounts
  {
    forall a | a in AsSet(order) ensures a in accounts {
      assert a in order;
    }
    forall a | a in accounts ensures a in AsSet(order) {
      assert a in order;
    }
    assert AsSet(order) <= accounts <= AsSet(order);
  }

  lemma {:induction false} DistinctAppend(order: seq<Aid>, a: Aid)
    requires Distinct(order) && a !in order
    ensures Distinct(order + [a])
  {
  }

  lemma {:induction false} DistinctSize(order: seq<Aid>)
    requires Distinct(order)
    ensures |AsSet(order)| == |order|
  {
    if order == [] {
      assert AsSet(order) == {};
    } else {
      DistinctSize(order[..|order| - 1]);
      LastIsNew(order);
    }
  }

  lemma {:induction false} PartSize(part: set<Aid>, whole: set<Aid>)
    requires part <= whole
    ensures |part| <= |whole| && (|part| == |whole| <==> part == whole) && |whole - part| == |whole| - |part|
  {
    assert whole == part + (whole - part);
    if whole - part == {} {
      assert part == whole;
    }
  }

  /** ⌈n / batch⌉ batches: all full but the last. */
  lemma {:induction false} BatchCount(batches: nat, batch: nat, n: nat)
    requires 0 < batch && n <= batches * batch && (0 < batches ==> (batches - 1) * batch < n)
    ensures batches == CeilDiv(n, batch)
  {
    var q := CeilDiv(n, batch);
    if q < batches {
      MulAtMost(q, batches - 1, batch);
    } else if batches < q {
      MulAtMost(batches, q - 1, batch);
    }
  }

  // ---------------------------------------------------------------------------------------------------------
  // What a pass finds and reports
  // ---------------------------------------------------------------------------------------------------------

  ghost function StateAt(c: Config, s: State, g: Gid, stalled: bool): GroupState
    requires g in c.groups && g in s.groups
  {
    var x := s.groups[g];
    if x.price.None? then (if s.now < c.groups[g].expiry then Active else if stalled then OracleStalled else Expired)
    else if x.ratio.Some? then Redeemable
    else if Holders(c, s.bal, g) == {} then AllSettled
    else Finalized
  }

  /** The directory lists every participant of the group. */
  ghost predicate KnowsAll(c: Config, s: State, g: Gid, known: seq<Aid>) {
    KnownHolders(c, s, g, known) == Holders(c, s.bal, g)
  }

  /** From `s` to `s'` every participant settled, then the ratio was fixed, and nothing else happened. */
  ghost predicate SettledAndFixed(c: Config, s: State, g: Gid, s': State)
    requires Shaped(c, s) && g in c.groups && g in s.groups && s.groups[g].price.Some?
  {
    var all := Holders(c, s.bal, g);
    Shaped(c, SettledState(c, s, g, all)) && ComputeRatio(c, SettledState(c, s, g, all), g) == Done(s')
  }

  /** A group as the oracle shows it to the keeper. */
  datatype Outlook = Outlook(stalled: bool, flagged: bool, earliest: int, price: Option<int>)

  /** All n participants settled in ⌈n / batch⌉ batches, then the ratio was fixed. */
  ghost predicate Completed(c: Config, s: State, g: Gid, s': State, r: GroupReport, batch: nat)
    requires Shaped(c, s) && g in c.groups && g in s.groups && s.groups[g].price.Some? && 0 < batch
  {
    && r.ratio && r.accounts == |Holders(c, s.bal, g)| && r.batches == CeilDiv(r.accounts, batch)
    && SettledAndFixed(c, s, g, s')
  }

  /** The group can be settled in this pass: it has a price, or gets one. */
  ghost predicate Ready(c: Config, s: State, g: Gid, look: Outlook)
    requires g in c.groups && g in s.groups
  {
    && c.groups[g].expiry <= s.now
    && (s.groups[g].price.Some? || (look.price.Some? && look.earliest <= s.now))
  }

  /** Ready and not yet redeemable. */
  ghost predicate CanComplete(c: Config, s: State, g: Gid, look: Outlook)
    requires g in c.groups && g in s.groups
  {
    Ready(c, s, g, look) && s.groups[g].ratio.None?
  }

  /** Completed from the state itself, or from the state its finalization leads to. */
  ghost predicate CompletedFrom(c: Config, s: State, g: Gid, look: Outlook, s': State, r: GroupReport, batch: nat)
    requires Shaped(c, s) && g in c.groups && Ready(c, s, g, look) && 0 < batch
  {
    if s.groups[g].price.Some? then Completed(c, s, g, s', r, batch)
    else
      var f := Finalize(c, s, g, look.price.value);
      && f.Done? && Shaped(c, f.next) && f.next.groups[g].price.Some?
      && Completed(c, f.next, g, s', r, batch)
  }

  datatype GroupReport = GroupReport(
    flagged: bool, finalized: bool, accounts: nat, batches: nat, ratio: bool, errors: seq<KeeperError>)

  /** The catalog lists exactly the series of every group. */
  ghost predicate Catalogued(c: Config, catalog: Gid -> seq<Sid>) {
    forall g, sid {:trigger sid in catalog(g)} :: g in c.groups ==> (sid in catalog(g) <==> sid in SeriesOf(c, g))
  }

  lemma {:induction false} LastBlock(blocks: Blocks)
    requires blocks != []
    ensures LogsIn(blocks, 0, |blocks|) == LogsIn(blocks, 0, |blocks| - 1) + blocks[|blocks| - 1]
  {
  }

  lemma {:induction false} OrderedIsDistinct(known: seq<Aid>)
    requires Ordered(known)
    ensures Distinct(known)
  {
  }

  /** A group as it was: its record, its participants and the time. */
  ghost predicate Untouched(c: Config, s: State, s': State, g: Gid) {
    && s'.now == s.now && g in s.groups && g in s'.groups && s'.groups[g] == s.groups[g]
    && Holders(c, s'.bal, g) == Holders(c, s.bal, g)
  }

  /** Groups not passed over yet are as they were at the start. */
  ghost predicate UntouchedBeyond(c: Config, s0: State, s: State, passed: seq<Gid>) {
    forall g :: g in c.groups && g !in passed ==> Untouched(c, s0, s, g)
  }

  /** The done list is right about the groups passed over. */
  ghost predicate DoneAgrees(s: State, passed: seq<Gid>, done: set<Gid>) {
    forall g :: g in passed ==> g in s.groups && (g in done <==> s.groups[g].ratio.Some?)
  }

  /** What a pass over a group that could complete when the pass started has to report. */
  ghost predicate CompletedReport(c: Config, s: State, g: Gid, look: Outlook, r: GroupReport, batch: nat,
      done: set<Gid>) {
    && g in c.groups && g in s.groups && 0 < batch
    && (CanComplete(c, s, g, look) ==>
          && g in done && r.ratio && r.errors == []
          && r.accounts == |Holders(c, s.bal, g)| && r.batches == CeilDiv(r.accounts, batch))
  }

  ghost predicate AllReported(c: Config, s0: State, passed: seq<Gid>, look: Gid -> Outlook, reports: seq<GroupReport>,
      batch: nat, done: set<Gid>)
  {
    && |reports| == |passed|
    && forall i :: 0 <= i < |passed| && passed[i] !in passed[..i] ==>
         CompletedReport(c, s0, passed[i], look(passed[i]), reports[i], batch, done)
  }

  /** What a step on group `g` may do to the clearing state: other groups stay as they are. */
  ghost predicate KeepsOthers(c: Config, s: State, s': State, g: Gid) {
    && s.groups.Keys == s'.groups.Keys && s'.now == s.now
    && forall h :: h in s.groups && h != g ==> Untouched(c, s, s', h)
  }

  lemma {:induction false} KeepsItself(c: Config, s: State, g: Gid)
    ensures KeepsOthers(c, s, s, g)
  {
  }

  lemma {:induction false} KeepsOthersOnward(c: Config, s: State, s1: State, s2: State, g: Gid)
    requires KeepsOthers(c, s, s1, g) && KeepsOthers(c, s1, s2, g)
    ensures KeepsOthers(c, s, s2, g)
  {
    hide Holders;
    forall h | h in s.groups && h != g ensures Untouched(c, s, s2, h) {
      assert Untouched(c, s, s1, h) && Untouched(c, s1, s2, h);
    }
  }

  lemma {:induction false} NothingPassed(c: Config, s: State, look: Gid -> Outlook, now: int, batch: nat,
      done: set<Gid>)
    requires Core(c, s)
    ensures UntouchedBeyond(c, s, s, []) && DoneAgrees(s, [], done) && AllReported(c, s, [], look, [], batch, done)
    ensures Later(c, s, s) && Settles(c, s, s, [], look, now, [], done, true)
    ensures Settles(c, s, s, [], look, now, [], done, false)
  {
    CoreIsLater(c, s);
  }

  lemma {:induction false} PassOver(c: Config, s0: State, s: State, s': State, passed: seq<Gid>, g: Gid)
    requires KeepsOthers(c, s, s', g) && UntouchedBeyond(c, s0, s, passed)
    ensures UntouchedBeyond(c, s0, s', passed + [g]) && s'.now == s.now
  {
    hide Holders;
    forall h | h in c.groups && h !in passed + [g] ensures Untouched(c, s0, s', h) {
      assert Untouched(c, s0, s, h) && Untouched(c, s, s', h);
    }
  }

  lemma {:induction false} DoneOnward(c: Config, s: State, s': State, passed: seq<Gid>, g: Gid, done: set<Gid>,
      done': set<Gid>)
    requires KeepsOthers(c, s, s', g) && DoneAgrees(s, passed, done) && done <= done' <= done + {g}
    requires g in s'.groups && (g in done' <==> s'.groups[g].ratio.Some?)
    ensures DoneAgrees(s', passed + [g], done')
  {
    hide Holders;
    forall h | h in passed && h != g ensures h in s'.groups && (h in done' <==> s'.groups[h].ratio.Some?) {
      assert Untouched(c, s, s', h);
    }
  }

  /** What the pass over one group came to, if all its transactions went through. */
  ghost predicate PassOutcome(c: Config, s: State, s': State, g: Gid, look: Outlook, r: GroupReport, batch: nat,
      done: set<Gid>)
    requires Shaped(c, s) && g in c.groups && 0 < batch
  {
    CanComplete(c, s, g, look) ==> g in done && r.errors == [] && CompletedFrom(c, s, g, look, s', r, batch)
  }

  /** A group that nobody touched before its turn completes as it would have at the start. */
  lemma {:induction false} Reported(c: Config, s0: State, s: State, s': State, g: Gid, look: Outlook, r: GroupReport,
      batch: nat, done: set<Gid>)
    requires Shaped(c, s) && g in c.groups && 0 < batch && Untouched(c, s0, s, g)
    requires PassOutcome(c, s, s', g, look, r, batch, done)
    ensures CompletedReport(c, s0, g, look, r, batch, done)
  {
    hide Holders, SettledAndFixed;
  }

  lemma {:induction false} OneMoreReport(c: Config, s0: State, s: State, s': State, passed: seq<Gid>, g: Gid,
      look: Gid -> Outlook, reports: seq<GroupReport>, r: GroupReport, batch: nat, done: set<Gid>, done': set<Gid>)
    requires Shaped(c, s) && g in c.groups && 0 < batch && UntouchedBeyond(c, s0, s, passed) && done <= done'
    requires PassOutcome(c, s, s', g, look(g), r, batch, done')
    requires AllReported(c, s0, passed, look, reports, batch, done)
    ensures AllReported(c, s0, passed + [g], look, reports + [r], batch, done')
  {
    hide Holders, PassOutcome, Untouched, CanComplete;
    var all := passed + [g];
    forall i | 0 <= i < |all| && all[i] !in all[..i]
      ensures CompletedReport(c, s0, all[i], look(all[i]), (reports + [r])[i], batch, done')
    {
      if i < |passed| {
        assert all[..i] == passed[..i];
      } else {
        assert all[..i] == passed;
        Reported(c, s0, s, s', g, look(g), r, batch, done');
      }
    }
  }

  lemma {:induction false} SettledKeepsOthers(c: Config, s: State, g: Gid, done: set<Aid>)
    requires Shaped(c, s) && g in s.groups && s.groups[g].price.Some?
    ensures var s' := SettledState(c, s, g, done);
      && KeepsOthers(c, s, s', g) && s'.groups[g].price == s.groups[g].price && s'.groups[g].ratio == s.groups[g].ratio
      && s'.now == s.now
  {
    var s' := SettledState(c, s, g, done);
    forall h | h in s.groups && h != g ensures Untouched(c, s, s', h) {
      SameHolders(c, h, s.bal, s'.bal);
    }
  }

  lemma {:induction false} FinalizeKeepsOthers(c: Config, s: State, g: Gid, price: int)
    requires Shaped(c, s) && g in c.groups
    ensures var r := Finalize(c, s, g, price); r.Done? ==> KeepsOthers(c, s, r.next, g)
  {
    hide Holders, Snapshot, BooksAgree;
  }

  lemma {:induction false} PricedIsExpired(c: Config, s: State, g: Gid)
    requires Core(c, s) && g in c.groups
    ensures g in s.groups && Shaped(c, s)
    ensures s.groups[g].price.Some? ==> c.groups[g].expiry <= s.now
    ensures s.groups[g].ratio.Some? ==> s.groups[g].price.Some? && Holders(c, s.bal, g) == {}
  {
    CoreGroup(c, s, g);
  }

  lemma {:induction false} HolderInPlace(c: Config, s: State, a: Aid, g: Gid)
    requires Shaped(c, s) && a in Holders(c, s.bal, g)
    ensures a in s.bal && HoldsIn(c, s.bal[a], g) && a in c.owner
  {
  }

  lemma {:induction false} ParticipantsAre(c: Config, l: Ledger, g: Gid)
    requires LedgerOk(c, l)
    ensures Get(l.participants, g) == |Holders(c, l.bal, g)|
  {
  }

  lemma {:induction false} KnownAreHolders(c: Config, s: State, g: Gid, known: seq<Aid>)
    ensures KnownHolders(c, s, g, known) <= Holders(c, s.bal, g)
  {
  }

  /** What is left of the listed participants once some have settled. */
  lemma {:induction false} KnownLeft(c: Config, s: State, g: Gid, known: seq<Aid>, paid: set<Aid>)
    requires Shaped(c, s) && g in s.groups && s.groups[g].price.Some?
    ensures KnownHolders(c, SettledState(c, s, g, paid), g, known) == KnownHolders(c, s, g, known) - paid
  {
    hide Holders, SettledState;
    HoldersLeft(c, s, g, paid);
  }

  /** After some batches: all full, except that the last may have finished the list. */
  ghost predicate Batched(paid: set<Aid>, todo: set<Aid>, batches: nat, batch: nat) {
    && |paid| <= batches * batch
    && (0 < batches ==> (batches - 1) * batch < |paid|)
    && (paid != todo ==> |paid| == batches * batch)
  }

  lemma {:induction false} NoBatchYet(todo: set<Aid>, batch: nat)
    ensures Batched({}, todo, 0, batch)
  {
  }

  lemma {:induction false} BatchesUsed(paid: set<Aid>, todo: set<Aid>, batches: nat, batch: nat)
    requires 0 < batch && Batched(paid, todo, batches, batch)
    ensures batches == CeilDiv(|paid|, batch)
  {
    BatchCount(batches, batch, |paid|);
  }

  lemma {:induction false} BatchSizes(paid: set<Aid>, todo: set<Aid>, holders: set<Aid>, pending: seq<Aid>)
    requires paid <= todo <= holders && Distinct(pending) && AsSet(pending) <= todo - paid
    ensures AsSet(pending) <= holders - paid && paid + AsSet(pending) <= todo
    ensures |holders - (paid + AsSet(pending))| == |holders - paid| - |pending|
    ensures |paid + AsSet(pending)| == |paid| + |pending| <= |todo|
    ensures pending != [] ==> paid != todo
  {
    var now := AsSet(pending);
    DistinctSize(pending);
    PartSize(now, holders - paid);
    PartSize(paid + now, todo);
    assert (holders - paid) - now == holders - (paid + now);
    if pending != [] {
      assert pending[0] in now;
    }
  }

  /** One more batch. */
  lemma {:induction false} OneBatch(paid: set<Aid>, todo: set<Aid>, holders: set<Aid>, pending: seq<Aid>, batches: nat,
      batch: nat)
    requires 0 < batch && paid <= todo <= holders && Batched(paid, todo, batches, batch)
    requires Distinct(pending) && AsSet(pending) <= todo - paid && |pending| <= batch
    requires |pending| < batch ==> AsSet(pending) == todo - paid
    ensures AsSet(pending) <= holders - paid && paid + AsSet(pending) <= todo
    ensures |holders - (paid + AsSet(pending))| == |holders - paid| - |pending|
    ensures |paid + AsSet(pending)| == |paid| + |pending| <= |todo|
    ensures pending == [] ==> paid == todo
    ensures pending != [] ==> Batched(paid + AsSet(pending), todo, batches + 1, batch)
  {
    hide Distinct;
    BatchSizes(paid, todo, holders, pending);
    if |pending| < batch {
      assert paid + AsSet(pending) == todo;
    }
    if pending == [] {
      assert paid + AsSet(pending) == paid;
    }
    assert (batches + 1) * batch == batches * batch + batch;
  }

  // ---------------------------------------------------------------------------------------------------------
  // One batch after another, when the others do nothing
  // ---------------------------------------------------------------------------------------------------------

  /** From `s` to `v` the accounts of `paid` settled, and nothing else happened. */
  ghost predicate Settling(c: Config, s: State, v: State, g: Gid, paid: set<Aid>) {
    Shaped(c, s) && g in s.groups && s.groups[g].price.Some? && v == SettledState(c, s, g, paid)
  }

  /** The counts of the keeper so far: all batches full, except that the last may have finished the list. */
  ghost predicate Tallied(c: Config, s: State, v: State, g: Gid, todo: set<Aid>, paid: set<Aid>, accounts: nat,
      batches: nat, batch: nat)
  {
    Settling(c, s, v, g, paid) && paid <= todo && accounts == |paid| && Batched(paid, todo, batches, batch)
  }

  lemma {:induction false} NothingTallied(c: Config, s: State, g: Gid, todo: set<Aid>, batch: nat)
    requires Shaped(c, s) && g in s.groups && s.groups[g].price.Some?
    ensures Tallied(c, s, s, g, todo, {}, 0, 0, batch)
  {
    NobodySettled(c, s, g);
    NoBatchYet(todo, batch);
  }

  lemma {:induction false} TalliedBatch(c: Config, s: State, v: State, g: Gid, known: seq<Aid>, pending: seq<Aid>,
      paid: set<Aid>, accounts: nat, batches: nat, batch: nat)
    requires 0 < batch && Tallied(c, s, v, g, KnownHolders(c, s, g, known), paid, accounts, batches, batch)
    requires Distinct(pending) && AsSet(pending) <= KnownHolders(c, v, g, known) && |pending| <= batch
    requires pending != [] && (|pending| < batch ==> AsSet(pending) == KnownHolders(c, v, g, known))
    ensures Settling(c, s, v, g, paid) && AsSet(pending) <= Holders(c, s.bal, g) - paid
    ensures forall w :: Settling(c, s, w, g, paid + AsSet(pending)) ==>
      Tallied(c, s, w, g, KnownHolders(c, s, g, known), paid + AsSet(pending), accounts + |pending|, batches + 1, batch)
  {
    hide KnownHolders, Holders, SettledState, Distinct, Batched;
    KnownLeft(c, s, g, known, paid);
    KnownAreHolders(c, s, g, known);
    OneBatch(paid, KnownHolders(c, s, g, known), Holders(c, s.bal, g), pending, batches, batch);
  }

  /** What the counts say at the end. */
  lemma {:induction false} TalliedEnd(c: Config, s: State, v: State, g: Gid, known: seq<Aid>, paid: set<Aid>,
      accounts: nat, batches: nat, batch: nat)
    requires 0 < batch && Tallied(c, s, v, g, KnownHolders(c, s, g, known), paid, accounts, batches, batch)
    ensures Settling(c, s, v, g, paid) && paid <= KnownHolders(c, s, g, known)
    ensures accounts == |paid| && batches == CeilDiv(accounts, batch)
    ensures KnownHolders(c, v, g, known) == {} ==> paid == KnownHolders(c, s, g, known)
  {
    hide KnownHolders, SettledState, Batched;
    var todo := KnownHolders(c, s, g, known);
    KnownLeft(c, s, g, known, paid);
    BatchesUsed(paid, todo, batches, batch);
    if KnownHolders(c, v, g, known) == {} {
      assert paid == todo - (todo - paid);
    }
  }

  lemma {:induction false} SettlingOneMore(c: Config, s: State, v: State, w: State, g: Gid, paid: set<Aid>,
      pending: seq<Aid>, i: nat, ok: bool)
    requires Distinct(pending) && AsSet(pending) <= Holders(c, s.bal, g) - paid && i < |pending|
    requires Settling(c, s, v, g, paid + AsSet(pending[..i])) && Shaped(c, v) && g in c.groups && pending[i] in c.owner
    requires Did(Settle(c, v, pending[i], g), ok, v, w)
    ensures Settling(c, s, w, g, paid + AsSet(pending[..i + 1]))
  {
    hide SettledState, Settle, Holders, HoldsIn, Shaped;
    var a, before := pending[i], paid + AsSet(pending[..i]);
    assert pending[..i + 1] == pending[..i] + [a];
    assert a in AsSet(pending) && a !in before;
    HolderInPlace(c, s, a, g);
    SettleOneMore(c, s, g, before, a);
    assert before + {a} == paid + AsSet(pending[..i + 1]);
  }

  // ---------------------------------------------------------------------------------------------------------
  // Whatever the others do
  // ---------------------------------------------------------------------------------------------------------

  ghost predicate RatioFixed(s: State, done: set<Gid>) {
    forall g :: g in done ==> g in s.groups && s.groups[g].ratio.Some?
  }

  lemma {:induction false} OneMoreRatio(s: State, done: set<Gid>, g: Gid)
    requires RatioFixed(s, done) && g in s.groups && s.groups[g].ratio.Some?
    ensures RatioFixed(s, done + {g})
  {
  }

  lemma {:induction false} DoneHasRatio(s: State, done: set<Gid>, g: Gid)
    requires RatioFixed(s, done)
    ensures g in done ==> g in s.groups && s.groups[g].ratio.Some?
  {
  }

  lemma {:induction false} CoreIsLater(c: Config, s: State)
    requires Core(c, s)
    ensures Shaped(c, s) && Later(c, s, s) && s.groups.Keys == c.groups.Keys
  {
    LaterSelf(c, s);
  }

  lemma {:induction false} LaterRatios(c: Config, s: State, s': State, done: set<Gid>)
    requires Later(c, s, s') && RatioFixed(s, done)
    ensures RatioFixed(s', done)
  {
    SameGids(c, s, s');
    forall g | g in done ensures g in s'.groups && s'.groups[g].ratio.Some? {
      assert GroupOnward(s.groups[g], s'.groups[g]);
    }
  }

  /** A group with a price keeps it, and its participants only become fewer. */
  lemma {:induction false} LaterGroup(c: Config, s: State, s': State, g: Gid)
    requires Later(c, s, s') && g in c.groups
    ensures g in s.groups && g in s'.groups && Shaped(c, s) && Shaped(c, s') && s.now <= s'.now
    ensures s.groups[g].price.Some? ==>
      && s'.groups[g].price == s.groups[g].price
      && Holders(c, s'.bal, g) <= Holders(c, s.bal, g) && |Holders(c, s'.bal, g)| <= |Holders(c, s.bal, g)|
    ensures s.groups[g].ratio.Some? ==> s'.groups[g].ratio == s.groups[g].ratio
  {
    hide Holders;
    SameGids(c, s, s');
    assert GroupOnward(s.groups[g], s'.groups[g]) && FewerHold(c, s, s', g);
    if s.groups[g].price.Some? {
      PartSize(Holders(c, s'.bal, g), Holders(c, s.bal, g));
    }
  }

  lemma {:induction false} HoldersOwn(c: Config, s: State, g: Gid, pending: seq<Aid>)
    requires Core(c, s) && AsSet(pending) <= Holders(c, s.bal, g)
    ensures forall a :: a in pending ==> a in c.owner
  {
    forall a | a in pending ensures a in c.owner {
      assert a in AsSet(pending);
    }
  }

  /** An account that somebody settles is out of the group. */
  lemma {:induction false} SettledIsOut(c: Config, s: State, v: State, w: State, a: Aid, g: Gid, ok: bool)
    requires Later(c, s, v) && Core(c, v) && a in c.owner && g in c.groups && g in v.groups && v.groups[g].price.Some?
    requires Did(Settle(c, v, a, g), ok, v, w)
    ensures Later(c, s, w) && g in w.groups && w.groups[g].price.Some?
    ensures a !in Holders(c, w.bal, g) && Holders(c, w.bal, g) <= Holders(c, v.bal, g)
  {
    hide Core, Settle, Holders, Later, Shaped;
    CoreShaped(c, v);
    SettleIs(c, v, a, g);
    StepOnward(c, v, Runs.SettleAccount(a, g));
    LaterStill(c, s, v, w);
    LaterGroup(c, v, w, g);
  }

  lemma {:induction false} SettleIs(c: Config, v: State, a: Aid, g: Gid)
    requires Shaped(c, v) && a in c.owner && g in c.groups && v.groups[g].price.Some?
    ensures Runs.Legal(c, v, Runs.SettleAccount(a, g))
    ensures var r := Settle(c, v, a, g);
      && Runs.After(c, v, Runs.SettleAccount(a, g)) == (if r.Done? then r.next else v)
      && a !in Holders(c, (if r.Done? then r.next else v).bal, g)
  {
    hide Settled, DebtPaid, Units;
  }

  lemma {:induction false} FewerLeft(c: Config, s: State, s': State, g: Gid, pending: seq<Aid>)
    requires Later(c, s, s') && g in s.groups && s.groups[g].price.Some?
    requires pending != [] && AsSet(pending) <= Holders(c, s.bal, g)
    requires forall a :: a in pending ==> a !in Holders(c, s'.bal, g)
    ensures |Holders(c, s'.bal, g)| < |Holders(c, s.bal, g)|
  {
    hide Holders;
    assert FewerHold(c, s, s', g);
    var fewer, all := Holders(c, s'.bal, g), Holders(c, s.bal, g);
    var a := pending[0];
    assert a in pending && a in AsSet(pending);
    assert a in all && a !in fewer;
    PartSize(fewer, all);
  }

  /** A directory that knew everybody can only miss the participants when nobody is left. */
  lemma {:induction false} NobodyKnown(c: Config, s: State, v: State, g: Gid, known: seq<Aid>)
    requires Later(c, s, v) && g in s.groups && s.groups[g].price.Some? && KnownHolders(c, v, g, known) == {}
    ensures KnowsAll(c, s, g, known) ==> Holders(c, v.bal, g) == {}
  {
    hide Holders;
    assert FewerHold(c, s, v, g);
    if KnowsAll(c, s, g, known) {
      forall a | a in Holders(c, v.bal, g) ensures a in KnownHolders(c, v, g, known) {
        assert a in KnownHolders(c, s, g, known);
      }
    }
  }

  lemma {:induction false} FinalizeOnward(c: Config, v: State, w: State, g: Gid, price: int, ok: bool)
    requires Core(c, v) && g in c.groups && c.groups[g].expiry <= v.now && Did(Finalize(c, v, g, price), ok, v, w)
    ensures Later(c, v, w) && g in w.groups && w.groups[g].price.Some?
    ensures ok ==> w.groups[g].ratio.None?
  {
    hide Later, Holders, GroupsCore, Balanced, WholeLots, Snapshot, BooksAgree;
    StepOnward(c, v, Runs.FinalizeGroup(g, price));
    CoreIsLater(c, v);
    CoreGroup(c, v, g);
  }

  lemma {:induction false} RatioOnward(c: Config, v: State, w: State, g: Gid, ok: bool)
    requires Core(c, v) && g in c.groups && g in v.groups && v.groups[g].price.Some? && Holders(c, v.bal, g) == {}
    requires Did(ComputeRatio(c, v, g), ok, v, w)
    ensures Later(c, v, w) && g in w.groups && w.groups[g].ratio.Some?
    ensures v.groups[g].ratio.None? ==> ok
  {
    hide Later, Holders, GroupsCore, Balanced, WholeLots, GrossClaim, RatioOf, InsuranceDraw, RatioChecked;
    StepOnward(c, v, Runs.FixRatio(g));
    CoreIsLater(c, v);
  }

  /** INV-28 as the ledger's core: a ratio means that nobody is left. */
  lemma {:induction false} RatioMeansNobody(c: Config, s: State)
    requires Core(c, s)
    ensures forall g :: g in s.groups && s.groups[g].ratio.Some? ==> Holders(c, s.bal, g) == {}
  {
    hide Core, Holders;
    CoreShaped(c, s);
    forall g | g in s.groups && s.groups[g].ratio.Some? ensures Holders(c, s.bal, g) == {} {
      CoreIsLater(c, s);
      PricedIsExpired(c, s, g);
    }
  }

  /** A group that has not been settled yet. */
  lemma {:induction false} AsItIs(c: Config, s: State, g: Gid, batch: nat)
    requires Core(c, s) && g in c.groups && g in s.groups && s.groups[g].price.Some? && 0 < batch
    ensures Shaped(c, s) && Later(c, s, s) && Settling(c, s, s, g, {}) && CeilDiv(0, batch) == 0
  {
    CoreIsLater(c, s);
    NobodySettled(c, s, g);
    BatchCount(0, batch, 0);
  }

  /** Accounts settled, and perhaps the ratio fixed after them: other groups are as they were. */
  lemma {:induction false} SettledThenFixed(c: Config, s: State, v: State, w: State, g: Gid, paid: set<Aid>)
    requires Settling(c, s, v, g, paid) && g in c.groups && s.groups[g].ratio.None? && Core(c, v)
    requires w == v || ComputeRatio(c, v, g) == Done(w)
    ensures KeepsOthers(c, s, w, g) && g in v.groups && v.groups[g].ratio.None?
    ensures Shaped(c, s) && Shaped(c, v)
    ensures ComputeRatio(c, v, g) == Done(w) && paid == Holders(c, s.bal, g) ==> SettledAndFixed(c, s, g, w)
  {
    hide SettledState, ComputeRatio, Holders, KeepsOthers, Core, Shaped;
    CoreShaped(c, v);
    SettledKeepsOthers(c, s, g, paid);
    KeepsItself(c, v, g);
    if ComputeRatio(c, v, g) == Done(w) {
      RatioKeepsOthers(c, v, g);
    }
    KeepsOthersOnward(c, s, v, w, g);
  }

  lemma {:induction false} RatioKeepsOthers(c: Config, s: State, g: Gid)
    requires Shaped(c, s) && g in c.groups
    ensures var r := ComputeRatio(c, s, g); r.Done? ==> KeepsOthers(c, s, r.next, g)
  {
    hide GrossClaim, RatioOf, InsuranceDraw, Holders, RatioChecked;
  }

  // ---------------------------------------------------------------------------------------------------------
  // One group after another
  // ---------------------------------------------------------------------------------------------------------

  /**
   * A pass over a group that started in `s0` and is now at `s`. Once it has a price, it is on the done list if there is
   * no error, and its ratio is fixed if all transactions were accepted; it then has a price if it could be finalized.
   */
  ghost predicate SettlesGroup(c: Config, s0: State, s: State, g: Gid, look: Outlook, now: int, r: GroupReport,
      done: set<Gid>, accepted: bool)
  {
    && g in c.groups && g in s0.groups && g in s.groups
    && (c.groups[g].expiry <= now && (s0.groups[g].price.Some? || r.finalized) ==>
          (r.errors == [] ==> g in done) && (accepted ==> s.groups[g].ratio.Some?))
    && (accepted && c.groups[g].expiry <= now && look.price.Some? && look.earliest <= now ==> s.groups[g].price.Some?)
  }

  ghost predicate Settles(c: Config, s0: State, s: State, passed: seq<Gid>, look: Gid -> Outlook, now: int,
      reports: seq<GroupReport>, done: set<Gid>, accepted: bool)
  {
    && |reports| == |passed|
    && forall i :: 0 <= i < |passed| ==>
         SettlesGroup(c, s0, s, passed[i], look(passed[i]), now, reports[i], done, accepted)
  }

  /** What was reported about a group stays true, and may be told from an earlier moment. */
  lemma {:induction false} SettlesOnward(c: Config, s0: State, s1: State, s: State, s': State, g: Gid, look: Outlook,
      now: int, r: GroupReport, done: set<Gid>, done': set<Gid>, accepted: bool, accepted': bool)
    requires SettlesGroup(c, s1, s, g, look, now, r, done, accepted) && done <= done' && (accepted' ==> accepted)
    requires Later(c, s0, s1) && Later(c, s, s')
    ensures SettlesGroup(c, s0, s', g, look, now, r, done', accepted')
  {
    hide Later, Holders, Shaped;
    LaterGroup(c, s0, s1, g);
    LaterGroup(c, s, s', g);
  }

  lemma {:induction false} OneMoreSettles(c: Config, s0: State, s: State, s': State, passed: seq<Gid>, g: Gid,
      look: Gid -> Outlook, now: int, reports: seq<GroupReport>, r: GroupReport, done: set<Gid>, done': set<Gid>,
      before: bool, since: bool, accepted: bool)
    requires Settles(c, s0, s, passed, look, now, reports, done, before) && done <= done'
    requires SettlesGroup(c, s, s', g, look(g), now, r, done', since) && (accepted ==> before && since)
    requires Later(c, s0, s) && Later(c, s, s')
    ensures Settles(c, s0, s', passed + [g], look, now, reports + [r], done', accepted)
    ensures Later(c, s0, s') && s.now <= s'.now
  {
    hide SettlesGroup, Shaped, Holders;
    LaterStill(c, s0, s, s');
    LaterSelf(c, s0);
    LaterSelf(c, s');
    var all := passed + [g];
    forall i | 0 <= i < |all|
      ensures SettlesGroup(c, s0, s', all[i], look(all[i]), now, (reports + [r])[i], done', accepted)
    {
      if i < |passed| {
        SettlesOnward(c, s0, s0, s, s', all[i], look(all[i]), now, reports[i], done, done', before, accepted);
      } else {
        SettlesOnward(c, s0, s, s', s', g, look(g), now, r, done', done', since, accepted);
      }
    }
  }
}
