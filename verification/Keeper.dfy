/**
 * The settlement keeper (keepers/src/settlementKeeper.ts) over the clearing object: finalize what can be priced, settle
 * every known participant in batches, fix the ratio when nobody is left.
 *
 * What the keeper cannot control is a parameter: which transactions go through (`accepts`, by number), what everybody
 * else does to the ledger between any two of its steps (`others`, by turn), what the oracle can prove and when a group
 * may be finalized. Whom to settle it learns from a directory that replays the ledger's events.
 */
module Keeper {
  import opened Basics
  import opened Sums
  import opened Tables
  import opened Clearing
  import opened Invariant
  import opened Counters
  import opened Batch
  import opened ProtocolObject
  import opened Directory
  import opened Onward
  import opened Health
  import opened Passes
  import Runs

  class SettlementKeeper {
    const p: Protocol
    const directory: LedgerLogDirectory
    /** The series of each group, as the catalog lists them. */
    const catalog: Gid -> seq<Sid>
    const batch: nat
    const accepts: nat -> bool
    const others: nat -> seq<Runs.Action>
    var sent: nat
    /** How many turns the others have had. */
    var turns: nat
    /** Groups known to be redeemable, skipped on later passes. */
    var done: set<Gid>
    /** The chain as the node shows it. */
    var blocks: Blocks

    /** The directory follows the chain, which holds the ledger's events up to some moment. */
    ghost predicate Following()
      reads this`blocks, p`events, directory
    {
      && Catalogued(p.c, catalog)
      && directory.Synced(blocks) && directory.start <= |blocks| && LogsIn(blocks, 0, directory.start) == []
      && LogsIn(blocks, 0, |blocks|) <= p.events
    }

    ghost predicate Valid()
      reads this, p, directory
    {
      && p.Valid() && 0 < batch && Following()
      && RatioFixed(p.View(), done)
    }

    ghost predicate AllAccepted(lo: nat, hi: nat) {
      forall n :: lo <= n < hi ==> accepts(n)
    }

    /** Nobody else did anything. */
    ghost predicate Quiet(lo: nat, hi: nat) {
      forall n :: lo <= n < hi ==> others(n) == []
    }

    /** A keeper starts with a directory that has seen nothing, from a block before which the ledger logged nothing. */
    constructor (p: Protocol, directory: LedgerLogDirectory, catalog: Gid -> seq<Sid>, blocks: Blocks, batch: nat,
        accepts: nat -> bool, others: nat -> seq<Runs.Action>)
      requires p.Valid() && 0 < batch && Catalogued(p.c, catalog)
      requires directory.Synced(blocks) && directory.start <= |blocks| && LogsIn(blocks, 0, directory.start) == []
      requires LogsIn(blocks, 0, |blocks|) <= p.events
      ensures Valid() && this.p == p && this.directory == directory && this.catalog == catalog && this.batch == batch
      ensures this.accepts == accepts && this.others == others && sent == 0 && turns == 0 && done == {}
      ensures this.blocks == blocks
    {
      this.p, this.directory, this.catalog, this.blocks := p, directory, catalog, blocks;
      this.batch, this.accepts, this.others, sent, turns, done := batch, accepts, others, 0, 0, {};
    }

    /** The others have a turn: any calls, as far as they are legal, each of which goes through or not. */
    method Meanwhile()
      requires p.Valid()
      modifies p, this`turns
      ensures p.Valid() && old(p.events) <= p.events && turns == old(turns) + 1
      ensures Later(p.c, old(p.View()), p.View())
      ensures others(old(turns)) == [] ==> p.View() == old(p.View())
    {
      hide Inv, Core, Shaped, Later, LedgerOk, SupplyOk, Custody, Emitted, Priced, Runs.After, Runs.Legal;
      CoreIsLater(p.c, p.View());
      var turn := others(turns);
      for i := 0 to |turn|
        invariant p.Valid() && old(p.events) <= p.events && turns == old(turns)
        invariant Later(p.c, old(p.View()), p.View()) && (turn == [] ==> p.View() == old(p.View()))
      {
        if Runs.Legal(p.c, p.View(), turn[i]) {
          ghost var s := p.View();
          StepOnward(p.c, s, turn[i]);
          p.Do(turn[i]);
          LaterStill(p.c, old(p.View()), s, p.View());
        }
      }
      turns := turns + 1;
    }

    /** Every transaction sent was waited for, so that the node shows a block with what was logged. */
    method Mine()
      requires Following()
      modifies this`blocks
      ensures Following() && LogsIn(blocks, 0, |blocks|) == p.events
    {
      hide LogsIn, Replay;
      var logged := LogsIn(blocks, 0, |blocks|);
      var more := blocks + [p.events[|logged|..]];
      LogsInPrefix(blocks, more, 0, directory.start);
      LogsInPrefix(blocks, more, 0, |blocks|);
      LastBlock(more);
      directory.SyncedExtends(blocks, more);
      blocks := more;
    }

    /** The group's participants, from a directory that has caught up: exactly those the ledger has. */
    method Participants(g: Gid) returns (known: seq<Aid>)
      requires p.Counted() && Following() && g in p.c.groups
      modifies this`blocks, directory
      ensures Following() && Distinct(known)
      ensures KnowsAll(p.c, p.View(), g, known)
    {
      hide LedgerOk, SupplyOk, Custody, LogsIn, Replay, Emitted, Holders;
      Mine();
      directory.Sync(blocks);
      directory.CaughtUp(blocks);
      known := directory.Holders(catalog(g));
      assert forall sid :: sid in catalog(g) <==> sid in SeriesOf(p.c, g);
      DirectoryKnowsHolders(p.c, p.bal, p.events, g, catalog(g), known);
      OrderedIsDistinct(known);
      assert forall a :: a in known <==> a in Holders(p.c, p.View().bal, g);
    }

    method StateOf(g: Gid, stalled: bool) returns (st: GroupState)
      requires p.Valid() && g in p.c.groups && g in p.groups
      ensures st == StateAt(p.c, p.View(), g, stalled)
    {
      hide Inv, Core, LedgerOk, SupplyOk, Custody, Holders, Emitted, Priced;
      ParticipantsZero(p.c, p.Book(), g);
      var x := p.groups[g];
      if x.price.None? {
        st := if p.now < p.c.groups[g].expiry then Active else if stalled then OracleStalled else Expired;
      } else if x.ratio.Some? {
        st := Redeemable;
      } else {
        st := if Get(p.participants, g) == 0 then AllSettled else Finalized;
      }
    }

    /** The next accounts to settle: listed by the directory, confirmed against the ledger. */
    method PickPending(g: Gid, known: seq<Aid>) returns (pending: seq<Aid>)
      requires p.Valid() && 0 < batch && Distinct(known)
      ensures Distinct(pending) && AsSet(pending) <= KnownHolders(p.c, p.View(), g, known) && |pending| <= batch
      ensures |pending| < batch ==> AsSet(pending) == KnownHolders(p.c, p.View(), g, known)
    {
      hide Inv, Core, LedgerOk, SupplyOk, Custody, HoldsIn, Emitted, Priced;
      pending := [];
      for i := 0 to |known|
        invariant Distinct(pending) && |pending| < batch
        invariant forall a :: a in pending <==> a in KnownHolders(p.c, p.View(), g, known[..i])
      {
        var a := known[i];
        assert known[..i + 1] == known[..i] + [a];
        if a in p.bal {
          CountIsHolding(p.c, p.Book(), a, g);
          if Get(p.seriesCount, (a, g)) != 0 {
            assert a !in known[..i];
            DistinctAppend(pending, a);
            pending := pending + [a];
          }
        }
        if |pending| == batch {
          return;
        }
      }
      assert known[..|known|] == known;
      assert forall a :: a in pending <==> a in KnownHolders(p.c, p.View(), g, known);
      SameSet(pending, KnownHolders(p.c, p.View(), g, known));
    }

    /**
     * The accounts of one batch, those that still hold something. `exact` says that `paid` have settled since `s`, and
     * nothing else happened.
     */
    method SettleAll(g: Gid, pending: seq<Aid>, ghost exact: bool, ghost s: State, ghost paid: set<Aid>)
      requires p.Valid() && g in p.c.groups && g in p.groups && p.groups[g].price.Some?
      requires forall a :: a in pending ==> a in p.c.owner
      requires exact ==> Settling(p.c, s, p.View(), g, paid)
      requires exact ==> Distinct(pending) && AsSet(pending) <= Holders(p.c, s.bal, g) - paid
      modifies p
      ensures p.Valid() && old(p.events) <= p.events && Later(p.c, old(p.View()), p.View())
      ensures forall a :: a in pending ==> a !in Holders(p.c, p.View().bal, g)
      ensures exact ==> Settling(p.c, s, p.View(), g, paid + AsSet(pending))
    {
      hide Inv, Core, LedgerOk, SupplyOk, Custody, HoldsIn, Shaped, Settle, Emitted, Priced, Holders, Later, Distinct;
      hide Settling, Kept, Did;
      CoreIsLater(p.c, p.View());
      assert paid + AsSet(pending[..0]) == paid;
      for i := 0 to |pending|
        invariant p.Valid() && old(p.events) <= p.events && Later(p.c, old(p.View()), p.View())
        invariant g in p.groups && p.groups[g].price.Some?
        invariant forall j :: 0 <= j < i ==> pending[j] !in Holders(p.c, p.View().bal, g)
        invariant exact ==> Settling(p.c, s, p.View(), g, paid + AsSet(pending[..i]))
      {
        var a := pending[i];
        ghost var v := p.View();
        CoreShaped(p.c, v);
        assert pending[..i + 1] == pending[..i] + [a];
        var settled := p.Settle(a, g);
        SettledIsOut(p.c, old(p.View()), v, p.View(), a, g, settled);
        if exact {
          SettlingOneMore(p.c, s, v, p.View(), g, paid, pending, i, settled);
        }
      }
      assert pending[..|pending|] == pending;
    }

    /** One batch: afterwards no pending account holds anything, or the transaction did not go through. */
    method SettleBatch(g: Gid, pending: seq<Aid>, ghost exact: bool, ghost s: State, ghost paid: set<Aid>)
      returns (ok: bool)
      requires p.Valid() && g in p.c.groups && g in p.groups && p.groups[g].price.Some?
      requires AsSet(pending) <= Holders(p.c, p.View().bal, g)
      requires exact ==> Settling(p.c, s, p.View(), g, paid)
      requires exact ==> Distinct(pending) && AsSet(pending) <= Holders(p.c, s.bal, g) - paid
      modifies p, this`sent, this`turns
      ensures p.Valid() && old(p.events) <= p.events && Later(p.c, old(p.View()), p.View())
      ensures sent == old(sent) + 1 && ok == accepts(old(sent)) && turns == old(turns) + 1
      ensures ok ==> forall a :: a in pending ==> a !in Holders(p.c, p.View().bal, g)
      ensures exact && others(old(turns)) == [] ==>
        if ok then Settling(p.c, s, p.View(), g, paid + AsSet(pending)) else p.View() == old(p.View())
    {
      hide Inv, Core, LedgerOk, SupplyOk, Custody, Shaped, Emitted, Priced, Holders, Later, Distinct, Settling;
      ghost var v := p.View();
      HoldersOwn(p.c, v, g, pending);
      Meanwhile();
      LaterGroup(p.c, v, p.View(), g);
      ok := accepts(sent);
      sent := sent + 1;
      if ok {
        ghost var w := p.View();
        SettleAll(g, pending, exact && others(old(turns)) == [], s, paid);
        LaterStill(p.c, v, w, p.View());
      }
    }

    /** How many participants are left. */
    method ReadLeft(g: Gid) returns (left: int)
      requires p.Valid() && g in p.c.groups && g in p.groups && p.groups[g].price.Some?
      modifies p, this`turns
      ensures p.Valid() && old(p.events) <= p.events && turns == old(turns) + 1
      ensures Later(p.c, old(p.View()), p.View()) && g in p.groups && p.groups[g].price.Some?
      ensures left == |Holders(p.c, p.View().bal, g)| <= |Holders(p.c, old(p.View()).bal, g)|
      ensures others(old(turns)) == [] ==> p.View() == old(p.View())
    {
      hide Inv, Core, LedgerOk, SupplyOk, Custody, Shaped, Holders, Emitted, Priced, Later;
      ghost var s := p.View();
      Meanwhile();
      LaterGroup(p.c, s, p.View(), g);
      ParticipantsAre(p.c, p.Book(), g);
      left := Get(p.participants, g);
    }

    /**
     * One round: the next batch of listed participants, if there is any. `s` is the state when the list was made, and
     * `exact` says that the counts so far tell all that happened since.
     */
    method SettleNext(g: Gid, known: seq<Aid>, ghost exact: bool, ghost s: State, ghost paid: set<Aid>,
        ghost accounts: nat, ghost batches: nat) returns (pending: seq<Aid>, ok: bool)
      requires p.Valid() && 0 < batch && Distinct(known) && g in p.c.groups
      requires g in p.groups && p.groups[g].price.Some? && Later(p.c, s, p.View())
      requires g in s.groups && s.groups[g].price.Some?
      requires exact ==>
        Tallied(p.c, s, p.View(), g, KnownHolders(p.c, s, g, known), paid, accounts, batches, batch)
      modifies p, this`sent, this`turns
      ensures p.Valid() && old(p.events) <= p.events && old(sent) <= sent <= old(sent) + 1 && old(turns) < turns
      ensures Later(p.c, s, p.View()) && g in p.groups && p.groups[g].price.Some?
      ensures pending == [] ==>
        sent == old(sent) && !ok && (KnowsAll(p.c, s, g, known) ==> Holders(p.c, p.View().bal, g) == {})
      ensures pending != [] ==> sent == old(sent) + 1 && ok == accepts(old(sent))
      ensures ok ==> |Holders(p.c, p.View().bal, g)| < |Holders(p.c, old(p.View()).bal, g)|
      ensures exact && !ok && Quiet(old(turns), turns) ==> p.View() == old(p.View())
      ensures pending == [] ==> KnownHolders(p.c, p.View(), g, known) == {}
      ensures exact && ok && Quiet(old(turns), turns) ==>
        Tallied(p.c, s, p.View(), g, KnownHolders(p.c, s, g, known), paid + AsSet(pending), accounts + |pending|,
          batches + 1, batch)
    {
      hide Inv, Core, LedgerOk, SupplyOk, Custody, Shaped, Holders, KnownHolders, Emitted, Priced, Later, Settling;
      hide Distinct, Tallied, KnowsAll;
      ok := false;
      ghost var head := p.View();
      Meanwhile();
      ghost var v := p.View();
      LaterStill(p.c, s, head, v);
      LaterGroup(p.c, head, v, g);
      pending := PickPending(g, known);
      KnownAreHolders(p.c, v, g, known);
      if |pending| == 0 {
        NobodyKnown(p.c, s, v, g, known);
        return;
      }
      ghost var still := exact && others(old(turns)) == [];
      if still {
        TalliedBatch(p.c, s, v, g, known, pending, paid, accounts, batches, batch);
      }
      ok := SettleBatch(g, pending, still, s, paid);
      LaterStill(p.c, s, v, p.View());
      LaterGroup(p.c, v, p.View(), g);
      if ok {
        FewerLeft(p.c, v, p.View(), g, pending);
      }
    }

    /**
     * Settles the listed participants in batches, while others may do what they like. Without an error nobody is left;
     * nor if every transaction goes through and the list is complete. If the others do nothing, the participants
     * settled are counted, in as few batches as the batch size allows, and there is an error exactly when one is left.
     */
    method SettleParticipants(g: Gid, known: seq<Aid>)
      returns (accounts: nat, batches: nat, errors: seq<KeeperError>, ghost paid: set<Aid>)
      requires p.Valid() && 0 < batch && Distinct(known) && g in p.c.groups
      requires g in p.groups && p.groups[g].price.Some?
      modifies p, this`sent, this`turns
      ensures p.Valid() && old(p.events) <= p.events && old(sent) <= sent && old(turns) <= turns
      ensures Later(p.c, old(p.View()), p.View()) && g in p.groups
      ensures errors == [] ==> Holders(p.c, p.View().bal, g) == {}
      ensures errors == [] || errors == [SettleFailed(g)]
        || exists left :: 0 < left && errors == [UnknownParticipants(g, left)]
      ensures sent - old(sent) == batches + (if errors == [SettleFailed(g)] then 1 else 0)
      ensures AllAccepted(old(sent), sent) <==> errors != [SettleFailed(g)]
      ensures AllAccepted(old(sent), sent) && KnowsAll(p.c, old(p.View()), g, known) ==>
        Holders(p.c, p.View().bal, g) == {}
      ensures Quiet(old(turns), turns) ==>
        && Settling(p.c, old(p.View()), p.View(), g, paid) && paid <= KnownHolders(p.c, old(p.View()), g, known)
        && accounts == |paid| && batches == CeilDiv(accounts, batch)
        && (errors == [] <==> Holders(p.c, p.View().bal, g) == {})
        && (AllAccepted(old(sent), sent) ==> paid == KnownHolders(p.c, old(p.View()), g, known))
    {
      hide Inv, Core, LedgerOk, SupplyOk, Custody, Shaped, Holders, KnownHolders, Emitted, Priced, Later, Settling;
      hide Distinct, Tallied, KnowsAll, CeilDiv;
      ghost var s := p.View();
      CoreIsLater(p.c, s);
      ghost var todo := KnownHolders(p.c, s, g, known);
      paid := {};
      accounts, batches, errors := 0, 0, [];
      NothingTallied(p.c, s, g, todo, batch);
      var before := -1;
      while true
        invariant p.Valid() && old(p.events) <= p.events && old(sent) <= sent && old(turns) <= turns
        invariant Later(p.c, s, p.View()) && g in p.groups && p.groups[g].price.Some?
        invariant before == -1 || |Holders(p.c, p.View().bal, g)| < before
        invariant errors == [] && AllAccepted(old(sent), sent) && sent - old(sent) == batches
        invariant Quiet(old(turns), turns) ==> Tallied(p.c, s, p.View(), g, todo, paid, accounts, batches, batch)
        decreases |Holders(p.c, p.View().bal, g)|
      {
        ghost var head := p.View();
        var left := ReadLeft(g);
        LaterStill(p.c, s, head, p.View());
        if left == 0 {
          break;
        }
        if left == before {
          assert false;  // a batch never settles nobody
        }
        before := left;
        var pending, ok := SettleNext(g, known, Quiet(old(turns), turns), s, paid, accounts, batches);
        if |pending| == 0 {
          errors := [UnknownParticipants(g, left)];
          break;
        }
        if !ok {
          errors := [SettleFailed(g)];
          break;
        }
        accounts := accounts + |pending|;
        batches := batches + 1;
        paid := paid + AsSet(pending);
      }
      KnownAreHolders(p.c, p.View(), g, known);
      if Quiet(old(turns), turns) {
        TalliedEnd(p.c, s, p.View(), g, known, paid, accounts, batches, batch);
      }
    }

    /**
     * Finalization, when the oracle can prove a price and it is time. A transaction that goes through and is turned
     * down finds the group with a price: somebody was first.
     */
    method TryFinalize(g: Gid, look: Outlook, now: int)
      returns (flagged: bool, finalized: bool, errors: seq<KeeperError>)
      requires p.Valid() && g in p.c.groups && g in p.groups && p.groups[g].price.None?
      requires p.c.groups[g].expiry <= now <= p.now
      modifies p, this`sent, this`turns
      ensures p.Valid() && (old(Following()) ==> Following()) && old(sent) <= sent && old(turns) <= turns
      ensures Shaped(p.c, old(p.View())) && Later(p.c, old(p.View()), p.View()) && g in p.groups
      ensures finalized ==> p.groups[g].price.Some? && p.groups[g].ratio.None? && errors == []
      ensures AllAccepted(old(sent), sent) && look.price.Some? && look.earliest <= now ==> p.groups[g].price.Some?
      ensures flagged == (look.stalled && !look.flagged && accepts(old(sent)))
      ensures sent - old(sent) ==
        (if look.stalled && !look.flagged then 1 else 0) + (if look.price.Some? && look.earliest <= now then 1 else 0)
      ensures errors ==
        if now < look.earliest || finalized then []
        else if look.price.None? then [NoPrice(g)] else [FinalizeFailed(g)]
      ensures Quiet(old(turns), turns) ==>
        if finalized then
          look.price.Some? && Finalize(p.c, old(p.View()), g, look.price.value) == Done(p.View())
        else p.View() == old(p.View())
      ensures Quiet(old(turns), turns) && AllAccepted(old(sent), sent) ==>
        (finalized <==> look.price.Some? && look.earliest <= now)
    {
      hide Inv, Core, LedgerOk, SupplyOk, Custody, Finalize, Emitted, Priced, Later, Shaped, Holders, Kept, Catalogued;
      hide LogsIn;
      flagged, finalized, errors := false, false, [];
      ghost var s := p.View();
      CoreIsLater(p.c, s);
      if look.stalled && !look.flagged {
        flagged := accepts(sent);
        sent := sent + 1;
      }
      if now < look.earliest {
        return;
      }
      if look.price.None? {
        errors := [NoPrice(g)];
        return;
      }
      Meanwhile();
      LaterGroup(p.c, s, p.View(), g);
      var ok := accepts(sent);
      sent := sent + 1;
      if ok {
        ghost var v := p.View();
        finalized := p.Finalize(g, look.price.value);
        FinalizeOnward(p.c, v, p.View(), g, look.price.value, finalized);
        LaterStill(p.c, s, v, p.View());
      }
      if !finalized {
        errors := [FinalizeFailed(g)];
      }
    }

    /** The ratio, when nobody is left: if the transaction goes through, it is fixed by it or was fixed before. */
    method TryRatio(g: Gid) returns (fixed: bool, errors: seq<KeeperError>)
      requires p.Valid() && g in p.c.groups && g in p.groups && p.groups[g].price.Some?
      requires Holders(p.c, p.View().bal, g) == {}
      modifies p, this`sent, this`turns
      ensures p.Valid() && (old(Following()) ==> Following()) && sent == old(sent) + 1 && turns == old(turns) + 1
      ensures Shaped(p.c, old(p.View())) && Later(p.c, old(p.View()), p.View()) && g in p.groups
      ensures fixed ==> p.groups[g].ratio.Some?
      ensures accepts(old(sent)) ==> p.groups[g].ratio.Some?
      ensures errors == if fixed then [] else [RatioFailed(g)]
      ensures Quiet(old(turns), turns) && old(p.groups)[g].ratio.None? ==>
        && fixed == accepts(old(sent))
        && if fixed then ComputeRatio(p.c, old(p.View()), g) == Done(p.View()) else p.View() == old(p.View())
    {
      hide Inv, Core, LedgerOk, SupplyOk, Custody, ComputeRatio, Emitted, Priced, Later, Shaped, Holders, Shared, Kept;
      hide Catalogued, LogsIn;
      ghost var s := p.View();
      CoreIsLater(p.c, s);
      Meanwhile();
      LaterGroup(p.c, s, p.View(), g);
      fixed, errors := accepts(sent), [];
      sent := sent + 1;
      if fixed {
        ghost var v := p.View();
        fixed := p.ComputeRatio(g);
        RatioOnward(p.c, v, p.View(), g, fixed);
        LaterStill(p.c, s, v, p.View());
      }
      if !fixed {
        errors := [RatioFailed(g)];
      }
    }

    /** All participants, from a directory that has caught up with the ledger. */
    method SettleHolders(g: Gid) returns (accounts: nat, batches: nat, errors: seq<KeeperError>, ghost paid: set<Aid>)
      requires p.Valid() && 0 < batch && Following() && g in p.c.groups && g in p.groups && p.groups[g].price.Some?
      modifies p, directory, this`sent, this`turns, this`blocks
      ensures p.Valid() && Following() && old(sent) <= sent && old(turns) <= turns
      ensures Later(p.c, old(p.View()), p.View()) && g in p.groups && p.groups[g].price.Some?
      ensures errors == [] || AllAccepted(old(sent), sent) ==> Holders(p.c, p.View().bal, g) == {}
      ensures Quiet(old(turns), turns) ==>
        && Settling(p.c, old(p.View()), p.View(), g, paid)
        && accounts == |paid| && batches == CeilDiv(accounts, batch)
        && (errors == [] <==> Holders(p.c, p.View().bal, g) == {})
        && (AllAccepted(old(sent), sent) ==> paid == Holders(p.c, old(p.View()).bal, g))
    {
      hide Inv, Core, LedgerOk, SupplyOk, Custody, Holders, KnownHolders, Shaped, Emitted, Priced, Replay, LogsIn;
      hide Later;
      hide Catalogued, Settling, CeilDiv;
      ghost var s := p.View();
      Meanwhile();
      LaterGroup(p.c, s, p.View(), g);
      ghost var v := p.View();
      var known := Participants(g);
      accounts, batches, errors, paid := SettleParticipants(g, known);
      LaterStill(p.c, s, v, p.View());
      LaterGroup(p.c, v, p.View(), g);
    }

    /**
     * Settlement of a group with a price: participants first, the ratio only when nobody is left. Without an error the
     * group ends redeemable; if all transactions go through, its ratio is fixed in any case.
     */
    method SettleGroup(g: Gid, stalled: bool, at: GroupState)
      returns (accounts: nat, batches: nat, fixed: bool, state: GroupState, errors: seq<KeeperError>)
      requires p.Valid() && 0 < batch && Following() && g in p.c.groups && g in p.groups
      requires p.groups[g].price.Some? && p.groups[g].ratio.None?
      requires at == Finalized || (at == AllSettled && Holders(p.c, p.View().bal, g) == {})
      modifies p, directory, this`sent, this`turns, this`blocks
      ensures p.Valid() && Following() && old(sent) <= sent && old(turns) <= turns
      ensures Shaped(p.c, old(p.View())) && Later(p.c, old(p.View()), p.View()) && g in p.groups
      ensures fixed ==> state == Redeemable
      ensures state == Redeemable ==> p.groups[g].ratio.Some?
      ensures errors == [] ==> state == Redeemable
      ensures AllAccepted(old(sent), sent) ==> p.groups[g].ratio.Some?
      ensures Quiet(old(turns), turns) ==>
        KeepsOthers(p.c, old(p.View()), p.View(), g) && (p.groups[g].ratio.Some? ==> fixed)
      ensures Quiet(old(turns), turns) && AllAccepted(old(sent), sent) ==>
        && fixed && errors == [] && accounts == |Holders(p.c, old(p.View()).bal, g)|
        && batches == CeilDiv(accounts, batch) && SettledAndFixed(p.c, old(p.View()), g, p.View())
    {
      hide Inv, Core, LedgerOk, SupplyOk, Custody, Emitted, Priced, ComputeRatio, Holders, SettledState, Shaped, Later;
      hide Following, KeepsOthers, Settling, SettledAndFixed, CeilDiv;
      ghost var s := p.View();
      AsItIs(p.c, s, g, batch);
      ghost var paid: set<Aid> := {};
      accounts, batches, errors, state := 0, 0, [], at;
      if state == Finalized {
        accounts, batches, errors, paid := SettleHolders(g);
        ghost var u := p.View();
        state := ReadState(g, stalled);
        LaterStill(p.c, s, u, p.View());
        LaterGroup(p.c, u, p.View(), g);
      }
      ghost var v := p.View();
      fixed := false;
      if state == AllSettled {
        var more;
        fixed, more := TryRatio(g);
        LaterStill(p.c, s, v, p.View());
        errors := errors + more;
        if fixed {
          state := Redeemable;
        }
      }
      if Quiet(old(turns), turns) {
        SettledThenFixed(p.c, s, v, p.View(), g, paid);
      }
    }

    /** The state of a group, which the others may have changed since the keeper last looked. */
    method ReadState(g: Gid, stalled: bool) returns (state: GroupState)
      requires p.Valid() && Following() && g in p.c.groups
      modifies p, this`turns
      ensures p.Valid() && Following() && turns == old(turns) + 1 && g in p.groups
      ensures Shaped(p.c, old(p.View())) && Later(p.c, old(p.View()), p.View())
      ensures state == StateAt(p.c, p.View(), g, stalled)
      ensures others(old(turns)) == [] ==> p.View() == old(p.View())
    {
      hide Inv, Core, LedgerOk, SupplyOk, Custody, Emitted, Priced, Holders, Shaped, Later, Catalogued, LogsIn, StateAt;
      CoreIsLater(p.c, p.View());
      Meanwhile();
      CoreIsLater(p.c, p.View());
      state := StateOf(g, stalled);
    }

    /** The part of a pass after finalization. */
    method Conclude(g: Gid, look: Outlook, before: GroupReport, at: GroupState) returns (r: GroupReport)
      requires Valid() && g in p.c.groups && g in p.groups && p.groups[g].price.Some? && g !in done
      requires if p.groups[g].ratio.Some? then at == Redeemable
               else at == Finalized || (at == AllSettled && Holders(p.c, p.View().bal, g) == {})
      modifies this`sent, this`turns, this`done, this`blocks, directory, p
      ensures Valid() && old(sent) <= sent && old(turns) <= turns && old(done) <= done <= old(done) + {g}
      ensures Shaped(p.c, old(p.View())) && Later(p.c, old(p.View()), p.View()) && g in p.groups
      ensures r.flagged == before.flagged && r.finalized == before.finalized && (r.ratio ==> before.ratio || g in done)
      ensures r.errors == [] ==> g in done
      ensures AllAccepted(old(sent), sent) ==> p.groups[g].ratio.Some?
      ensures Quiet(old(turns), turns) ==> KeepsOthers(p.c, old(p.View()), p.View(), g)
      ensures Quiet(old(turns), turns) ==> (g in done <==> p.groups[g].ratio.Some?)
      ensures old(p.groups)[g].ratio.Some? ==> p.View() == old(p.View()) && sent == old(sent) && r == before
      ensures old(p.groups)[g].ratio.None? && Quiet(old(turns), turns) && AllAccepted(old(sent), sent) ==>
        (g in done && Completed(p.c, old(p.View()), g, p.View(), r, batch) && r.errors == before.errors)
    {
      hide Inv, Core, LedgerOk, SupplyOk, Custody, Emitted, Priced, Holders, Shaped, CeilDiv, SettledAndFixed, Later;
      hide AllAccepted, Quiet, Following, KeepsOthers, RatioFixed;
      ghost var s := p.View();
      CoreIsLater(p.c, s);
      KeepsItself(p.c, s, g);
      r := before;
      var state := at;
      if state != Redeemable {
        var accounts, batches, fixed, errors;
        accounts, batches, fixed, state, errors := SettleGroup(g, look.stalled, state);
        r := before.(accounts := accounts, batches := batches, ratio := fixed, errors := before.errors + errors);
      }
      LaterRatios(p.c, s, p.View(), done);
      if state == Redeemable {
        OneMoreRatio(p.View(), done, g);
        done := done + {g};
      }
    }

    /** The first half of a pass: where the group stands, and finalization if it has no price yet. */
    method Approach(g: Gid, look: Outlook, now: int) returns (state: GroupState, r: GroupReport)
      requires Valid() && g in p.c.groups && p.c.groups[g].expiry <= now <= p.now
      modifies p, this`sent, this`turns
      ensures Valid() && old(sent) <= sent && old(turns) <= turns && g in old(p.groups) && g in p.groups
      ensures Shaped(p.c, old(p.View())) && Later(p.c, old(p.View()), p.View())
      ensures r == GroupReport(r.flagged, r.finalized, 0, 0, false, r.errors)
      ensures r.flagged ==> look.stalled && !look.flagged
      ensures Quiet(old(turns), turns) && old(p.groups)[g].price.None? ==>
        r.flagged == (look.stalled && !look.flagged && accepts(old(sent)))
      ensures AllAccepted(old(sent), sent) && look.price.Some? && look.earliest <= now ==> p.groups[g].price.Some?
      ensures if state == Expired || state == OracleStalled then
          && !r.finalized && old(p.groups)[g].price.None?
          && (Quiet(old(turns), turns) ==> p.View() == old(p.View()))
        else
          && p.groups[g].price.Some? && r.errors == []
          && (state == Finalized || state == AllSettled || state == Redeemable)
          && (state == Redeemable <==> p.groups[g].ratio.Some?)
          && (state == AllSettled ==> Holders(p.c, p.View().bal, g) == {})
      ensures Quiet(old(turns), turns) ==> KeepsOthers(p.c, old(p.View()), p.View(), g)
      ensures old(p.groups)[g].price.Some? ==> sent == old(sent)
      ensures old(p.groups)[g].price.Some? && Quiet(old(turns), turns) ==> p.View() == old(p.View())
      ensures old(p.groups)[g].price.None? && state == Finalized && Quiet(old(turns), turns) ==>
        look.price.Some? && Finalize(p.c, old(p.View()), g, look.price.value) == Done(p.View())
      ensures old(p.groups)[g].price.None? && Quiet(old(turns), turns) ==> state != AllSettled && state != Redeemable
    {
      hide Inv, Core, LedgerOk, SupplyOk, Custody, Emitted, Priced, Finalize, Holders, Shaped, Later, LogsIn, Replay;
      hide Catalogued, Following, RatioFixed, KeepsOthers;
      ghost var s := p.View();
      CoreIsLater(p.c, s);
      KeepsItself(p.c, s, g);
      r := GroupReport(false, false, 0, 0, false, []);
      state := ReadState(g, look.stalled);
      ghost var s1 := p.View();
      LaterGroup(p.c, s, s1, g);
      if state == Expired || state == OracleStalled {
        var flagged, finalized, errors := TryFinalize(g, look, now);
        r := r.(flagged := flagged, finalized := finalized, errors := errors);
        LaterStill(p.c, s, s1, p.View());
        if finalized {
          state := Finalized;
          FinalizeKeepsOthers(p.c, s, g, if look.price.Some? then look.price.value else 0);
        }
      }
      LaterRatios(p.c, s, p.View(), done);
    }

    /**
     * One pass over a group. Whatever the others do: once the group has a price, it is on the done list if the pass
     * reports no error, and its ratio is fixed if every transaction goes through. If the others do nothing, all its n
     * participants then settle in ⌈n / batch⌉ batches. Whom to settle is known from the ledger's events alone.
     */
    method TickGroup(g: Gid, look: Outlook, now: int) returns (r: GroupReport)
      requires Valid() && g in p.c.groups && now <= p.now
      modifies this`sent, this`turns, this`done, this`blocks, directory, p
      ensures Valid() && old(sent) <= sent && old(turns) <= turns && old(done) <= done <= old(done) + {g}
      ensures Shaped(p.c, old(p.View())) && Later(p.c, old(p.View()), p.View())
      ensures r.ratio ==> g in done
      ensures SettlesGroup(p.c, old(p.View()), p.View(), g, look, now, r, done, AllAccepted(old(sent), sent))
      ensures Quiet(old(turns), turns) ==> KeepsOthers(p.c, old(p.View()), p.View(), g) && g in p.groups
      ensures Quiet(old(turns), turns) && p.c.groups[g].expiry <= now && old(p.groups)[g].price.None? ==>
        r.flagged == (look.stalled && !look.flagged && accepts(old(sent)))
      ensures Quiet(old(turns), turns) && now == old(p.now) ==> (g in done <==> p.groups[g].ratio.Some?)
      ensures old(p.groups)[g].ratio.Some? && Quiet(old(turns), turns) ==>
        p.View() == old(p.View()) && sent == old(sent)
      ensures Quiet(old(turns), turns) && AllAccepted(old(sent), sent) && now == old(p.now) ==>
        PassOutcome(p.c, old(p.View()), p.View(), g, look, r, batch, done)
    {
      hide Inv, Core, LedgerOk, SupplyOk, Custody, Emitted, Priced, Finalize, Holders, Shaped, Completed, CeilDiv;
      hide Later;
      hide KeepsOthers, LogsIn, Replay, Catalogued, Following, RatioFixed;
      ghost var s := p.View();
      PricedIsExpired(p.c, s, g);
      CoreIsLater(p.c, s);
      KeepsItself(p.c, s, g);
      DoneHasRatio(s, done, g);
      r := GroupReport(false, false, 0, 0, false, []);
      if now < p.c.groups[g].expiry || g in done {
        return;
      }
      var state;
      state, r := Approach(g, look, now);
      if state == Expired || state == OracleStalled {
        return;
      }
      ghost var s2 := p.View();
      r := Conclude(g, look, r, state);
      LaterStill(p.c, s, s2, p.View());
      LaterGroup(p.c, s2, p.View(), g);
      if Quiet(old(turns), turns) {
        KeepsOthersOnward(p.c, s, s2, p.View(), g);
      }
    }

    /**
     * One pass over all groups, while others may send what they like between any two of the keeper's steps. The ratio
     * of a group is never fixed while a participant is left. A group with a price that reports no error is redeemable
     * afterwards; if all of the keeper's transactions go through, so is every group with a price. If the others do
     * nothing, every group that can complete when the pass starts does: without an error, with all n of its
     * participants settled in ⌈n / batch⌉ batches, whatever happens to the groups before it.
     */
    method Tick(groups: seq<Gid>, look: Gid -> Outlook) returns (reports: seq<GroupReport>)
      requires Valid() && forall g :: g in groups ==> g in p.c.groups
      modifies this`sent, this`turns, this`done, this`blocks, directory, p
      ensures Valid() && old(done) <= done && old(sent) <= sent && old(turns) <= turns && |reports| == |groups|
      ensures Later(p.c, old(p.View()), p.View())
      ensures forall g :: g in p.groups && p.groups[g].ratio.Some? ==> Holders(p.c, p.View().bal, g) == {}
      ensures forall i :: 0 <= i < |reports| && reports[i].ratio ==> groups[i] in done
      ensures Settles(p.c, old(p.View()), p.View(), groups, look, old(p.now), reports, done,
        AllAccepted(old(sent), sent))
      ensures Quiet(old(turns), turns) ==> DoneAgrees(p.View(), groups, done)
      ensures Quiet(old(turns), turns) && AllAccepted(old(sent), sent) ==>
        AllReported(p.c, old(p.View()), groups, look, reports, batch, done)
    {
      hide Inv, Core, LedgerOk, SupplyOk, Custody, Emitted, Priced, Holders, Shaped, CompletedFrom, CanComplete;
      hide Following;
      hide KeepsOthers, UntouchedBeyond, DoneAgrees, AllReported, PassOutcome, Later, Settles, SettlesGroup, RatioFixed;
      reports := [];
      var now := p.now;
      ghost var s0 := p.View();
      NothingPassed(p.c, s0, look, now, batch, done);
      for i := 0 to |groups|
        invariant Valid() && old(done) <= done && old(sent) <= sent && old(turns) <= turns && |reports| == i
        invariant Later(p.c, s0, p.View()) && now <= p.now
        invariant forall j :: 0 <= j < i && reports[j].ratio ==> groups[j] in done
        invariant Settles(p.c, s0, p.View(), groups[..i], look, now, reports, done, AllAccepted(old(sent), sent))
        invariant Quiet(old(turns), turns) ==> now == p.now && DoneAgrees(p.View(), groups[..i], done)
        invariant Quiet(old(turns), turns) ==> UntouchedBeyond(p.c, s0, p.View(), groups[..i])
        invariant Quiet(old(turns), turns) && AllAccepted(old(sent), sent) ==>
          AllReported(p.c, s0, groups[..i], look, reports, batch, done)
      {
        ghost var s, since, begun, earlier := p.View(), sent, turns, done;
        var g := groups[i];
        var r := TickGroup(g, look(g), now);
        assert groups[..i + 1] == groups[..i] + [g];
        OneMoreSettles(p.c, s0, s, p.View(), groups[..i], g, look, now, reports, r, earlier, done,
          AllAccepted(old(sent), since), AllAccepted(since, sent), AllAccepted(old(sent), sent));
        if Quiet(old(turns), turns) {
          assert Quiet(begun, turns) && Quiet(old(turns), begun);
          DoneOnward(p.c, s, p.View(), groups[..i], g, earlier, done);
          PassOver(p.c, s0, s, p.View(), groups[..i], g);
          if AllAccepted(old(sent), sent) {
            assert AllAccepted(since, sent) && AllAccepted(old(sent), since);
            OneMoreReport(p.c, s0, s, p.View(), groups[..i], g, look, reports, r, batch, earlier, done);
          }
        }
        reports := reports + [r];
      }
      assert groups[..|groups|] == groups;
      RatioMeansNobody(p.c, p.View());
    }
  }
}
