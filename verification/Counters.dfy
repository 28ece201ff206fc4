/**
 * The counters the source keeps beside the balances - series totals, series and participant counts, wrapper supply,
 * custody - and why keeping them step by step is the same as counting again (INV-2, INV-4, INV-7, INV-27).
 */
module Counters {
  import opened Basics
  import opened Sums
  import opened Tables
  import opened Clearing
  import opened Trading

  type Counts = map<(Aid, Gid), int>

  /** What `set_bal` reads and writes. */
  datatype Ledger = Ledger(
    bal: map<Aid, Row>, totLong: map<Sid, int>, totShort: map<Sid, int>, seriesCount: Counts,
    participants: map<Gid, int>)

  /** The single write path: the balance, and every counter by its difference. */
  function SetBal(c: Config, l: Ledger, aid: Aid, sid: Sid, v: int): Ledger
    requires aid in l.bal && sid in c.series
  {
    var was, g := Get(l.bal[aid], sid), c.series[sid].group;
    var opens, closes := was == 0 && v != 0, was != 0 && v == 0;
    Ledger(
      SetBalance(l.bal, aid, sid, v),
      l.totLong[sid := Get(l.totLong, sid) + (Max(v, 0) - Max(was, 0))],
      l.totShort[sid := Get(l.totShort, sid) + (Max(-v, 0) - Max(-was, 0))],
      SeriesAfter(l.seriesCount, aid, g, opens, closes),
      ParticipantsAfter(l.seriesCount, l.participants, aid, g, opens, closes))
  }

  /** How many series of a group an account holds, once one opens or closes. */
  function SeriesAfter(counts: Counts, aid: Aid, g: Gid, opens: bool, closes: bool): Counts {
    var n := Get(counts, (aid, g));
    if opens then counts[(aid, g) := n + 1] else if closes then counts[(aid, g) := n - 1] else counts
  }

  /** The first series makes a participant, the last one to go ends it. */
  function ParticipantsAfter(counts: Counts, participants: map<Gid, int>, aid: Aid, g: Gid, opens: bool,
      closes: bool): map<Gid, int>
  {
    var n, p := Get(counts, (aid, g)), Get(participants, g);
    if opens && n + 1 == 1 then participants[g := p + 1]
    else if closes && n - 1 == 0 then participants[g := p - 1]
    else participants
  }

  // ---------------------------------------------------------------------------------------------------------
  // Recounts
  // ---------------------------------------------------------------------------------------------------------

  ghost function SeriesHeld(c: Config, row: Row, g: Gid): set<Sid> {
    set sid | sid in SeriesOf(c, g) && Get(row, sid) != 0
  }

  ghost predicate TotalsOk(bal: map<Aid, Row>, totLong: map<Sid, int>, totShort: map<Sid, int>) {
    forall sid {:trigger Get(totLong, sid)} {:trigger Get(totShort, sid)} ::
      Get(totLong, sid) == Sum(LongColumn(bal, sid)) && Get(totShort, sid) == Sum(ShortColumn(bal, sid))
  }

  ghost predicate CountsOk(c: Config, bal: map<Aid, Row>, seriesCount: Counts) {
    forall a, g {:trigger Get(seriesCount, (a, g))} ::
      a in bal ==> Get(seriesCount, (a, g)) == |SeriesHeld(c, bal[a], g)|
  }

  ghost predicate ParticipantsOk(c: Config, bal: map<Aid, Row>, participants: map<Gid, int>) {
    forall g {:trigger Get(participants, g)} :: Get(participants, g) == |Holders(c, bal, g)|
  }

  /** INV-2 and INV-27: every counter of the ledger is what a recount of the balances gives. */
  ghost predicate LedgerOk(c: Config, l: Ledger) {
    && TotalsOk(l.bal, l.totLong, l.totShort)
    && CountsOk(c, l.bal, l.seriesCount)
    && ParticipantsOk(c, l.bal, l.participants)
  }

  lemma {:induction false} SetBalTotals(c: Config, l: Ledger, aid: Aid, sid: Sid, v: int)
    requires aid in l.bal && sid in c.series && TotalsOk(l.bal, l.totLong, l.totShort)
    ensures var l' := SetBal(c, l, aid, sid, v); TotalsOk(l'.bal, l'.totLong, l'.totShort)
  {
    var l' := SetBal(c, l, aid, sid, v);
    forall t
      ensures Get(l'.totLong, t) == Sum(LongColumn(l'.bal, t)) && Get(l'.totShort, t) == Sum(ShortColumn(l'.bal, t))
    {
      EntryLong(l.bal, aid, sid, v, t);
      EntryShort(l.bal, aid, sid, v, t);
      assert Get(l.totLong, t) == Sum(LongColumn(l.bal, t));
    }
  }

  lemma {:induction false} EntryLong(bal: map<Aid, Row>, aid: Aid, sid: Sid, v: int, t: Sid)
    requires aid in bal
    ensures Sum(LongColumn(SetBalance(bal, aid, sid, v), t))
         == Sum(LongColumn(bal, t)) + (if t == sid then Max(v, 0) - Max(Get(bal[aid], sid), 0) else 0)
  {
    var col, x := LongColumn(bal, t), if t == sid then v else Get(bal[aid], t);
    assert LongColumn(SetBalance(bal, aid, sid, v), t) == col[aid := Max(x, 0)];
    SumPut(col, aid, Max(x, 0));
  }

  lemma {:induction false} EntryShort(bal: map<Aid, Row>, aid: Aid, sid: Sid, v: int, t: Sid)
    requires aid in bal
    ensures Sum(ShortColumn(SetBalance(bal, aid, sid, v), t))
         == Sum(ShortColumn(bal, t)) + (if t == sid then Max(-v, 0) - Max(-Get(bal[aid], sid), 0) else 0)
  {
    var col, x := ShortColumn(bal, t), if t == sid then v else Get(bal[aid], t);
    assert ShortColumn(SetBalance(bal, aid, sid, v), t) == col[aid := Max(-x, 0)];
    SumPut(col, aid, Max(-x, 0));
  }

  function One(held: bool): int {
    if held then 1 else 0
  }

  /** How many series of a group a row holds, after one entry is set. */
  lemma {:induction false} EntrySeries(c: Config, row: Row, sid: Sid, v: int, g: Gid)
    requires sid in c.series
    ensures |SeriesHeld(c, Put(row, sid, v), g)|
         == |SeriesHeld(c, row, g)|
          + if g == c.series[sid].group then One(v != 0) - One(Get(row, sid) != 0) else 0
  {
    var held, held' := SeriesHeld(c, row, g), SeriesHeld(c, Put(row, sid, v), g);
    EntrySet(c, row, sid, v, g);
    if sid !in held && sid in held' {
      assert |held + {sid}| == |held| + 1;
    } else if sid in held && sid !in held' {
      assert |held' + {sid}| == |held'| + 1;
    }
  }

  lemma {:induction false} EntrySet(c: Config, row: Row, sid: Sid, v: int, g: Gid)
    requires sid in c.series
    ensures var held, held' := SeriesHeld(c, row, g), SeriesHeld(c, Put(row, sid, v), g);
      && (sid in held <==> g == c.series[sid].group && Get(row, sid) != 0)
      && (sid in held' <==> g == c.series[sid].group && v != 0)
      && ((sid in held <==> sid in held') ==> held' == held)
      && (sid !in held && sid in held' ==> held' == held + {sid})
      && (sid in held && sid !in held' ==> held == held' + {sid})
  {
  }

  lemma {:induction false} SetBalCounts(c: Config, l: Ledger, aid: Aid, sid: Sid, v: int)
    requires aid in l.bal && sid in c.series && CountsOk(c, l.bal, l.seriesCount)
    ensures var l' := SetBal(c, l, aid, sid, v); CountsOk(c, l'.bal, l'.seriesCount)
  {
    var l' := SetBal(c, l, aid, sid, v);
    forall a, g | a in l'.bal ensures Get(l'.seriesCount, (a, g)) == |SeriesHeld(c, l'.bal[a], g)| {
      assert Get(l.seriesCount, (a, g)) == |SeriesHeld(c, l.bal[a], g)|;
      EntrySeries(c, l.bal[aid], sid, v, g);
    }
  }

  lemma {:induction false} HoldsIsCount(c: Config, row: Row, g: Gid)
    ensures HoldsIn(c, row, g) <==> |SeriesHeld(c, row, g)| != 0
  {
    if |SeriesHeld(c, row, g)| != 0 {
      var sid :| sid in SeriesHeld(c, row, g);
    }
    if HoldsIn(c, row, g) {
      var sid :| sid in SeriesOf(c, g) && Get(row, sid) != 0;
      assert sid in SeriesHeld(c, row, g);
    }
  }

  lemma {:induction false} EntryHolders(c: Config, bal: map<Aid, Row>, aid: Aid, row: Row, g: Gid)
    requires aid in bal
    ensures Holders(c, bal[aid := row], g)
         == if HoldsIn(c, row, g) then Holders(c, bal, g) + {aid} else Holders(c, bal, g) - {aid}
  {
  }

  lemma {:induction false} SetBalParticipants(c: Config, l: Ledger, aid: Aid, sid: Sid, v: int)
    requires aid in l.bal && sid in c.series && CountsOk(c, l.bal, l.seriesCount)
    requires ParticipantsOk(c, l.bal, l.participants)
    ensures var l' := SetBal(c, l, aid, sid, v); ParticipantsOk(c, l'.bal, l'.participants)
  {
    var l' := SetBal(c, l, aid, sid, v);
    var row, row', own := l.bal[aid], Put(l.bal[aid], sid, v), c.series[sid].group;
    assert Get(l.seriesCount, (aid, own)) == |SeriesHeld(c, row, own)|;
    EntrySeries(c, row, sid, v, own);
    forall g ensures Get(l'.participants, g) == |Holders(c, l'.bal, g)| {
      assert Get(l.participants, g) == |Holders(c, l.bal, g)|;
      EntryHolders(c, l.bal, aid, row', g);
      EntrySeries(c, row, sid, v, g);
      HoldsIsCount(c, row, g);
      HoldsIsCount(c, row', g);
      assert aid in Holders(c, l.bal, g) <==> HoldsIn(c, row, g);
    }
  }

  /** Every write of a balance keeps every counter equal to its recount. */
  lemma {:induction false} SetBalIsRecount(c: Config, l: Ledger, aid: Aid, sid: Sid, v: int)
    requires aid in l.bal && sid in c.series && LedgerOk(c, l)
    ensures LedgerOk(c, SetBal(c, l, aid, sid, v))
  {
    hide TotalsOk, CountsOk, ParticipantsOk, SetBal;
    SetBalTotals(c, l, aid, sid, v);
    SetBalCounts(c, l, aid, sid, v);
    SetBalParticipants(c, l, aid, sid, v);
  }

  /** The counter is zero exactly when nobody takes part. */
  lemma {:induction false} ParticipantsZero(c: Config, l: Ledger, g: Gid)
    requires LedgerOk(c, l)
    ensures Get(l.participants, g) == 0 <==> Holders(c, l.bal, g) == {}
  {
    assert Get(l.participants, g) == |Holders(c, l.bal, g)|;
  }

  // Wrapper supply

  ghost predicate SupplyOk(wr: map<Owner, Row>, supply: map<Sid, int>) {
    forall sid {:trigger Get(supply, sid)} :: Get(supply, sid) == Held(wr, sid)
  }

  lemma {:induction false} GiveSupply(wr: map<Owner, Row>, supply: map<Sid, int>, o: Owner, sid: Sid, q: int)
    requires o in wr && SupplyOk(wr, supply)
    ensures SupplyOk(Give(wr, o, sid, q), supply[sid := Get(supply, sid) + q])
  {
    GiveEntry(wr, o, sid, q);
    OneEntryHeld(wr, Give(wr, o, sid, q), o, sid, Get(wr[o], sid) + q);
    var supply', wr' := supply[sid := Get(supply, sid) + q], Give(wr, o, sid, q);
    forall t ensures Get(supply', t) == Held(wr', t) {
      assert Get(supply, t) == Held(wr, t);
    }
  }
}
