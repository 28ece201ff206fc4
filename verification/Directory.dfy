/**
 * The ledger rebuilt from its events (sdk/src/ledger.ts): every balance write emits a log with the new balance, and the
 * directory replays the logs in chunks of blocks, each exactly once across any number of syncs.
 */
module Directory {
  import opened Basics
  import opened Sums
  import opened Tables
  import opened Ordering
  import opened Clearing

  datatype Log = Log(sid: Sid, aid: Aid, balance: int)

  type Blocks = seq<seq<Log>>
  type Balances = map<Sid, map<Aid, int>>

  function Seen(balances: Balances, sid: Sid, aid: Aid): int {
    if sid in balances then Get(balances[sid], aid) else 0
  }

  /** One log overwrites one entry. */
  function Apply(balances: Balances, l: Log): (r: Balances)
    ensures forall sid, aid ::
      Seen(r, sid, aid) == if sid == l.sid && aid == l.aid then l.balance else Seen(balances, sid, aid)
  {
    balances[l.sid := (if l.sid in balances then balances[l.sid] else map[])[l.aid := l.balance]]
  }

  function Replay(balances: Balances, logs: seq<Log>): Balances {
    if logs == [] then balances else Apply(Replay(balances, logs[..|logs| - 1]), logs[|logs| - 1])
  }

  lemma {:induction false} ReplayAppends(balances: Balances, a: seq<Log>, b: seq<Log>)
    ensures Replay(balances, a + b) == Replay(Replay(balances, a), b)
    decreases |b|
  {
    if b == [] {
      assert a + b == a;
    } else {
      ReplayAppends(balances, a, b[..|b| - 1]);
      assert (a + b)[..|a + b| - 1] == a + b[..|b| - 1];
    }
  }

  /** The logs of the blocks from `lo` up to, not including, `hi`, as far as there are blocks. */
  function LogsIn(blocks: Blocks, lo: nat, hi: nat): seq<Log>
    decreases hi
  {
    if hi <= lo || |blocks| < hi then [] else LogsIn(blocks, lo, hi - 1) + blocks[hi - 1]
  }

  lemma {:induction false} LogsInSplit(blocks: Blocks, lo: nat, mid: nat, hi: nat)
    requires lo <= mid <= hi <= |blocks|
    ensures LogsIn(blocks, lo, hi) == LogsIn(blocks, lo, mid) + LogsIn(blocks, mid, hi)
    decreases hi
  {
    if mid < hi {
      LogsInSplit(blocks, lo, mid, hi - 1);
    }
  }

  lemma {:induction false} LogsInPrefix(blocks: Blocks, blocks': Blocks, lo: nat, hi: nat)
    requires hi <= |blocks| && blocks <= blocks'
    ensures LogsIn(blocks', lo, hi) == LogsIn(blocks, lo, hi)
    decreases hi
  {
    if lo < hi {
      LogsInPrefix(blocks, blocks', lo, hi - 1);
    }
  }

  /** The last logged balance of an account in a series. */
  function LastBalance(logs: seq<Log>, sid: Sid, aid: Aid): int {
    if logs == [] then 0
    else
      var l := logs[|logs| - 1];
      if l.sid == sid && l.aid == aid then l.balance else LastBalance(logs[..|logs| - 1], sid, aid)
  }

  lemma {:induction false} ReplayIsLast(logs: seq<Log>, sid: Sid, aid: Aid)
    ensures Seen(Replay(map[], logs), sid, aid) == LastBalance(logs, sid, aid)
    decreases |logs|
  {
    if logs != [] {
      ReplayIsLast(logs[..|logs| - 1], sid, aid);
    }
  }

  lemma {:induction false} NothingNew(balances: Balances, blocks: Blocks, at: nat)
    ensures Replay(balances, LogsIn(blocks, at, at)) == balances
  {
  }

  class LedgerLogDirectory {
    const start: nat
    const chunk: nat
    var next: nat
    var balances: Balances

    /** Every log from `start` up to `next` has been applied, in order and once. */
    ghost predicate Synced(blocks: Blocks)
      reads this
    {
      && 0 < chunk && start <= next && (start < next ==> next <= |blocks|)
      && balances == Replay(map[], LogsIn(blocks, start, next))
    }

    constructor (fromBlock: nat, chunk: nat)
      requires 0 < chunk
      ensures forall blocks :: Synced(blocks)
      ensures start == fromBlock && this.chunk == chunk && next == fromBlock
    {
      start, this.chunk, next, balances := fromBlock, chunk, fromBlock, map[];
    }

    method ReplayLogs(logs: seq<Log>)
      modifies this`balances
      ensures balances == Replay(old(balances), logs)
    {
      for i := 0 to |logs|
        invariant balances == Replay(old(balances), logs[..i])
      {
        var l := logs[i];
        var m := if l.sid in balances then balances[l.sid] else map[];
        m := m[l.aid := l.balance];
        balances := balances[l.sid := m];
        assert logs[..i + 1][..i] == logs[..i];
      }
      assert logs[..|logs|] == logs;
    }

    /** Catches up with the head; what was replayed before is not replayed again. */
    method Sync(blocks: Blocks)
      requires Synced(blocks)
      modifies this`next, this`balances
      ensures Synced(blocks) && next == Max(old(next), |blocks|)
      ensures balances == Replay(old(balances), LogsIn(blocks, old(next), next))
    {
      hide Replay, LogsIn;
      var head := |blocks| - 1;
      ghost var from, was := next, balances;
      NothingNew(was, blocks, from);
      while next <= head
        invariant from <= next <= Max(from, |blocks|) && Synced(blocks)
        invariant balances == Replay(was, LogsIn(blocks, from, next))
        decreases head + 1 - next
      {
        var to := if head < next + chunk - 1 then head else next + chunk - 1;
        var logs := LogsIn(blocks, next, to + 1);
        LogsInSplit(blocks, start, next, to + 1);
        LogsInSplit(blocks, from, next, to + 1);
        ReplayAppends(map[], LogsIn(blocks, start, next), logs);
        ReplayAppends(was, LogsIn(blocks, from, next), logs);
        ReplayLogs(logs);
        next := to + 1;
      }
    }

    /** A longer chain with the same blocks so far leaves the directory in sync. */
    lemma {:induction false} SyncedExtends(blocks: Blocks, blocks': Blocks)
      requires Synced(blocks) && blocks <= blocks'
      ensures Synced(blocks')
    {
      if start < next {
        LogsInPrefix(blocks, blocks', start, next);
      }
    }

    /** Having caught up with a chain on which nothing was logged before `start`, it has replayed every log there is. */
    lemma {:induction false} CaughtUp(blocks: Blocks)
      requires Synced(blocks) && start <= |blocks| && LogsIn(blocks, 0, start) == [] && next == |blocks|
      ensures balances == Replay(map[], LogsIn(blocks, 0, |blocks|))
    {
      LogsInSplit(blocks, 0, start, |blocks|);
      assert [] + LogsIn(blocks, start, |blocks|) == LogsIn(blocks, start, |blocks|);
    }

    /** Accounts with a non-zero balance in any of the series, in order. */
    method Holders(seriesIds: seq<Sid>) returns (out: seq<Aid>)
      ensures Ordered(out)
      ensures forall a :: a in out <==> exists sid :: sid in seriesIds && Seen(balances, sid, a) != 0
    {
      out := [];
      for i := 0 to |seriesIds|
        invariant Ordered(out)
        invariant forall a :: a in out <==> exists n :: 0 <= n < i && Seen(balances, seriesIds[n], a) != 0
      {
        if seriesIds[i] in balances {
          out := AddHolders(out, balances[seriesIds[i]]);
        }
        assert forall a :: a in out <==>
          ((exists n :: 0 <= n < i && Seen(balances, seriesIds[n], a) != 0) || Seen(balances, seriesIds[i], a) != 0);
      }
      forall a
        ensures a in out <==> exists sid :: sid in seriesIds && Seen(balances, sid, a) != 0
      {
        if a in out {
          var n :| 0 <= n < |seriesIds| && Seen(balances, seriesIds[n], a) != 0;
          assert seriesIds[n] in seriesIds;
        }
      }
    }

    /** Accounts with at least one non-zero balance. */
    method WithPositions() returns (out: seq<Aid>)
      ensures Ordered(out)
      ensures forall a :: a in out <==> exists sid :: Seen(balances, sid, a) != 0
    {
      var order: seq<Sid> := [];
      var todo := balances.Keys;
      while todo != {}
        invariant todo <= balances.Keys && forall sid :: sid in order <==> sid in balances && sid !in todo
        decreases |todo|
      {
        var sid :| sid in todo;
        order, todo := order + [sid], todo - {sid};
      }
      out := Holders(order);
      assert forall sid, a :: Seen(balances, sid, a) != 0 ==> sid in order;
    }
  }

  method AddHolders(known: seq<Aid>, m: map<Aid, int>) returns (out: seq<Aid>)
    requires Ordered(known)
    ensures Ordered(out) && forall a :: a in out <==> a in known || Get(m, a) != 0
  {
    out := known;
    var todo := m.Keys;
    while todo != {}
      invariant todo <= m.Keys && Ordered(out)
      invariant forall a :: a in out <==> a in known || (a !in todo && Get(m, a) != 0)
      decreases |todo|
    {
      assert exists a :: a in todo by {
        assert (forall a :: a !in todo) ==> todo == {};
      }
      var a :| a in todo;
      if m[a] != 0 && a !in out {
        out := Insert(out, a);
      }
      todo := todo - {a};
    }
  }

  // ---------------------------------------------------------------------------------------------------------
  // The directory and the ledger
  // ---------------------------------------------------------------------------------------------------------

  /** The ledger after balance writes, each of which emits its log. */
  ghost function Written(bal: map<Aid, Row>, writes: seq<Log>): (r: map<Aid, Row>)
    requires forall l :: l in writes ==> l.aid in bal
    ensures r.Keys == bal.Keys
  {
    if writes == [] then bal
    else
      var l := writes[|writes| - 1];
      assert l in writes;
      SetBalance(Written(bal, writes[..|writes| - 1]), l.aid, l.sid, l.balance)
  }

  lemma {:induction false} LastIsWritten(bal: map<Aid, Row>, writes: seq<Log>, sid: Sid, aid: Aid)
    requires forall l :: l in writes ==> l.aid in bal
    requires aid in bal && bal[aid] == map[]
    ensures LastBalance(writes, sid, aid) == Get(Written(bal, writes)[aid], sid)
    decreases |writes|
  {
    if writes != [] {
      LastIsWritten(bal, writes[..|writes| - 1], sid, aid);
      var l := writes[|writes| - 1];
      assert l in writes;
    }
  }

  /** The ledger before its first write. */
  function EmptyLedger(accounts: set<Aid>): map<Aid, Row> {
    map a | a in accounts :: map[]
  }

  /** The balances are what the events logged since the ledger was empty leave behind. */
  ghost predicate Emitted(bal: map<Aid, Row>, events: seq<Log>) {
    && (forall l :: l in events ==> l.aid in bal)
    && bal == Written(EmptyLedger(bal.Keys), events)
  }

  lemma {:induction false} NothingEmitted(bal: map<Aid, Row>)
    requires bal == EmptyLedger(bal.Keys)
    ensures Emitted(bal, [])
  {
  }

  /** One write of a balance and its event. */
  lemma {:induction false} EmitOne(bal: map<Aid, Row>, events: seq<Log>, aid: Aid, sid: Sid, v: int)
    requires Emitted(bal, events) && aid in bal
    ensures Emitted(SetBalance(bal, aid, sid, v), events + [Log(sid, aid, v)])
  {
    var l := Log(sid, aid, v);
    assert (events + [l])[..|events|] == events;
    assert SetBalance(bal, aid, sid, v).Keys == bal.Keys;
  }

  /**
   * A directory that has replayed every event of the ledger lists, for a group, exactly the accounts that hold in it.
   */
  lemma {:induction false} DirectoryKnowsHolders(c: Config, bal: map<Aid, Row>, events: seq<Log>, g: Gid,
      seriesIds: seq<Sid>, known: seq<Aid>)
    requires Emitted(bal, events)
    requires forall sid :: sid in seriesIds <==> sid in SeriesOf(c, g)
    requires forall a :: a in known <==> exists sid :: sid in seriesIds && Seen(Replay(map[], events), sid, a) != 0
    ensures forall a :: a in known <==> a in Clearing.Holders(c, bal, g)
  {
    var empty := EmptyLedger(bal.Keys);
    forall a, sid
      ensures Seen(Replay(map[], events), sid, a) == if a in bal then Get(bal[a], sid) else 0
    {
      ReplayIsLast(events, sid, a);
      if a in bal {
        LastIsWritten(empty, events, sid, a);
      } else {
        NeverWritten(events, sid, a);
      }
    }
  }

  lemma {:induction false} NeverWritten(writes: seq<Log>, sid: Sid, aid: Aid)
    requires forall l :: l in writes ==> l.aid != aid
    ensures LastBalance(writes, sid, aid) == 0
    decreases |writes|
  {
    if writes != [] {
      assert writes[|writes| - 1] in writes;
      NeverWritten(writes[..|writes| - 1], sid, aid);
    }
  }
}
