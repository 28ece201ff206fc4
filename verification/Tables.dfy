/**
 * Two-level tables, such as account -> series -> signed balance or wallet -> series -> wrapper tokens, with their
 * column sums and their claims at given unit payoffs.
 */
module Tables {
  import opened Basics
  import opened Sums

  type Sid = string
  type Row = map<Sid, int>

  /** A row with one entry set; a zero entry is removed, as the ledger removes it. */
  function Put(row: Row, sid: Sid, v: int): (r: Row)
    ensures Get(r, sid) == v
    ensures forall t :: t != sid ==> Get(r, t) == Get(row, t)
    ensures forall t :: t in r <==> (if t == sid then v != 0 else t in row)
  {
    if v == 0 then row - {sid} else row[sid := v]
  }

  ghost function Column<K>(table: map<K, Row>, sid: Sid): map<K, int> {
    map k | k in table :: Get(table[k], sid)
  }

  /** What all rows hold of one series, signs included. */
  ghost function Held<K>(table: map<K, Row>, sid: Sid): int {
    Sum(Column(table, sid))
  }

  /** The positive and the negative parts of a column. */
  ghost function LongColumn<K>(table: map<K, Row>, sid: Sid): map<K, int> {
    map k | k in table :: Max(Get(table[k], sid), 0)
  }

  ghost function ShortColumn<K>(table: map<K, Row>, sid: Sid): map<K, int> {
    map k | k in table :: Max(-Get(table[k], sid), 0)
  }

  ghost function Products(row: Row, units: map<Sid, int>): map<Sid, int> {
    map sid | sid in units :: Get(row, sid) * units[sid]
  }

  /** The signed claim of one row when a token of series `sid` is worth `units[sid]`. */
  ghost function Claim(row: Row, units: map<Sid, int>): int {
    Sum(Products(row, units))
  }

  ghost function Claims<K>(table: map<K, Row>, units: map<Sid, int>): map<K, int> {
    map k | k in table :: Claim(table[k], units)
  }

  ghost function TotalClaim<K>(table: map<K, Row>, units: map<Sid, int>): int {
    Sum(Claims(table, units))
  }

  /** One number of a table rises by `x`, the others stay. */
  ghost predicate Rises<K>(m: map<K, int>, m': map<K, int>, k: K, x: int) {
    m'.Keys == m.Keys && forall j :: j in m ==> m'[j] == m[j] + if j == k then x else 0
  }

  /** One entry of a table of rows rises by `x`, the others stay. */
  ghost predicate EntryRises<K>(rows: map<K, Row>, rows': map<K, Row>, k: K, sid: Sid, x: int) {
    && rows'.Keys == rows.Keys
    && forall j, t {:trigger Get(rows'[j], t)} ::
         j in rows ==> Get(rows'[j], t) == Get(rows[j], t) + if j == k && t == sid then x else 0
  }

  /** One row changes in one series. */
  ghost predicate OneEntry<K>(table: map<K, Row>, table': map<K, Row>, k: K, sid: Sid, v: int) {
    && k in table && table'.Keys == table.Keys
    && table' == table[k := table'[k]]
    && Get(table'[k], sid) == v
    && forall t :: t != sid ==> Get(table'[k], t) == Get(table[k], t)
  }

  lemma {:induction false} OneEntryColumns<K>(table: map<K, Row>, table': map<K, Row>, k: K, sid: Sid, v: int)
    requires OneEntry(table, table', k, sid, v)
    ensures Column(table', sid) == Column(table, sid)[k := v]
    ensures forall t :: t != sid ==> Column(table', t) == Column(table, t)
  {
  }

  lemma {:induction false} OneEntryHeld<K>(table: map<K, Row>, table': map<K, Row>, k: K, sid: Sid, v: int)
    requires OneEntry(table, table', k, sid, v)
    ensures Held(table', sid) == Held(table, sid) - Get(table[k], sid) + v
    ensures forall t :: t != sid ==> Held(table', t) == Held(table, t)
  {
    OneEntryColumns(table, table', k, sid, v);
    SumPut(Column(table, sid), k, v);
  }

  lemma {:induction false} SameClaim(row: Row, row': Row, units: map<Sid, int>)
    requires forall sid :: sid in units ==> Get(row', sid) == Get(row, sid)
    ensures Claim(row', units) == Claim(row, units)
  {
    assert Products(row', units) == Products(row, units);
  }

  lemma {:induction false} OneEntryClaim(row: Row, row': Row, units: map<Sid, int>, sid: Sid)
    requires sid in units
    requires forall t :: t != sid ==> Get(row', t) == Get(row, t)
    ensures Claim(row', units) == Claim(row, units) + (Get(row', sid) - Get(row, sid)) * units[sid]
  {
    var p := Products(row, units);
    var v := Get(row', sid) * units[sid];
    assert Products(row', units) == p[sid := v];
    SumPut(p, sid, v);
    Difference(Get(row', sid), Get(row, sid), units[sid]);
  }

  lemma {:induction false} Difference(a: int, b: int, unit: int)
    ensures a * unit - b * unit == (a - b) * unit
  {
  }

  lemma {:induction false} RowTotalClaim<K>(table: map<K, Row>, k: K, row: Row, units: map<Sid, int>)
    requires k in table
    ensures TotalClaim(table[k := row], units)
         == TotalClaim(table, units) - Claim(table[k], units) + Claim(row, units)
  {
    var cs := Claims(table, units);
    assert Claims(table[k := row], units) == cs[k := Claim(row, units)];
    SumPut(cs, k, Claim(row, units));
  }

  ghost function ByColumn<K>(table: map<K, Row>, units: map<Sid, int>): map<Sid, int> {
    map sid | sid in units :: Held(table, sid) * units[sid]
  }

  /** Claims summed row by row or series by series are the same: the heart of the settlement identity. */
  lemma {:induction false} ClaimsByColumn<K>(table: map<K, Row>, units: map<Sid, int>)
    ensures TotalClaim(table, units) == Sum(ByColumn(table, units))
    decreases |table|
  {
    if k :| k in table {
      var rest := table - {k};
      ClaimsByColumn(rest, units);
      SumRemove(Claims(table, units), k);
      assert Claims(table, units) - {k} == Claims(rest, units);
      RowByColumn(table, units, k);
    } else {
      assert Claims(table, units) == map[];
      forall sid | sid in units ensures ByColumn(table, units)[sid] == 0 {
        assert Column(table, sid) == map[];
      }
      SumZero(ByColumn(table, units));
    }
  }

  lemma {:induction false} RowByColumn<K>(table: map<K, Row>, units: map<Sid, int>, k: K)
    requires k in table
    ensures Sum(ByColumn(table, units)) == Claim(table[k], units) + Sum(ByColumn(table - {k}, units))
  {
    var all, row, rest := ByColumn(table, units), Products(table[k], units), ByColumn(table - {k}, units);
    forall sid | sid in units ensures all[sid] == row[sid] + rest[sid] {
      ColumnStep(table, units, k, sid);
    }
    SumAdd(row, rest, all);
  }

  lemma {:induction false} ColumnStep<K>(table: map<K, Row>, units: map<Sid, int>, k: K, sid: Sid)
    requires k in table && sid in units
    ensures Held(table, sid) * units[sid] == Get(table[k], sid) * units[sid] + Held(table - {k}, sid) * units[sid]
  {
    SumRemove(Column(table, sid), k);
    assert Column(table, sid) - {k} == Column(table - {k}, sid);
    Distribute(Get(table[k], sid), Held(table - {k}, sid), units[sid]);
  }
}
