/** The `prices` table of `pc_parts.db`: rows `(url, price, time)` in insertion
    order, with times as integer seconds. Only the three statements the
    scraper issues are modelled: `SELECT ... WHERE url=?` with `fetchone()`,
    `UPDATE ... WHERE url=?` and `INSERT`. */
module Cache {
  import opened Wrappers
  import opened Prices

  datatype Row = Row(url: string, price: Price, time: int)

  /** All rows for `u`, in table order: what `SELECT * WHERE url=?` yields. */
  function RowsOf(t: seq<Row>, u: string): (r: seq<Row>)
    ensures |r| <= |t|
    ensures forall i :: 0 <= i < |r| ==> r[i].url == u && r[i] in t
  {
    if t == [] then [] else (if t[0].url == u then [t[0]] else []) + RowsOf(t[1..], u)
  }

  /** Nothing is missed: every row of the table for `u` is selected. */
  lemma {:induction false} RowsOfComplete(t: seq<Row>, u: string)
    ensures forall i :: 0 <= i < |t| && t[i].url == u ==> t[i] in RowsOf(t, u)
  {
    if t != [] {
      RowsOfComplete(t[1..], u);
      assert forall i :: 1 <= i < |t| ==> t[i] == t[1..][i - 1];
    }
  }

  /** Selecting from a concatenation selects from each part. */
  lemma {:induction false} RowsOfAppend(a: seq<Row>, b: seq<Row>, u: string)
    ensures RowsOf(a + b, u) == RowsOf(a, u) + RowsOf(b, u)
  {
    if a != [] {
      assert (a + b)[1..] == a[1..] + b;
      RowsOfAppend(a[1..], b, u);
    } else {
      assert a + b == b;
    }
  }

  /** `SELECT ... FROM prices WHERE url=?` followed by `fetchone()`: the first
      row for `u`, or None when there is none. */
  function Lookup(t: seq<Row>, u: string): (r: Option<Row>)
    ensures r == if RowsOf(t, u) == [] then None else Some(RowsOf(t, u)[0])
    ensures r.Some? ==> r.value in t && r.value.url == u
    ensures r.None? <==> forall i :: 0 <= i < |t| ==> t[i].url != u
  {
    if t == [] then None
    else if t[0].url == u then Some(t[0])
    else Lookup(t[1..], u)
  }

  /** `UPDATE prices SET price=?, time=? WHERE url=?`: every row for `u` gets
      the new price and time; every other row, and the order, stay. */
  function UpdateRows(t: seq<Row>, u: string, price: Price, time: int): (r: seq<Row>)
    ensures |r| == |t|
    ensures forall i :: 0 <= i < |t| ==> r[i] == if t[i].url == u then Row(u, price, time) else t[i]
    ensures forall v :: v != u ==> RowsOf(r, v) == RowsOf(t, v)
    ensures |RowsOf(r, u)| == |RowsOf(t, u)|
    ensures forall row :: row in RowsOf(r, u) ==> row == Row(u, price, time)
  {
    if t == [] then []
    else
      var rest := UpdateRows(t[1..], u, price, time);
      var r := [if t[0].url == u then Row(u, price, time) else t[0]] + rest;
      assert r[1..] == rest;
      r
  }

  /** The table holds at most one row per URL. */
  ghost predicate Unique(t: seq<Row>)
  {
    forall u :: |RowsOf(t, u)| <= 1
  }

  /** `INSERT INTO prices VALUES (?,?,?)` appends one row: the inserted URL
      gains exactly that row and no other URL's rows change. */
  lemma InsertRows(t: seq<Row>, row: Row)
    ensures RowsOf(t + [row], row.url) == RowsOf(t, row.url) + [row]
    ensures forall v :: v != row.url ==> RowsOf(t + [row], v) == RowsOf(t, v)
  {
    forall v
      ensures RowsOf(t + [row], v) == RowsOf(t, v) + (if row.url == v then [row] else [])
    {
      RowsOfAppend(t, [row], v);
      assert RowsOf([row], v) == (if row.url == v then [row] else []) + RowsOf([], v);
    }
  }

  /** After inserting a row for a URL that had none, a lookup finds it and
      it is the URL's only row. */
  lemma LookupAfterInsert(t: seq<Row>, row: Row)
    requires Lookup(t, row.url).None?
    ensures Lookup(t + [row], row.url) == Some(row)
    ensures |RowsOf(t + [row], row.url)| == 1
  {
    InsertRows(t, row);
  }

  /** After an update, a lookup of a URL that had a row finds the new
      price and time. */
  lemma LookupAfterUpdate(t: seq<Row>, u: string, price: Price, time: int)
    requires Lookup(t, u).Some?
    ensures Lookup(UpdateRows(t, u, price, time), u) == Some(Row(u, price, time))
  {
    var r := UpdateRows(t, u, price, time);
    assert RowsOf(r, u)[0] in RowsOf(r, u);
  }

  /** Inserting a row for a URL that has none keeps the table unique. */
  lemma InsertKeepsUnique(t: seq<Row>, row: Row)
    requires Unique(t)
    requires Lookup(t, row.url).None?
    ensures Unique(t + [row])
  {
    InsertRows(t, row);
  }

  /** Updating in place keeps the table unique. */
  lemma UpdateKeepsUnique(t: seq<Row>, u: string, price: Price, time: int)
    requires Unique(t)
    ensures Unique(UpdateRows(t, u, price, time))
  {
    var r := UpdateRows(t, u, price, time);
    forall v ensures |RowsOf(r, v)| <= 1 {
      if v != u {
        assert RowsOf(r, v) == RowsOf(t, v);
      }
    }
  }
}
