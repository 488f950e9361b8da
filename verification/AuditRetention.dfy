/** The request audit table: append, prune to the newest, read back.

    The order is the one of the SQL statements: the text of the timestamp, then the id, both
    compared as text.  It is not the order of the instants the timestamps name. */
module AuditRetention {
  import opened Wrappers
  import opened Coordinates
  import opened Sets

  datatype Request = Request(requestId: string, verb: string, path: string, model: string, status: int, durationMs: int,
                             keyId: string, remoteAddr: string)
  datatype Row = Row(id: string, created: string, request: Request)

  const MAX_REQUEST_ID: nat := 128
  const MAX_VERB: nat := 32
  const MAX_PATH: nat := 2048
  const MAX_MODEL: nat := 512
  const MAX_KEY_ID: nat := 128
  const MAX_REMOTE_ADDR: nat := 256

  predicate Acceptable(v: Request) {
    && 0 < |v.requestId| <= MAX_REQUEST_ID && (forall i :: 0 <= i < |v.requestId| ==> '!' <= v.requestId[i] <= '~')
    && v.verb != "" && ByteLength(v.verb) <= MAX_VERB
    && v.path != "" && ByteLength(v.path) <= MAX_PATH
    && ByteLength(v.model) <= MAX_MODEL
    && 100 <= v.status <= 599 && v.durationMs >= 0
    && ByteLength(v.keyId) <= MAX_KEY_ID && ByteLength(v.remoteAddr) <= MAX_REMOTE_ADDR
  }

  predicate ValidAuditId(id: string) { |id| == 32 && forall i :: 0 <= i < 32 ==> LowerHex(id[i]) }

  // ---- the order ----

  predicate TextLess(a: string, b: string) {
    b != "" && (a == "" || a[0] < b[0] || (a[0] == b[0] && TextLess(a[1..], b[1..])))
  }

  lemma {:induction false} TextLessIsTotal(a: string, b: string)
    ensures (TextLess(a, b) || TextLess(b, a) || a == b) && !(TextLess(a, b) && TextLess(b, a)) && !(a == b && TextLess(a, b))
    decreases |a|
  {
    if a != "" && b != "" && a[0] == b[0] {
      TextLessIsTotal(a[1..], b[1..]);
      assert a == [a[0]] + a[1..] && b == [b[0]] + b[1..];
    }
  }

  lemma {:induction false} TextLessIsTransitive(a: string, b: string, c: string)
    requires TextLess(a, b) && TextLess(b, c)
    ensures TextLess(a, c)
    decreases |a|
  {
    if a != "" && a[0] == b[0] == c[0] { TextLessIsTransitive(a[1..], b[1..], c[1..]); }
  }

  /** Row x is listed before row y. */
  predicate Above(x: Row, y: Row) {
    TextLess(y.created, x.created) || (x.created == y.created && TextLess(y.id, x.id))
  }

  predicate SameKey(x: Row, y: Row) { x.created == y.created && x.id == y.id }

  lemma AboveIsTotal(x: Row, y: Row)
    ensures Above(x, y) || Above(y, x) || SameKey(x, y)
    ensures !(Above(x, y) && Above(y, x)) && !(SameKey(x, y) && Above(x, y))
  {
    TextLessIsTotal(x.created, y.created);
    TextLessIsTotal(x.id, y.id);
  }

  lemma AboveIsTransitive(x: Row, y: Row, z: Row)
    requires Above(x, y) && Above(y, z)
    ensures Above(x, z)
  {
    if TextLess(z.created, y.created) && TextLess(y.created, x.created) { TextLessIsTransitive(z.created, y.created, x.created); }
    if TextLess(z.id, y.id) && TextLess(y.id, x.id) { TextLessIsTransitive(z.id, y.id, x.id); }
  }

  lemma {:induction false} TextLessAfterPrefix(prefix: string, a: string, b: string)
    ensures TextLess(prefix + a, prefix + b) <==> TextLess(a, b)
  {
    if prefix == "" {
      assert prefix + a == a && prefix + b == b;
    } else {
      assert (prefix + a)[1..] == prefix[1..] + a && (prefix + b)[1..] == prefix[1..] + b;
      TextLessAfterPrefix(prefix[1..], a, b);
    }
  }

  // ---- the newest N ----

  /** No two rows share both timestamp and id. */
  predicate Keyed(rows: set<Row>) { forall x, y :: x in rows && y in rows && x != y ==> !SameKey(x, y) }

  function RowsAbove(rows: set<Row>, r: Row): set<Row> { set x | x in rows && Above(x, r) }

  /** The rows an OFFSET of n leaves in place: those with fewer than n rows above them. */
  function Newest(rows: set<Row>, n: nat): set<Row> { set r | r in rows && |RowsAbove(rows, r)| < n }

  lemma {:induction false} LowestExists(rows: set<Row>) returns (low: Row)
    requires rows != {} && Keyed(rows)
    ensures low in rows && forall x :: x in rows && x != low ==> Above(x, low)
    decreases |rows|
  {
    var r :| r in rows;
    var rest := rows - {r};
    if rest == {} {
      assert rows == {r};
      return r;
    }
    low := LowestExists(rest);
    AboveIsTotal(r, low);
    if Above(low, r) {
      forall x | x in rows && x != r ensures Above(x, r) { if x != low { AboveIsTransitive(x, low, r); } }
      low := r;
    }
  }

  /** N of them are kept, or all when there are fewer. */
  lemma {:induction false} NewestSize(rows: set<Row>, n: nat)
    requires Keyed(rows)
    ensures |Newest(rows, n)| == if |rows| < n then |rows| else n
    decreases |rows|
  {
    if rows == {} {
      assert Newest(rows, n) == {};
    } else {
      var low := LowestExists(rows);
      var rest := rows - {low};
      NewestSize(rest, n);
      forall r | r in rest ensures RowsAbove(rows, r) == RowsAbove(rest, r) { AboveIsTotal(r, low); }
      AboveIsTotal(low, low);
      assert RowsAbove(rows, low) == rest;
      assert Newest(rows, n) == Newest(rest, n) + if |rest| < n then {low} else {};
      assert Newest(rest, n) <= rest;
    }
  }

  /** The rows above a kept row are kept too. */
  lemma NewestIsUpward(rows: set<Row>, n: nat, r: Row)
    requires Keyed(rows) && r in rows
    ensures forall x :: x in RowsAbove(rows, r) ==> RowsAbove(rows, x) < RowsAbove(rows, r) && |RowsAbove(rows, x)| < |RowsAbove(rows, r)|
  {
    forall x | x in RowsAbove(rows, r)
      ensures RowsAbove(rows, x) < RowsAbove(rows, r) && |RowsAbove(rows, x)| < |RowsAbove(rows, r)|
    {
      forall y | y in RowsAbove(rows, x) ensures y in RowsAbove(rows, r) { AboveIsTransitive(y, x, r); }
      AboveIsTotal(x, x);
      SubsetSize(RowsAbove(rows, x) + {x}, RowsAbove(rows, r));
    }
  }

  // How the ranks of old rows look once only the newest are left: kept rows keep theirs.
  lemma RankAmongNewest(rows: set<Row>, n: nat, r: Row)
    requires Keyed(rows) && r !in rows && Keyed(rows + {r})
    ensures |RowsAbove(rows, r)| < n ==> RowsAbove(Newest(rows, n), r) == RowsAbove(rows, r)
    ensures |RowsAbove(rows, r)| >= n ==> |RowsAbove(Newest(rows, n), r)| >= n
  {
    var above := RowsAbove(rows, r);
    AboveAmongNewest(rows, n, r);
    NewestSize(above, n);
    if |above| < n { FullSubset(Newest(above, n), above); }
  }

  lemma RanksInside(rows: set<Row>, r: Row, x: Row)
    requires x in RowsAbove(rows, r)
    ensures RowsAbove(rows, x) == RowsAbove(RowsAbove(rows, r), x)
  {
    forall y | y in RowsAbove(rows, x) ensures Above(y, r) { AboveIsTransitive(y, x, r); }
  }

  lemma AboveAmongNewest(rows: set<Row>, n: nat, r: Row)
    ensures RowsAbove(Newest(rows, n), r) == Newest(RowsAbove(rows, r), n)
  {
    hide Above;
    forall x | x in RowsAbove(rows, r) ensures x in Newest(rows, n) <==> x in Newest(RowsAbove(rows, r), n) {
      RanksInside(rows, r, x);
    }
  }

  lemma FullSubset(a: set<Row>, b: set<Row>)
    requires a <= b && |a| == |b|
    ensures a == b
  {
    assert b == a + (b - a);
  }

  /** Pruning after each insertion gives what pruning everything ever inserted once would give. */
  lemma IncrementalIsBatch(rows: set<Row>, n: nat, r: Row)
    requires Keyed(rows + {r}) && r !in rows
    ensures Newest(Newest(rows, n) + {r}, n) == Newest(rows + {r}, n)
  {
    var kept, all := Newest(rows, n), rows + {r};
    RankAmongNewest(rows, n, r);
    AboveIsTotal(r, r);
    assert RowsAbove(all, r) == RowsAbove(rows, r) && RowsAbove(kept + {r}, r) == RowsAbove(kept, r);
    forall x | x in rows ensures x in kept ==> RowsAbove(kept + {r}, x) == RowsAbove(all, x) {
      NewestIsUpward(rows, n, x);
      if x in kept {
        forall y | y in RowsAbove(rows, x) ensures y in kept {}
      }
    }
    forall x | x in rows && x !in kept ensures x !in Newest(all, n) { SubsetSize(RowsAbove(rows, x), RowsAbove(all, x)); }
  }

  // ---- runs ----

  /** One call: the row it would insert, its limit, and whether the store commits. */
  datatype Call = Call(row: Row, limit: int, commits: bool)

  predicate Inserts(table: set<Row>, c: Call) {
    && c.limit > 0 && Acceptable(c.row.request) && ValidAuditId(c.row.id) && c.commits
    && forall x :: x in table ==> x.id != c.row.id
  }

  function Recorded(table: set<Row>, c: Call): set<Row> {
    if Inserts(table, c) then Newest(table + {c.row}, c.limit) else table
  }

  datatype Log = Log(table: set<Row>, inserted: set<Row>)

  function RunLog(calls: seq<Call>): Log {
    if calls == [] then Log({}, {})
    else
      var before, c := RunLog(calls[..|calls| - 1]), calls[|calls| - 1];
      Log(Recorded(before.table, c), if Inserts(before.table, c) then before.inserted + {c.row} else before.inserted)
  }

  /** No two calls draw the same id at the same stamp. */
  predicate FreshRows(calls: seq<Call>) {
    forall i, j :: 0 <= i < j < |calls| ==> !SameKey(calls[i].row, calls[j].row)
  }

  lemma {:induction false} InsertedFrom(calls: seq<Call>)
    ensures forall x :: x in RunLog(calls).inserted ==> exists i :: 0 <= i < |calls| && calls[i].row == x
  {
    if calls != [] {
      var k := |calls| - 1;
      InsertedFrom(calls[..k]);
      forall x | x in RunLog(calls).inserted ensures exists i :: 0 <= i < |calls| && calls[i].row == x {
        if x in RunLog(calls[..k]).inserted {
          var i :| 0 <= i < k && calls[..k][i].row == x;
          assert calls[i].row == x;
        } else {
          assert calls[k].row == x;
        }
      }
    }
  }

  /** After any run with one fixed limit, failures included, the table holds exactly the newest
      of all rows ever inserted. */
  lemma {:induction false} TableIsNewestOfAll(calls: seq<Call>, n: nat)
    requires n > 0 && FreshRows(calls) && forall i :: 0 <= i < |calls| ==> calls[i].limit == n
    ensures Keyed(RunLog(calls).inserted)
    ensures RunLog(calls).table == Newest(RunLog(calls).inserted, n)
    ensures |RunLog(calls).table| == if |RunLog(calls).inserted| < n then |RunLog(calls).inserted| else n
  {
    if calls != [] {
      var k := |calls| - 1;
      var before, c := RunLog(calls[..k]), calls[k];
      TableIsNewestOfAll(calls[..k], n);
      if Inserts(before.table, c) {
        InsertedFrom(calls[..k]);
        forall x | x in before.inserted ensures !SameKey(x, c.row) && !SameKey(c.row, x) {
          var i :| 0 <= i < k && calls[..k][i].row == x;
          assert calls[i].row == x;
        }
        IncrementalIsBatch(before.inserted, n, c.row);
      }
    }
    NewestSize(RunLog(calls).inserted, n);
  }

  /** Every row in the table passes the validation of the reader. */
  lemma {:induction false} TableIsReadable(calls: seq<Call>)
    ensures forall x :: x in RunLog(calls).table ==> ValidAuditId(x.id) && Acceptable(x.request)
  {
    if calls != [] { TableIsReadable(calls[..|calls| - 1]); }
  }

  // ---- reading ----

  function Elements(rows: seq<Row>): set<Row> { set x | x in rows }

  /** A listing of the table in the order of the query. */
  predicate Listing(table: set<Row>, rows: seq<Row>) {
    && Elements(rows) == table
    && forall i, j :: 0 <= i < j < |rows| ==> Above(rows[i], rows[j])
  }

  lemma PrefixIsNewest(table: set<Row>, rows: seq<Row>, n: nat)
    requires Keyed(table) && Listing(table, rows)
    ensures Elements(rows[..if |rows| < n then |rows| else n]) == Newest(table, n)
  {
    forall k | 0 <= k < |rows| ensures |RowsAbove(table, rows[k])| == k { RankIsPosition(table, rows, k); }
    var m := if |rows| < n then |rows| else n;
    forall x ensures x in rows[..m] <==> x in Newest(table, n) {
      if x in Newest(table, n) {
        var k :| 0 <= k < |rows| && rows[k] == x;
        assert k < m && rows[..m][k] == x;
      }
      if x in rows[..m] {
        var k :| 0 <= k < m && rows[..m][k] == x;
        assert rows[k] == x && x in rows;
      }
    }
  }

  lemma {:induction false} DistinctPrefixSize(rows: seq<Row>, k: nat)
    requires k <= |rows| && forall i, j :: 0 <= i < j < |rows| ==> rows[i] != rows[j]
    ensures |Elements(rows[..k])| == k
    decreases k
  {
    if k > 0 {
      DistinctPrefixSize(rows, k - 1);
      assert rows[..k] == rows[..k - 1] + [rows[k - 1]];
      assert Elements(rows[..k]) == Elements(rows[..k - 1]) + {rows[k - 1]};
    } else {
      assert Elements(rows[..0]) == {};
    }
  }

  lemma RankIsPosition(table: set<Row>, rows: seq<Row>, k: nat)
    requires Listing(table, rows) && k < |rows|
    ensures |RowsAbove(table, rows[k])| == k
  {
    forall i, j | 0 <= i < j < |rows| ensures rows[i] != rows[j] && !Above(rows[j], rows[i]) { AboveIsTotal(rows[i], rows[j]); }
    AboveIsTotal(rows[k], rows[k]);
    forall x ensures x in RowsAbove(table, rows[k]) <==> x in rows[..k] {
      if x in RowsAbove(table, rows[k]) {
        assert x in rows;
        var i :| 0 <= i < |rows| && rows[i] == x;
        assert i < k;
        assert rows[..k][i] == x;
      }
      if x in rows[..k] {
        var i :| 0 <= i < k && rows[..k][i] == x;
        assert rows[i] == x && x in rows;
      }
    }
    assert RowsAbove(table, rows[k]) == Elements(rows[..k]);
    DistinctPrefixSize(rows, k);
  }

  const DEFAULT_LIMIT: nat := 50
  const MAX_LIMIT: nat := 500

  class AuditStore {
    var table: set<Row>

    constructor ()
      ensures table == {}
    {
      table := {};
    }

    /** Append one row and drop the oldest beyond the limit, in one transaction. */
    method RecordRequestWithLimit(id: string, created: string, v: Request, maxRecords: int, commits: bool) returns (err: bool)
      requires ValidAuditId(id)
      modifies this
      ensures table == Recorded(old(table), Call(Row(id, created, v), maxRecords, commits))
      ensures err ==> table == old(table)
      ensures !err <==> maxRecords == 0 || Inserts(old(table), Call(Row(id, created, v), maxRecords, commits))
      ensures !err <==>
                maxRecords == 0
                || (&& maxRecords > 0 && commits && (forall x :: x in old(table) ==> x.id != id)
                    && 0 < |v.requestId| <= 128 && (forall i :: 0 <= i < |v.requestId| ==> '!' <= v.requestId[i] <= '~')
                    && v.verb != "" && ByteLength(v.verb) <= 32 && v.path != "" && ByteLength(v.path) <= 2048
                    && ByteLength(v.model) <= 512 && 100 <= v.status <= 599 && v.durationMs >= 0
                    && ByteLength(v.keyId) <= 128 && ByteLength(v.remoteAddr) <= 256)
      ensures !err && maxRecords > 0 ==>
                table == set r | r in old(table) + {Row(id, created, v)} && |RowsAbove(old(table) + {Row(id, created, v)}, r)| < maxRecords
    {
      hide ValidAuditId, ByteLength;
      if maxRecords < 0 { return true; }
      if maxRecords == 0 { return false; }
      if !Acceptable(v) { return true; }
      if exists x :: x in table && x.id == id { return true; }
      var staged := table + {Row(id, created, v)};
      staged := Newest(staged, maxRecords);
      if !commits { return true; }
      table := staged;
      err := false;
    }

    /** Read back the newest rows; `cursor` is the listing the query runs through. */
    method RecentRequests(limit: int, cursor: seq<Row>) returns (out: Option<seq<Row>>)
      requires Keyed(table) && Listing(table, cursor)
      ensures var n := if limit < 1 || limit > MAX_LIMIT then DEFAULT_LIMIT else limit;
              out.Some? ==> out.value <= cursor && Elements(out.value) == Newest(table, n)
                            && forall i, j :: 0 <= i < j < |out.value| ==> Above(out.value[i], out.value[j])
      ensures var shown := if 1 <= limit <= 500 then limit else 50;
              var end := if |cursor| < shown then |cursor| else shown;
              && (out.Some? ==> out.value == cursor[..end])
              && (out.Some? <==> forall i :: 0 <= i < end ==> ValidAuditId(cursor[i].id) && Acceptable(cursor[i].request))
      ensures (forall x :: x in table ==> ValidAuditId(x.id) && Acceptable(x.request)) ==> out.Some?
      ensures out.Some? ==> forall i :: 0 <= i < |out.value| ==> ValidAuditId(out.value[i].id) && Acceptable(out.value[i].request)
    {
      hide Acceptable, ValidAuditId;
      var n: nat := if limit < 1 || limit > MAX_LIMIT then DEFAULT_LIMIT else limit;
      var end := if |cursor| < n then |cursor| else n;
      PrefixIsNewest(table, cursor, n);
      var rows: seq<Row> := [];
      for i := 0 to end
        invariant rows == cursor[..i]
        invariant forall k :: 0 <= k < i ==> ValidAuditId(cursor[k].id) && Acceptable(cursor[k].request)
      {
        var v := cursor[i];
        assert v in cursor;
        if !ValidAuditId(v.id) || !Acceptable(v.request) { return None; }
        rows := rows + [v];
      }
      out := Some(rows);
    }
  }
}
