/** The PostgreSQL-backed repository of v1/named_tag_list_repository.go. The `named_tag_lists`
    table is a sequence of rows; each method is the one parameterised statement the source
    sends, and `= ANY($n)` is membership in the bound list. */
module NamedTagListStore {
  import opened Base
  import opened Entities

  /** A row of `named_tag_lists`. No key constraint is assumed: two rows may share an id. */
  datatype Row = Row(id: string, name: string, tags: seq<string>, bucket: string)

  /** The columns `select "id", "name", "tags"` reads back. */
  function Columns(row: Row): NamedTagList
  {
    NamedTagList(row.id, row.name, row.tags)
  }

  /** The row `insert ... values ($1, $2, $3, $4)` stores for a record and a bucket. */
  function RowOf(bucket: string, ntl: NamedTagList): (row: Row)
    ensures Columns(row) == ntl && row.bucket == bucket
  {
    Row(ntl.id, ntl.name, ntl.tags, bucket)
  }

  /** The two `where` clauses the repository uses. */
  datatype Where = BucketIn(buckets: seq<string>) | IdIn(ids: seq<string>)

  predicate Holds(w: Where, row: Row)
  {
    match w
    case BucketIn(buckets) => row.bucket in buckets
    case IdIn(ids) => row.id in ids
  }

  /** The rows for which the clause evaluates to `keep`, in table order: with `keep` the rows a
      `select ... where` yields, without it the rows a `delete ... where` leaves. */
  function Filter(rows: seq<Row>, w: Where, keep: bool): (r: seq<Row>)
    ensures |r| <= |rows|
  {
    if rows == [] then []
    else if Holds(w, rows[0]) == keep then [rows[0]] + Filter(rows[1..], w, keep)
    else Filter(rows[1..], w, keep)
  }

  /** Filtering keeps every row for which the clause evaluates to `keep`, as often as the
      table holds it, and drops every other row. */
  lemma {:induction false} FilterKeepsExactly(rows: seq<Row>, w: Where, keep: bool)
    ensures forall row :: multiset(Filter(rows, w, keep))[row]
              == if Holds(w, row) == keep then multiset(rows)[row] else 0
    ensures forall row :: row in Filter(rows, w, keep) <==> row in rows && Holds(w, row) == keep
  {
    if rows != [] {
      FilterKeepsExactly(rows[1..], w, keep);
      assert rows == [rows[0]] + rows[1..];
    }
  }

  /** The columns of each row, in order. */
  function Projected(rows: seq<Row>): seq<NamedTagList>
  {
    seq(|rows|, i requires 0 <= i < |rows| => Columns(rows[i]))
  }

  /** What `FindAll(buckets)` returns when nothing fails. */
  function Selected(rows: seq<Row>, buckets: seq<string>): (r: seq<NamedTagList>)
    ensures |r| <= |rows|
  {
    Projected(Filter(rows, BucketIn(buckets), true))
  }

  /** `update ... set "name" = $1, "tags" = $2 where "id" = ANY($3)`: every row whose id is
      listed gets the new name and tags; ids, buckets and all other rows stay as they were. */
  function Replaced(rows: seq<Row>, ids: seq<string>, name: string, tags: seq<string>): (r: seq<Row>)
    ensures |r| == |rows|
    ensures forall i :: 0 <= i < |rows| ==> r[i].id == rows[i].id && r[i].bucket == rows[i].bucket
    ensures forall i :: 0 <= i < |rows| && rows[i].id in ids ==> r[i].name == name && r[i].tags == tags
    ensures forall i :: 0 <= i < |rows| && rows[i].id !in ids ==> r[i] == rows[i]
  {
    seq(|rows|, i requires 0 <= i < |rows| =>
      if rows[i].id in ids then rows[i].(name := name, tags := tags) else rows[i])
  }

  /** Filtering commutes with appending a row at the end of the table. */
  lemma {:induction false} FilterAppend(rows: seq<Row>, row: Row, w: Where, keep: bool)
    ensures Filter(rows + [row], w, keep) == Filter(rows, w, keep) + (if Holds(w, row) == keep then [row] else [])
  {
    if rows == [] {
      assert rows + [row] == [row];
    } else {
      assert (rows + [row])[1..] == rows[1..] + [row];
      FilterAppend(rows[1..], row, w, keep);
    }
  }

  /** `FindAll` with an empty bucket list returns no record, never every record. */
  lemma FindAllWithoutBucketsIsEmpty(rows: seq<Row>)
    ensures Selected(rows, []) == []
  {
    FilterKeepsExactly(rows, BucketIn([]), true);
  }

  /** `FindAll(buckets)` returns the columns of exactly the rows whose bucket is listed. */
  lemma FindAllReturnsListedBuckets(rows: seq<Row>, buckets: seq<string>)
    ensures forall i :: 0 <= i < |rows| && rows[i].bucket in buckets ==> Columns(rows[i]) in Selected(rows, buckets)
    ensures forall x :: x in Selected(rows, buckets) ==>
              exists i :: 0 <= i < |rows| && rows[i].bucket in buckets && Columns(rows[i]) == x
  {
    var r := Filter(rows, BucketIn(buckets), true);
    FilterKeepsExactly(rows, BucketIn(buckets), true);
    forall i | 0 <= i < |rows| && rows[i].bucket in buckets
      ensures Columns(rows[i]) in Selected(rows, buckets)
    {
      assert rows[i] in r;
      var j :| 0 <= j < |r| && r[j] == rows[i];
      assert Selected(rows, buckets)[j] == Columns(rows[i]);
    }
    forall x | x in Selected(rows, buckets)
      ensures exists i :: 0 <= i < |rows| && rows[i].bucket in buckets && Columns(rows[i]) == x
    {
      var j :| 0 <= j < |r| && Selected(rows, buckets)[j] == x;
      assert r[j] in rows;
      var i :| 0 <= i < |rows| && rows[i] == r[j];
    }
  }

  /** Creating a record in a bucket and then listing that bucket returns what was listed
      before and the record, its id, name and tags exactly as given; into a bucket with no
      rows, the record alone. The query has no `order by`, so PostgreSQL promises no order;
      "followed by" holds for this model, whose table lists rows in insertion order. */
  lemma CreateThenFindAll(rows: seq<Row>, bucket: string, ntl: NamedTagList)
    ensures Selected(rows + [RowOf(bucket, ntl)], [bucket]) == Selected(rows, [bucket]) + [ntl]
    ensures (forall row :: row in rows ==> row.bucket != bucket) ==>
              Selected(rows + [RowOf(bucket, ntl)], [bucket]) == [ntl]
  {
    FilterAppend(rows, RowOf(bucket, ntl), BucketIn([bucket]), true);
    var before := Filter(rows, BucketIn([bucket]), true);
    assert Projected(before + [RowOf(bucket, ntl)]) == Projected(before) + [ntl];
    if forall row :: row in rows ==> row.bucket != bucket {
      FilterKeepsExactly(rows, BucketIn([bucket]), true);
      if before != [] {
        assert before[0] in before;
      }
    }
  }

  /** Replacing ids that no row has changes nothing. */
  lemma ReplaceWithoutMatchChangesNothing(rows: seq<Row>, ids: seq<string>, name: string, tags: seq<string>)
    requires forall row :: row in rows ==> row.id !in ids
    ensures Replaced(rows, ids, name, tags) == rows
  {
  }

  /** How the driver behaves during `FindAll`: the query itself fails, the scan of the result
      row at `index` fails, or the row stream stops early at `index` (an error that `rows.Next`
      reports only through `rows.Err`, which the source never consults). */
  datatype QueryFault =
    | NoFault
    | QueryFailed(error: DbError)
    | ScanFailedAt(index: nat, error: DbError)
    | StreamEndedAt(index: nat)

  class NamedTagListRepository {
    var rows: seq<Row>

    /** `NewNamedTagListRepository(pool)`, over a table holding `table`. */
    constructor (table: seq<Row>)
      ensures rows == table
    {
      rows := table;
    }

    /** `FindAll(buckets)`: the (id, name, tags) of the rows whose bucket is listed, in the
        order the server returns them (modelled as table order; the source has no ORDER BY).
        Reads only. On a query or scan failure it returns no list and the error; a stream that
        ends early yields the rows read so far and no error. */
    method FindAll(buckets: seq<string>, fault: QueryFault) returns (lists: Option<seq<NamedTagList>>, err: Option<DbError>)
      ensures fault.NoFault? ==> lists == Some(Selected(rows, buckets)) && err == None
      ensures fault.QueryFailed? ==> lists == None && err == Some(fault.error)
      ensures fault.ScanFailedAt? ==>
        if fault.index < |Selected(rows, buckets)| then lists == None && err == Some(fault.error)
        else lists == Some(Selected(rows, buckets)) && err == None
      ensures fault.StreamEndedAt? ==>
        err == None &&
        lists == Some(if fault.index < |Selected(rows, buckets)| then Selected(rows, buckets)[..fault.index]
                      else Selected(rows, buckets))
    {
      if fault.QueryFailed? {
        return None, Some(fault.error);
      }
      var result := Filter(rows, BucketIn(buckets), true);
      var namedTagLists: seq<NamedTagList> := [];
      var i := 0;
      while i < |result| && !(fault.StreamEndedAt? && fault.index == i)
        invariant 0 <= i <= |result|
        invariant fault.StreamEndedAt? ==> i <= fault.index
        invariant fault.ScanFailedAt? ==> i <= fault.index
        invariant namedTagLists == Projected(result)[..i]
      {
        if fault.ScanFailedAt? && fault.index == i {
          return None, Some(fault.error);
        }
        namedTagLists := namedTagLists + [Columns(result[i])];
        i := i + 1;
      }
      assert i == |result| ==> Projected(result)[..i] == Projected(result);
      return Some(namedTagLists), None;
    }

    /** `Create(bucket, ntl)`: inserts one row with the record's id, name and tags (in their
        order) under `bucket`; on failure the table is unchanged. */
    method Create(bucket: string, ntl: NamedTagList, failure: Option<DbError>) returns (err: Option<DbError>)
      modifies this
      ensures err == failure
      ensures rows == if failure.None? then old(rows) + [RowOf(bucket, ntl)] else old(rows)
    {
      err := failure;
      if failure.None? {
        rows := rows + [RowOf(bucket, ntl)];
      }
    }

    /** `ReplaceByIds(ids, ntl)`: sets the name and tags of every row whose id is listed; the
        record's own id is not used, and no row's id or bucket changes. */
    method ReplaceByIds(ids: seq<string>, ntl: NamedTagList, failure: Option<DbError>) returns (err: Option<DbError>)
      modifies this
      ensures err == failure
      ensures rows == if failure.None? then Replaced(old(rows), ids, ntl.name, ntl.tags) else old(rows)
    {
      err := failure;
      if failure.None? {
        rows := Replaced(rows, ids, ntl.name, ntl.tags);
      }
    }

    /** `DeleteAll(buckets)`: removes exactly the rows whose bucket is listed. */
    method DeleteAll(buckets: seq<string>, failure: Option<DbError>) returns (err: Option<DbError>)
      modifies this
      ensures err == failure
      ensures rows == if failure.None? then Filter(old(rows), BucketIn(buckets), false) else old(rows)
      ensures forall row :: multiset(rows)[row]
                == if failure.None? && row.bucket in buckets then 0 else multiset(old(rows))[row]
    {
      err := failure;
      if failure.None? {
        FilterKeepsExactly(rows, BucketIn(buckets), false);
        rows := Filter(rows, BucketIn(buckets), false);
      }
    }

    /** `DeleteByIds(ids)`: removes exactly the rows whose id is listed. */
    method DeleteByIds(ids: seq<string>, failure: Option<DbError>) returns (err: Option<DbError>)
      modifies this
      ensures err == failure
      ensures rows == if failure.None? then Filter(old(rows), IdIn(ids), false) else old(rows)
      ensures forall row :: multiset(rows)[row]
                == if failure.None? && row.id in ids then 0 else multiset(old(rows))[row]
    {
      err := failure;
      if failure.None? {
        FilterKeepsExactly(rows, IdIn(ids), false);
        rows := Filter(rows, IdIn(ids), false);
      }
    }
  }

  /** Records created in bucket "red" and in bucket "blue"; listing bucket "blue" returns
      only the "blue" record, and deleting bucket "red" leaves it in place. */
  method BucketIsolationScenario(red: NamedTagList, blue: NamedTagList)
    returns (listed: Option<seq<NamedTagList>>, remaining: seq<Row>)
    ensures listed == Some([blue])
    ensures remaining == [RowOf("blue", blue)]
  {
    var repository := new NamedTagListRepository([]);
    var _ := repository.Create("red", red, None);
    var _ := repository.Create("blue", blue, None);
    CreateThenFindAll([RowOf("red", red)], "blue", blue);
    var err;
    listed, err := repository.FindAll(["blue"], NoFault);
    err := repository.DeleteAll(["red"], None);
    assert [RowOf("red", red), RowOf("blue", blue)] == [RowOf("red", red)] + [RowOf("blue", blue)];
    FilterAppend([RowOf("red", red)], RowOf("blue", blue), BucketIn(["red"]), false);
    remaining := repository.rows;
  }
}
