/**
 * A relational table as the controllers see it through the ORM: a sequence of
 * rows, each with an auto-increment primary key, a `createdAt` timestamp and
 * the record's own columns. The functions here are the queries the handlers
 * issue: lookup by primary key (`findByPk`), filtering (`where`), ordering
 * (`order: [['createdAt', 'DESC']]`), and the row-level effects of `save`
 * and `destroy`.
 */
module Table {
  import opened Wrappers

  type Id = nat

  datatype Row<T> = Row(id: Id, createdAt: int, fields: T)

  /** No two distinct rows share a primary key. */
  ghost predicate UniqueIds<T>(rows: seq<Row<T>>) {
    forall x, y :: x in rows && y in rows && x.id == y.id ==> x == y
  }

  /** Every key lies below the next auto-increment value. */
  ghost predicate IdsBelow<T>(rows: seq<Row<T>>, next: Id) {
    forall x :: x in rows ==> x.id < next
  }

  /** `findByPk`: the row with the given key, if there is one. */
  function Find<T(==)>(rows: seq<Row<T>>, id: Id): (r: Option<Row<T>>)
    ensures r.Some? ==> r.value in rows && r.value.id == id
    ensures r.None? <==> forall x :: x in rows ==> x.id != id
  {
    if |rows| == 0 then None
    else if rows[0].id == id then Some(rows[0])
    else Find(rows[1..], id)
  }

  /** Inserting a row at the end leaves every existing lookup as it was. */
  lemma {:induction false} FindAfterAppend<T>(rows: seq<Row<T>>, row: Row<T>, k: Id)
    ensures Find(rows + [row], k) ==
      if Find(rows, k).Some? then Find(rows, k)
      else if row.id == k then Some(row) else None
  {
    if |rows| == 0 {
      assert rows + [row] == [row];
    } else {
      assert (rows + [row])[1..] == rows[1..] + [row];
      if rows[0].id != k {
        FindAfterAppend(rows[1..], row, k);
      }
    }
  }

  /** `save`: the row whose key is `row.id` is overwritten by `row`. */
  function Replace<T(==)>(rows: seq<Row<T>>, row: Row<T>): (r: seq<Row<T>>)
    ensures |r| == |rows|
    ensures forall x :: x in r ==> x == row || (x in rows && x.id != row.id)
  {
    if |rows| == 0 then []
    else [if rows[0].id == row.id then row else rows[0]] + Replace(rows[1..], row)
  }

  /** After a `save`, the saved key finds the new row and every other key finds what it found before. */
  lemma {:induction false} FindAfterReplace<T>(rows: seq<Row<T>>, row: Row<T>, k: Id)
    ensures Find(Replace(rows, row), k) ==
      if k == row.id && Find(rows, k).Some? then Some(row) else Find(rows, k)
  {
    if |rows| > 0 {
      var head := if rows[0].id == row.id then row else rows[0];
      assert Replace(rows, row) == [head] + Replace(rows[1..], row);
      assert ([head] + Replace(rows[1..], row))[1..] == Replace(rows[1..], row);
      if rows[0].id != k {
        FindAfterReplace(rows[1..], row, k);
      }
    }
  }

  /** `destroy`: every row with key `id` is removed, the others kept in order. */
  function Without<T(==,!new)>(rows: seq<Row<T>>, id: Id): (r: seq<Row<T>>)
    ensures forall x :: multiset(r)[x] == if x.id == id then 0 else multiset(rows)[x]
    ensures forall x :: x in r ==> x in rows && x.id != id
  {
    if |rows| == 0 then []
    else
      assert rows == [rows[0]] + rows[1..];
      (if rows[0].id == id then [] else [rows[0]]) + Without(rows[1..], id)
  }

  /** After a `destroy`, the removed key finds nothing and every other key finds what it found before. */
  lemma {:induction false} FindAfterWithout<T(!new)>(rows: seq<Row<T>>, id: Id, k: Id)
    ensures Find(Without(rows, id), k) == if k == id then None else Find(rows, k)
  {
    if |rows| > 0 {
      var rest := Without(rows[1..], id);
      FindAfterWithout(rows[1..], id, k);
      if rows[0].id == id {
        assert Without(rows, id) == rest;
      } else {
        assert Without(rows, id) == [rows[0]] + rest;
        assert ([rows[0]] + rest)[1..] == rest;
      }
    }
  }

  /** `where`: the rows that satisfy `p`, each as often as in `rows`. */
  function Where<T(==,!new)>(rows: seq<T>, p: T -> bool): (r: seq<T>)
    ensures forall x :: multiset(r)[x] == if p(x) then multiset(rows)[x] else 0
    ensures forall x :: x in r ==> x in rows && p(x)
  {
    if |rows| == 0 then []
    else
      assert rows == [rows[0]] + rows[1..];
      (if p(rows[0]) then [rows[0]] else []) + Where(rows[1..], p)
  }

  /** `order: [['createdAt', 'DESC']]`: no row is newer than one before it. */
  ghost predicate NewestFirst<T>(rows: seq<Row<T>>) {
    forall i, j :: 0 <= i < j < |rows| ==> rows[i].createdAt >= rows[j].createdAt
  }

  /** A row no older than any of `rest` may be put in front of it. */
  lemma NewestFirstCons<T>(head: Row<T>, rest: seq<Row<T>>)
    requires NewestFirst(rest)
    requires forall y :: y in rest ==> y.createdAt <= head.createdAt
    ensures NewestFirst([head] + rest)
  {
    var r := [head] + rest;
    forall i, j | 0 <= i < j < |r|
      ensures r[i].createdAt >= r[j].createdAt
    {
      assert r[j] == rest[j - 1];
      if i > 0 {
        assert r[i] == rest[i - 1];
      }
    }
  }

  /** Every row of `rows[1..]` is no newer than `rows[0]`. */
  lemma HeadIsNewest<T>(rows: seq<Row<T>>, y: Row<T>)
    requires NewestFirst(rows) && |rows| > 0 && y in rows[1..]
    ensures y.createdAt <= rows[0].createdAt
  {
    var k :| 0 <= k < |rows| - 1 && rows[1..][k] == y;
    assert rows[k + 1] == y;
  }

  /** Places `x` into rows already ordered newest first. */
  function InsertByCreated<T(==)>(x: Row<T>, rows: seq<Row<T>>): (r: seq<Row<T>>)
    requires NewestFirst(rows)
    ensures NewestFirst(r)
    ensures multiset(r) == multiset(rows) + multiset{x}
  {
    if |rows| == 0 || x.createdAt >= rows[0].createdAt then
      InsertInFront(x, rows);
      [x] + rows
    else
      var rest := InsertByCreated(x, rows[1..]);
      InsertBehind(x, rows, rest);
      [rows[0]] + rest
  }

  lemma InsertInFront<T>(x: Row<T>, rows: seq<Row<T>>)
    requires NewestFirst(rows)
    requires |rows| == 0 || x.createdAt >= rows[0].createdAt
    ensures NewestFirst([x] + rows)
  {
    forall y | y in rows
      ensures y.createdAt <= x.createdAt
    {
      if y != rows[0] {
        HeadIsNewest(rows, y);
      }
    }
    NewestFirstCons(x, rows);
  }

  lemma InsertBehind<T>(x: Row<T>, rows: seq<Row<T>>, rest: seq<Row<T>>)
    requires NewestFirst(rows) && |rows| > 0 && x.createdAt < rows[0].createdAt
    requires NewestFirst(rest) && multiset(rest) == multiset(rows[1..]) + multiset{x}
    ensures NewestFirst([rows[0]] + rest)
    ensures multiset([rows[0]] + rest) == multiset(rows) + multiset{x}
  {
    assert rows == [rows[0]] + rows[1..];
    forall y | y in rest
      ensures y.createdAt <= rows[0].createdAt
    {
      assert y in multiset(rest);
      if y != x {
        HeadIsNewest(rows, y);
      }
    }
    NewestFirstCons(rows[0], rest);
  }

  /** The rows ordered by `createdAt`, newest first; rows created at the same time may come in any order. */
  function SortNewestFirst<T(==)>(rows: seq<Row<T>>): (r: seq<Row<T>>)
    ensures NewestFirst(r)
    ensures multiset(r) == multiset(rows)
  {
    if |rows| == 0 then []
    else
      assert rows == [rows[0]] + rows[1..];
      InsertByCreated(rows[0], SortNewestFirst(rows[1..]))
  }
}
