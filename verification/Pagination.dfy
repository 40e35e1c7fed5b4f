/**
 The order list, page by page. A page resumes after the last row of the page
 before it, by sort value and then id; the cursor carries that value as it was
 printed, which for a timestamp keeps milliseconds of the microseconds stored.
 */
module Pagination {
  import opened Wrappers

  /** An order as the list sees it; `createdAt` is in microseconds and `facts` is whatever else the filters look at. */
  datatype Row = Row(id: nat, createdAt: int, totalMinor: int, facts: int)

  datatype Field = CreatedAt | TotalMinor

  datatype Sort = Sort(field: Field, descending: bool)

  datatype Key = Key(value: int, id: nat)

  datatype Cursor = Cursor(sort: Sort, value: int, id: nat)

  datatype Page = Page(rows: seq<Row>, next: Option<Cursor>)

  type Filter = Row -> bool

  // ----- Keys and cursors -----

  function KeyOf(row: Row, sort: Sort): Key {
    Key(if sort.field.TotalMinor? then row.totalMinor else row.createdAt, row.id)
  }

  /** The sort value as it is printed: a timestamp loses its microseconds. */
  function SortValueOf(row: Row, sort: Sort): int {
    if sort.field.TotalMinor? then row.totalMinor else row.createdAt - row.createdAt % 1000
  }

  predicate Less(a: Key, b: Key) {
    a.value < b.value || (a.value == b.value && a.id < b.id)
  }

  /** `a` comes strictly before `b` in the list. */
  predicate Comes(sort: Sort, a: Key, b: Key) {
    if sort.descending then Less(b, a) else Less(a, b)
  }

  const MAX_SAFE_INTEGER := 0x1F_FFFF_FFFF_FFFF

  /** The sort prints values of this form. */
  predicate IsIssuable(sort: Sort, value: int) {
    if sort.field.TotalMinor? then -MAX_SAFE_INTEGER <= value <= MAX_SAFE_INTEGER else value % 1000 == 0
  }

  /** A cursor is good only for the sort it was issued under. */
  function DecodeCursor(cursor: Cursor, sort: Sort): Result<Key, string> {
    if cursor.sort != sort then Err("VALIDATION_FAILED")
    else if !IsIssuable(sort, cursor.value) then Err("VALIDATION_FAILED")
    else Ok(Key(cursor.value, cursor.id))
  }

  function EncodeCursor(sort: Sort, row: Row): Cursor {
    Cursor(sort, SortValueOf(row, sort), row.id)
  }

  /** Every cursor the list issues is accepted again for its own sort, and for no other. */
  lemma CursorRoundTrip(sort: Sort, other: Sort, row: Row)
    requires -0x8000_0000 <= row.totalMinor < 0x8000_0000
    ensures DecodeCursor(EncodeCursor(sort, row), sort) == Ok(Key(SortValueOf(row, sort), row.id))
    ensures DecodeCursor(EncodeCursor(sort, row), other).Ok? <==> other == sort
  {
    assert (row.createdAt - row.createdAt % 1000) % 1000 == 0;
  }

  // ----- One page -----

  predicate After(sort: Sort, cursor: Option<Cursor>, row: Row) {
    cursor.None? || Comes(sort, Key(cursor.value.value, cursor.value.id), KeyOf(row, sort))
  }

  function Matching(table: seq<Row>, keep: Filter, sort: Sort, cursor: Option<Cursor>): seq<Row> {
    if table == [] then [] else
      var last := table[|table| - 1];
      Matching(table[..|table| - 1], keep, sort, cursor) + if keep(last) && After(sort, cursor, last) then [last] else []
  }

  predicate InOrder(rows: seq<Row>, sort: Sort) {
    forall i, j :: 0 <= i < j < |rows| ==> Comes(sort, KeyOf(rows[i], sort), KeyOf(rows[j], sort))
  }

  function Insert(row: Row, rows: seq<Row>, sort: Sort): seq<Row> {
    if rows == [] || Comes(sort, KeyOf(row, sort), KeyOf(rows[0], sort)) then [row] + rows
    else [rows[0]] + Insert(row, rows[1..], sort)
  }

  function Ordered(rows: seq<Row>, sort: Sort): seq<Row> {
    if rows == [] then [] else Insert(rows[|rows| - 1], Ordered(rows[..|rows| - 1], sort), sort)
  }

  function Take(rows: seq<Row>, n: nat): seq<Row> {
    if |rows| <= n then rows else rows[..n]
  }

  /** Everything still to come after a cursor. */
  function Remaining(table: seq<Row>, keep: Filter, sort: Sort, cursor: Option<Cursor>): seq<Row> {
    Ordered(Matching(table, keep, sort, cursor), sort)
  }

  /** A row beyond the limit is fetched only to see whether another page follows. */
  function List(table: seq<Row>, keep: Filter, sort: Sort, limit: nat, cursor: Option<Cursor>): Page {
    var rows := Take(Remaining(table, keep, sort, cursor), limit + 1);
    var page := Take(rows, limit);
    Page(page, if |rows| > limit && page != [] then Some(EncodeCursor(sort, page[|page| - 1])) else None)
  }

  // ----- Tables and their order -----

  ghost predicate UniqueIds(table: seq<Row>) {
    forall i, j :: 0 <= i < j < |table| ==> table[i].id != table[j].id
  }

  lemma ComesTotal(sort: Sort, a: Key, b: Key)
    ensures a == b || Comes(sort, a, b) || Comes(sort, b, a)
    ensures !(Comes(sort, a, b) && Comes(sort, b, a)) && !Comes(sort, a, a)
  {
  }

  lemma ComesTransitive(sort: Sort, a: Key, b: Key, c: Key)
    requires Comes(sort, a, b) && Comes(sort, b, c)
    ensures Comes(sort, a, c)
  {
  }

  lemma {:induction false} MatchingIs(table: seq<Row>, keep: Filter, sort: Sort, cursor: Option<Cursor>)
    ensures forall r :: r in Matching(table, keep, sort, cursor) <==> r in table && keep(r) && After(sort, cursor, r)
    ensures UniqueIds(table) ==> UniqueIds(Matching(table, keep, sort, cursor))
  {
    if table != [] {
      var init, last := table[..|table| - 1], table[|table| - 1];
      MatchingIs(init, keep, sort, cursor);
      assert table == init + [last];
      var m := Matching(init, keep, sort, cursor);
      if UniqueIds(table) {
        forall i | 0 <= i < |m| ensures m[i].id != last.id {
          assert m[i] in init;
        }
      }
    }
  }

  lemma {:induction false} InsertIs(row: Row, rows: seq<Row>, sort: Sort)
    requires InOrder(rows, sort) && forall i :: 0 <= i < |rows| ==> rows[i].id != row.id
    ensures InOrder(Insert(row, rows, sort), sort)
    ensures forall r :: r in Insert(row, rows, sort) <==> r == row || r in rows
  {
    if rows != [] {
      ComesTotal(sort, KeyOf(row, sort), KeyOf(rows[0], sort));
      assert rows == [rows[0]] + rows[1..];
      if Comes(sort, KeyOf(row, sort), KeyOf(rows[0], sort)) {
        forall j | 0 < j < |rows| ensures Comes(sort, KeyOf(row, sort), KeyOf(rows[j], sort)) {
          ComesTransitive(sort, KeyOf(row, sort), KeyOf(rows[0], sort), KeyOf(rows[j], sort));
        }
      } else {
        InsertIs(row, rows[1..], sort);
        var rest := Insert(row, rows[1..], sort);
        forall j | 0 <= j < |rest| ensures Comes(sort, KeyOf(rows[0], sort), KeyOf(rest[j], sort)) {
          assert rest[j] in rest;
          if rest[j] != row {
            var i :| 0 <= i < |rows[1..]| && rows[1..][i] == rest[j];
            assert rows[i + 1] == rest[j];
          }
        }
      }
    }
  }

  lemma {:induction false} OrderedIs(rows: seq<Row>, sort: Sort)
    requires UniqueIds(rows)
    ensures InOrder(Ordered(rows, sort), sort)
    ensures forall r :: r in Ordered(rows, sort) <==> r in rows
  {
    if rows != [] {
      var init, last := rows[..|rows| - 1], rows[|rows| - 1];
      OrderedIs(init, sort);
      assert rows == init + [last];
      var o := Ordered(init, sort);
      forall i | 0 <= i < |o| ensures o[i].id != last.id {
        assert o[i] in init;
      }
      InsertIs(last, o, sort);
    }
  }

  lemma RemainingIs(table: seq<Row>, keep: Filter, sort: Sort, cursor: Option<Cursor>)
    requires UniqueIds(table)
    ensures var rest := Remaining(table, keep, sort, cursor);
            && InOrder(rest, sort)
            && forall r :: r in rest <==> r in table && keep(r) && After(sort, cursor, r)
  {
    MatchingIs(table, keep, sort, cursor);
    OrderedIs(Matching(table, keep, sort, cursor), sort);
  }

  /** A list in order is determined by its members. */
  lemma {:induction false} InOrderUnique(a: seq<Row>, b: seq<Row>, sort: Sort)
    requires InOrder(a, sort) && InOrder(b, sort) && forall r :: r in a <==> r in b
    ensures a == b
  {
    assert b != [] ==> b[0] in b;
    if a != [] {
      assert a[0] in b;
      assert b[0] in a;
      FirstAgree(a, b, sort);
      TailMembers(a, sort);
      TailMembers(b, sort);
      InOrderUnique(a[1..], b[1..], sort);
      assert a == [a[0]] + a[1..] && b == [b[0]] + b[1..];
    }
  }

  lemma FirstAgree(a: seq<Row>, b: seq<Row>, sort: Sort)
    requires InOrder(a, sort) && InOrder(b, sort) && a != [] && b != [] && a[0] in b && b[0] in a
    ensures a[0] == b[0]
  {
    var i :| 0 <= i < |b| && b[i] == a[0];
    var j :| 0 <= j < |a| && a[j] == b[0];
    ComesTotal(sort, KeyOf(a[0], sort), KeyOf(b[0], sort));
  }

  lemma TailMembers(a: seq<Row>, sort: Sort)
    requires InOrder(a, sort) && a != []
    ensures InOrder(a[1..], sort) && forall r :: r in a[1..] <==> r in a && r != a[0]
  {
    forall r | r in a && r != a[0] ensures r in a[1..] {
      var i :| 0 <= i < |a| && a[i] == r;
      assert a[1..][i - 1] == r;
    }
    forall i | 0 <= i < |a[1..]| ensures a[1..][i] in a && a[1..][i] != a[0] {
      ComesTotal(sort, KeyOf(a[0], sort), KeyOf(a[i + 1], sort));
    }
  }

  /** One page: the first rows still to come, and a cursor at the last of them if there are more. */
  lemma PageIs(table: seq<Row>, keep: Filter, sort: Sort, limit: nat, cursor: Option<Cursor>)
    requires limit > 0
    ensures var page, rest := List(table, keep, sort, limit, cursor), Remaining(table, keep, sort, cursor);
            && page.rows == (if |rest| <= limit then rest else rest[..limit])
            && page.next == if |rest| > limit then Some(EncodeCursor(sort, rest[limit - 1])) else None
  {
    var rest := Remaining(table, keep, sort, cursor);
    if |rest| > limit {
      assert rest[..limit + 1][..limit] == rest[..limit] || |rest| == limit + 1;
    }
  }

  /** A page runs in the order asked for: by creation or by total, up or down, and by id among equals. */
  lemma PageRuns(table: seq<Row>, keep: Filter, sort: Sort, limit: nat, cursor: Option<Cursor>, i: nat, j: nat)
    requires limit > 0 && UniqueIds(table) && i < j < |List(table, keep, sort, limit, cursor).rows|
    ensures var a, b := List(table, keep, sort, limit, cursor).rows[i], List(table, keep, sort, limit, cursor).rows[j];
            && (sort == Sort(CreatedAt, true) ==> a.createdAt > b.createdAt || (a.createdAt == b.createdAt && a.id > b.id))
            && (sort == Sort(CreatedAt, false) ==> a.createdAt < b.createdAt || (a.createdAt == b.createdAt && a.id < b.id))
            && (sort == Sort(TotalMinor, true) ==> a.totalMinor > b.totalMinor || (a.totalMinor == b.totalMinor && a.id > b.id))
            && (sort == Sort(TotalMinor, false) ==> a.totalMinor < b.totalMinor || (a.totalMinor == b.totalMinor && a.id < b.id))
  {
    RemainingIs(table, keep, sort, cursor);
    PageIs(table, keep, sort, limit, cursor);
    var rest := Remaining(table, keep, sort, cursor);
    assert Comes(sort, KeyOf(rest[i], sort), KeyOf(rest[j], sort));
  }

  /** A cursor is accepted exactly for its own sort and with a value that sort prints: a total JavaScript holds exactly, or whole milliseconds. */
  lemma CursorAcceptedIff(cursor: Cursor, sort: Sort)
    ensures DecodeCursor(cursor, sort).Ok? <==>
            && cursor.sort == sort
            && (sort.field == TotalMinor ==> -9007199254740991 <= cursor.value <= 9007199254740991)
            && (sort.field == CreatedAt ==> cursor.value % 1000 == 0)
    ensures DecodeCursor(cursor, sort) == Ok(Key(cursor.value, cursor.id)) || DecodeCursor(cursor, sort) == Err("VALIDATION_FAILED")
  {
  }

  // ----- Fixed data -----

  /** The printed sort value is the stored one. */
  predicate Exact(row: Row, sort: Sort) {
    SortValueOf(row, sort) == KeyOf(row, sort).value
  }

  /** With an exact cursor, the next page starts where this one stopped. */
  lemma ResumesWhereItStopped(table: seq<Row>, keep: Filter, sort: Sort, cursor: Option<Cursor>, k: nat)
    requires UniqueIds(table) && 0 < k <= |Remaining(table, keep, sort, cursor)|
    requires Exact(Remaining(table, keep, sort, cursor)[k - 1], sort)
    ensures var rest := Remaining(table, keep, sort, cursor);
            Remaining(table, keep, sort, Some(EncodeCursor(sort, rest[k - 1]))) == rest[k..]
  {
    ResumesIff(table, keep, sort, cursor, k);
  }

  lemma LaterIsAfter(sort: Sort, cursor: Option<Cursor>, a: Row, b: Row)
    requires After(sort, cursor, a) && Comes(sort, KeyOf(a, sort), KeyOf(b, sort))
    ensures After(sort, cursor, b)
  {
    if cursor.Some? {
      ComesTransitive(sort, Key(cursor.value.value, cursor.value.id), KeyOf(a, sort), KeyOf(b, sort));
    }
  }

  ghost predicate AllExact(table: seq<Row>, sort: Sort) {
    forall i :: 0 <= i < |table| ==> Exact(table[i], sort)
  }

  lemma ExactLast(table: seq<Row>, keep: Filter, sort: Sort, cursor: Option<Cursor>, k: nat)
    requires UniqueIds(table) && AllExact(table, sort) && 0 < k <= |Remaining(table, keep, sort, cursor)|
    ensures Exact(Remaining(table, keep, sort, cursor)[k - 1], sort)
  {
    RemainingIs(table, keep, sort, cursor);
    assert Remaining(table, keep, sort, cursor)[k - 1] in table;
  }

  /** Following `next` from a cursor until there is none. */
  function Traverse(table: seq<Row>, keep: Filter, sort: Sort, limit: nat, cursor: Option<Cursor>): seq<Row>
    requires limit > 0 && UniqueIds(table) && AllExact(table, sort)
    decreases |Remaining(table, keep, sort, cursor)|
  {
    PageIs(table, keep, sort, limit, cursor);
    var page := List(table, keep, sort, limit, cursor);
    if page.next.None? then page.rows else
      ExactLast(table, keep, sort, cursor, limit);
      ResumesWhereItStopped(table, keep, sort, cursor, limit);
      page.rows + Traverse(table, keep, sort, limit, page.next)
  }

  /**
   On fixed data, following `next` from the first page terminates and yields the
   sorted, filtered list exactly once, ties included.
   */
  lemma {:induction false} TraversalIsComplete(table: seq<Row>, keep: Filter, sort: Sort, limit: nat, cursor: Option<Cursor>)
    requires limit > 0 && UniqueIds(table) && AllExact(table, sort)
    ensures Traverse(table, keep, sort, limit, cursor) == Remaining(table, keep, sort, cursor)
    decreases |Remaining(table, keep, sort, cursor)|
  {
    var page := List(table, keep, sort, limit, cursor);
    PageIs(table, keep, sort, limit, cursor);
    if page.next.Some? {
      ExactTail(table, keep, sort, limit, cursor);
      TraversalIsComplete(table, keep, sort, limit, page.next);
    }
  }

  lemma ExactTail(table: seq<Row>, keep: Filter, sort: Sort, limit: nat, cursor: Option<Cursor>)
    requires UniqueIds(table) && AllExact(table, sort) && 0 < limit < |Remaining(table, keep, sort, cursor)|
    ensures var page, rest := List(table, keep, sort, limit, cursor), Remaining(table, keep, sort, cursor);
            page.rows + Remaining(table, keep, sort, page.next) == rest && Remaining(table, keep, sort, page.next) == rest[limit..]
  {
    var rest := Remaining(table, keep, sort, cursor);
    PageIs(table, keep, sort, limit, cursor);
    ExactLast(table, keep, sort, cursor, limit);
    ResumesWhereItStopped(table, keep, sort, cursor, limit);
    assert rest == rest[..limit] + rest[limit..];
  }

  // ----- Data that changes between pages -----

  function CursorAt(pages: seq<Page>, k: nat): Option<Cursor>
    requires k <= |pages|
  {
    if k == 0 then None else pages[k - 1].next
  }

  /** Page k was answered from the table as it was at that time, resuming after page k - 1. */
  ghost predicate Walk(tables: seq<seq<Row>>, pages: seq<Page>, keep: Filter, sort: Sort, limit: nat) {
    && |tables| == |pages| > 0 && limit > 0
    && (forall k :: 0 <= k < |tables| ==> UniqueIds(tables[k]) && AllExact(tables[k], sort))
    && (forall k :: 0 <= k < |pages| - 1 ==> pages[k].next.Some?)
    && (forall k :: 0 <= k < |pages| ==> pages[k] == List(tables[k], keep, sort, limit, CursorAt(pages, k)))
  }

  /** An order present, matching and with the same sort value. */
  ghost predicate Present(table: seq<Row>, keep: Filter, sort: Sort, key: Key) {
    exists i :: 0 <= i < |table| && KeyOf(table[i], sort) == key && keep(table[i])
  }

  ghost predicate OnPage(page: Page, id: nat) {
    exists i :: 0 <= i < |page.rows| && page.rows[i].id == id
  }

  /** The cursor is at the order or past it. */
  ghost predicate Passed(sort: Sort, cursor: Option<Cursor>, key: Key) {
    cursor.Some? && !Comes(sort, Key(cursor.value.value, cursor.value.id), key)
  }

  /** Of a table, the one row that can stand on a page under this id. */
  lemma PageShowsRow(table: seq<Row>, keep: Filter, sort: Sort, limit: nat, cursor: Option<Cursor>, row: Row)
    requires limit > 0 && UniqueIds(table) && row in table
    ensures var page, rest := List(table, keep, sort, limit, cursor), Remaining(table, keep, sort, cursor);
            OnPage(page, row.id) <==> exists j :: 0 <= j < |rest| && j < limit && rest[j] == row
  {
    var page, rest := List(table, keep, sort, limit, cursor), Remaining(table, keep, sort, cursor);
    RemainingIs(table, keep, sort, cursor);
    PageIs(table, keep, sort, limit, cursor);
    assert forall j :: 0 <= j < |page.rows| ==> page.rows[j] == rest[j];
    if OnPage(page, row.id) {
      var j :| 0 <= j < |page.rows| && page.rows[j].id == row.id;
      assert rest[j] in rest;
      SameIdSameRow(table, rest[j], row);
    }
    if j :| 0 <= j < |rest| && j < limit && rest[j] == row {
      assert page.rows[j].id == row.id;
    }
  }

  lemma SameIdSameRow(table: seq<Row>, a: Row, b: Row)
    requires UniqueIds(table) && a in table && b in table && a.id == b.id
    ensures a == b
  {
    var i :| 0 <= i < |table| && table[i] == a;
    var j :| 0 <= j < |table| && table[j] == b;
  }

  /** An order already passed is neither shown again nor come back to. */
  lemma PassedPage(table: seq<Row>, keep: Filter, sort: Sort, limit: nat, cursor: Option<Cursor>, row: Row)
    requires limit > 0 && UniqueIds(table) && AllExact(table, sort) && row in table && Passed(sort, cursor, KeyOf(row, sort))
    ensures var page := List(table, keep, sort, limit, cursor);
            !OnPage(page, row.id) && (page.next.Some? ==> Passed(sort, page.next, KeyOf(row, sort)))
  {
    var rest := Remaining(table, keep, sort, cursor);
    RemainingIs(table, keep, sort, cursor);
    PageShowsRow(table, keep, sort, limit, cursor, row);
    PageIs(table, keep, sort, limit, cursor);
    assert forall j :: 0 <= j < |rest| ==> rest[j] in rest && rest[j] != row;
    if |rest| > limit {
      ExactLast(table, keep, sort, cursor, limit);
      PassedStays(sort, cursor, rest[limit - 1], KeyOf(row, sort));
    }
  }

  /** An order still to come is shown exactly when the page ends the list or ends past it. */
  lemma ComingPage(table: seq<Row>, keep: Filter, sort: Sort, limit: nat, cursor: Option<Cursor>, row: Row)
    requires limit > 0 && UniqueIds(table) && AllExact(table, sort) && row in table && keep(row) && !Passed(sort, cursor, KeyOf(row, sort))
    ensures var page := List(table, keep, sort, limit, cursor);
            OnPage(page, row.id) <==> page.next.None? || Passed(sort, page.next, KeyOf(row, sort))
  {
    var rest := Remaining(table, keep, sort, cursor);
    RemainingIs(table, keep, sort, cursor);
    PageShowsRow(table, keep, sort, limit, cursor, row);
    PageIs(table, keep, sort, limit, cursor);
    assert row in rest;
    var j :| 0 <= j < |rest| && rest[j] == row;
    OnlyAt(rest, sort, j);
    if |rest| > limit {
      ExactLast(table, keep, sort, cursor, limit);
      ShownIffEarly(rest, sort, limit, j);
    }
  }

  lemma OnlyAt(rest: seq<Row>, sort: Sort, j: nat)
    requires InOrder(rest, sort) && j < |rest|
    ensures forall i :: 0 <= i < |rest| && rest[i] == rest[j] ==> i == j
  {
    ComesTotal(sort, KeyOf(rest[j], sort), KeyOf(rest[j], sort));
  }

  /** What one page does to an order that is there: shown and passed, or still to come. */
  lemma OnePage(table: seq<Row>, keep: Filter, sort: Sort, limit: nat, cursor: Option<Cursor>, key: Key)
    requires limit > 0 && UniqueIds(table) && AllExact(table, sort) && Present(table, keep, sort, key)
    ensures var page := List(table, keep, sort, limit, cursor);
            && (Passed(sort, cursor, key) ==> !OnPage(page, key.id) && (page.next.Some? ==> Passed(sort, page.next, key)))
            && (!Passed(sort, cursor, key) ==> (OnPage(page, key.id) <==> page.next.None? || Passed(sort, page.next, key)))
  {
    var i :| 0 <= i < |table| && KeyOf(table[i], sort) == key && keep(table[i]);
    if Passed(sort, cursor, key) {
      PassedPage(table, keep, sort, limit, cursor, table[i]);
    } else {
      ComingPage(table, keep, sort, limit, cursor, table[i]);
    }
  }

  /** A cursor only moves forward. */
  lemma PassedStays(sort: Sort, cursor: Option<Cursor>, last: Row, key: Key)
    requires Passed(sort, cursor, key) && After(sort, cursor, last) && Exact(last, sort)
    ensures Passed(sort, Some(EncodeCursor(sort, last)), key)
  {
    if Comes(sort, KeyOf(last, sort), key) {
      ComesTransitive(sort, Key(cursor.value.value, cursor.value.id), KeyOf(last, sort), key);
    }
  }

  lemma ShownIffEarly(rest: seq<Row>, sort: Sort, limit: nat, j: nat)
    requires InOrder(rest, sort) && j < |rest| && limit > 0
    ensures |rest| > limit ==> (j < limit <==> !Comes(sort, KeyOf(rest[limit - 1], sort), KeyOf(rest[j], sort)))
  {
    if |rest| > limit {
      ComesTotal(sort, KeyOf(rest[limit - 1], sort), KeyOf(rest[j], sort));
    }
  }

  ghost predicate NotShown(pages: seq<Page>, id: nat, n: nat)
    requires n <= |pages|
  {
    forall j :: 0 <= j < n ==> !OnPage(pages[j], id)
  }

  /** Of the first `n` pages, page `k` and no other shows the order. */
  ghost predicate OnlyPage(pages: seq<Page>, id: nat, n: nat, k: nat)
    requires n <= |pages|
  {
    k < n && forall j :: 0 <= j < n ==> (OnPage(pages[j], id) <==> j == k)
  }

  ghost predicate ShownOnce(pages: seq<Page>, id: nat, n: nat)
    requires n <= |pages|
  {
    exists k: nat :: OnlyPage(pages, id, n, k)
  }

  /** What page k does to the order: shown and passed, or still to come. */
  ghost predicate StepFact(pages: seq<Page>, sort: Sort, key: Key, k: nat)
    requires k < |pages|
  {
    && (Passed(sort, CursorAt(pages, k), key) ==>
          !OnPage(pages[k], key.id) && (pages[k].next.Some? ==> Passed(sort, CursorAt(pages, k + 1), key)))
    && (!Passed(sort, CursorAt(pages, k), key) ==>
          (OnPage(pages[k], key.id) <==> pages[k].next.None? || Passed(sort, CursorAt(pages, k + 1), key)))
  }

  lemma PageOfWalk(tables: seq<seq<Row>>, pages: seq<Page>, keep: Filter, sort: Sort, limit: nat, key: Key, k: nat)
    requires Walk(tables, pages, keep, sort, limit) && k < |pages| && Present(tables[k], keep, sort, key)
    ensures StepFact(pages, sort, key, k)
  {
    OnePage(tables[k], keep, sort, limit, CursorAt(pages, k), key);
  }

  lemma {:induction false} ShownSoFar(pages: seq<Page>, sort: Sort, key: Key, n: nat)
    requires n < |pages| && (forall k :: 0 <= k < |pages| - 1 ==> pages[k].next.Some?)
    requires forall k :: 0 <= k < |pages| ==> StepFact(pages, sort, key, k)
    ensures if Passed(sort, CursorAt(pages, n), key) then ShownOnce(pages, key.id, n) else NotShown(pages, key.id, n)
  {
    if n > 0 {
      ShownSoFar(pages, sort, key, n - 1);
      assert StepFact(pages, sort, key, n - 1);
      assert pages[n - 1].next.Some?;
      if Passed(sort, CursorAt(pages, n - 1), key) {
        var k: nat :| OnlyPage(pages, key.id, n - 1, k);
        assert OnlyPage(pages, key.id, n, k);
      } else if Passed(sort, CursorAt(pages, n), key) {
        assert OnlyPage(pages, key.id, n, n - 1);
      }
    }
  }

  /**
   With orders inserted, removed or changed between pages, an order that was there
   at the start and matched throughout is returned on exactly one page.
   */
  lemma ReturnedExactlyOnce(tables: seq<seq<Row>>, pages: seq<Page>, keep: Filter, sort: Sort, limit: nat, key: Key)
    requires Walk(tables, pages, keep, sort, limit) && pages[|pages| - 1].next.None?
    requires forall k :: 0 <= k < |tables| ==> Present(tables[k], keep, sort, key)
    ensures ShownOnce(pages, key.id, |pages|)
  {
    forall k | 0 <= k < |pages| ensures StepFact(pages, sort, key, k) {
      PageOfWalk(tables, pages, keep, sort, limit, key, k);
    }
    LastPageSettles(pages, sort, key);
  }

  lemma LastPageSettles(pages: seq<Page>, sort: Sort, key: Key)
    requires pages != [] && pages[|pages| - 1].next.None? && (forall k :: 0 <= k < |pages| - 1 ==> pages[k].next.Some?)
    requires forall k :: 0 <= k < |pages| ==> StepFact(pages, sort, key, k)
    ensures ShownOnce(pages, key.id, |pages|)
  {
    var n := |pages| - 1;
    ShownSoFar(pages, sort, key, n);
    assert StepFact(pages, sort, key, n);
    if Passed(sort, CursorAt(pages, n), key) {
      var k: nat :| OnlyPage(pages, key.id, n, k);
      assert OnlyPage(pages, key.id, n + 1, k);
    } else {
      assert OnlyPage(pages, key.id, n + 1, n);
    }
  }

  /** And on that page only once. */
  lemma PageHasNoRepeats(table: seq<Row>, keep: Filter, sort: Sort, limit: nat, cursor: Option<Cursor>)
    requires UniqueIds(table)
    ensures UniqueIds(List(table, keep, sort, limit, cursor).rows)
  {
    RemainingIs(table, keep, sort, cursor);
    if limit > 0 {
      PageIs(table, keep, sort, limit, cursor);
    }
    OrderedIsUnique(table, Remaining(table, keep, sort, cursor), sort);
  }

  lemma OrderedIsUnique(table: seq<Row>, rest: seq<Row>, sort: Sort)
    requires UniqueIds(table) && InOrder(rest, sort) && forall r :: r in rest ==> r in table
    ensures UniqueIds(rest)
  {
    forall i, j | 0 <= i < j < |rest| ensures rest[i].id != rest[j].id {
      assert rest[i] in rest && rest[j] in rest;
      ComesTotal(sort, KeyOf(rest[i], sort), KeyOf(rest[j], sort));
      if rest[i].id == rest[j].id {
        SameIdSameRow(table, rest[i], rest[j]);
      }
    }
  }

  // ----- Timestamps finer than the cursor -----

  /** A matching order between the truncated cursor and the row it was taken from. */
  ghost predicate InGap(keep: Filter, sort: Sort, last: Row, r: Row) {
    && keep(r)
    && !Less(KeyOf(r, sort), Key(SortValueOf(last, sort), last.id))
    && Less(KeyOf(r, sort), KeyOf(last, sort))
  }

  lemma TruncationIsBelow(row: Row, sort: Sort)
    ensures SortValueOf(row, sort) <= KeyOf(row, sort).value
  {
  }

  /** What comes after the k-th row of a list, by its own key. */
  lemma TailIs(table: seq<Row>, keep: Filter, sort: Sort, cursor: Option<Cursor>, k: nat)
    requires UniqueIds(table) && 0 < k <= |Remaining(table, keep, sort, cursor)|
    ensures var rest := Remaining(table, keep, sort, cursor);
            && InOrder(rest[k..], sort)
            && rest[k - 1] in table && keep(rest[k - 1])
            && forall r :: r in rest[k..] <==> r in table && keep(r) && Comes(sort, KeyOf(rest[k - 1], sort), KeyOf(r, sort))
  {
    var rest := Remaining(table, keep, sort, cursor);
    var last := rest[k - 1];
    RemainingIs(table, keep, sort, cursor);
    assert last in rest;
    forall r ensures r in rest[k..] <==> r in table && keep(r) && Comes(sort, KeyOf(last, sort), KeyOf(r, sort)) {
      if r in rest[k..] {
        var i :| 0 <= i < |rest[k..]| && rest[k..][i] == r;
        assert rest[k + i] == r && r in rest;
      }
      if r in table && keep(r) && Comes(sort, KeyOf(last, sort), KeyOf(r, sort)) {
        LaterIsAfter(sort, cursor, last, r);
        assert r in rest;
        var i :| 0 <= i < |rest| && rest[i] == r;
        ComesTotal(sort, KeyOf(last, sort), KeyOf(r, sort));
        assert rest[k..][i - k] == r;
      }
    }
  }

  /** The next page starts where this one stopped if and only if the printed cursor divides the matching orders where its row does. */
  lemma ResumesIff(table: seq<Row>, keep: Filter, sort: Sort, cursor: Option<Cursor>, k: nat)
    requires UniqueIds(table) && 0 < k <= |Remaining(table, keep, sort, cursor)|
    ensures var rest := Remaining(table, keep, sort, cursor);
            var last := rest[k - 1];
            Remaining(table, keep, sort, Some(EncodeCursor(sort, last))) == rest[k..] <==>
            forall r :: r in table && keep(r) ==>
              (After(sort, Some(EncodeCursor(sort, last)), r) <==> Comes(sort, KeyOf(last, sort), KeyOf(r, sort)))
  {
    var rest := Remaining(table, keep, sort, cursor);
    var next := Some(EncodeCursor(sort, rest[k - 1]));
    TailIs(table, keep, sort, cursor, k);
    RemainingIs(table, keep, sort, next);
    if forall r :: r in table && keep(r) ==> (After(sort, next, r) <==> Comes(sort, KeyOf(rest[k - 1], sort), KeyOf(r, sort))) {
      InOrderUnique(Remaining(table, keep, sort, next), rest[k..], sort);
    }
  }

  /** Newest first, a page boundary loses orders exactly when a matching one lies in the gap. */
  lemma DescendingResumesIff(table: seq<Row>, keep: Filter, sort: Sort, cursor: Option<Cursor>, k: nat)
    requires sort.descending && UniqueIds(table) && 0 < k <= |Remaining(table, keep, sort, cursor)|
    ensures var rest := Remaining(table, keep, sort, cursor);
            Remaining(table, keep, sort, Some(EncodeCursor(sort, rest[k - 1]))) == rest[k..] <==>
            forall r :: r in table ==> !InGap(keep, sort, rest[k - 1], r)
  {
    var last := Remaining(table, keep, sort, cursor)[k - 1];
    ResumesIff(table, keep, sort, cursor, k);
    TruncationIsBelow(last, sort);
    forall r | r in table && keep(r)
      ensures (After(sort, Some(EncodeCursor(sort, last)), r) <==> Comes(sort, KeyOf(last, sort), KeyOf(r, sort))) <==> !InGap(keep, sort, last, r)
    {
    }
  }

  /** Oldest first, a page boundary is exact if and only if its last order's timestamp is; otherwise the next page repeats that order. */
  lemma AscendingResumesIff(table: seq<Row>, keep: Filter, sort: Sort, cursor: Option<Cursor>, k: nat)
    requires !sort.descending && UniqueIds(table) && 0 < k <= |Remaining(table, keep, sort, cursor)|
    ensures var rest := Remaining(table, keep, sort, cursor);
            var next := Remaining(table, keep, sort, Some(EncodeCursor(sort, rest[k - 1])));
            (next == rest[k..] <==> Exact(rest[k - 1], sort)) && (rest[k - 1] in next <==> !Exact(rest[k - 1], sort))
  {
    var last := Remaining(table, keep, sort, cursor)[k - 1];
    var next := Some(EncodeCursor(sort, last));
    ResumesIff(table, keep, sort, cursor, k);
    TailIs(table, keep, sort, cursor, k);
    RemainingIs(table, keep, sort, next);
    TruncationIsBelow(last, sort);
    assert After(sort, next, last) <==> !Exact(last, sort);
    ComesTotal(sort, KeyOf(last, sort), KeyOf(last, sort));
  }

  // ----- Whole traversals -----

  /** The pages a client gets by following `next` from a cursor until there is none. */
  ghost predicate Follows(table: seq<Row>, keep: Filter, sort: Sort, limit: nat, cursor: Option<Cursor>, pages: seq<Page>)
    decreases |pages|
  {
    && pages != [] && pages[0] == List(table, keep, sort, limit, cursor)
    && if |pages| == 1 then pages[0].next.None? else pages[0].next.Some? && Follows(table, keep, sort, limit, pages[0].next, pages[1..])
  }

  function RowsOn(pages: seq<Page>): seq<Row> {
    if pages == [] then [] else pages[0].rows + RowsOn(pages[1..])
  }

  /** What a boundary row must be for the next page to start where its page stopped. */
  ghost predicate Resumes(table: seq<Row>, keep: Filter, sort: Sort, last: Row) {
    if sort.descending then forall r :: r in table ==> !InGap(keep, sort, last, r) else Exact(last, sort)
  }

  /** Cut into pages of `limit` rows, every page of the list but the last ends in such a row. */
  ghost predicate AllResume(table: seq<Row>, keep: Filter, sort: Sort, limit: nat, rest: seq<Row>)
    requires limit > 0
    decreases |rest|
  {
    |rest| > limit ==> Resumes(table, keep, sort, rest[limit - 1]) && AllResume(table, keep, sort, limit, rest[limit..])
  }

  /** The boundary condition, in either direction of the sort. */
  lemma ResumesIsExact(table: seq<Row>, keep: Filter, sort: Sort, cursor: Option<Cursor>, k: nat)
    requires UniqueIds(table) && 0 < k <= |Remaining(table, keep, sort, cursor)|
    ensures var rest := Remaining(table, keep, sort, cursor);
            Remaining(table, keep, sort, Some(EncodeCursor(sort, rest[k - 1]))) == rest[k..] <==> Resumes(table, keep, sort, rest[k - 1])
  {
    if sort.descending {
      DescendingResumesIff(table, keep, sort, cursor, k);
    } else {
      AscendingResumesIff(table, keep, sort, cursor, k);
    }
  }

  /** With good boundaries, following `next` ends and yields everything. */
  lemma {:induction false} GoodBoundariesFollow(table: seq<Row>, keep: Filter, sort: Sort, limit: nat, cursor: Option<Cursor>) returns (pages: seq<Page>)
    requires limit > 0 && UniqueIds(table) && AllResume(table, keep, sort, limit, Remaining(table, keep, sort, cursor))
    ensures Follows(table, keep, sort, limit, cursor, pages) && RowsOn(pages) == Remaining(table, keep, sort, cursor)
    decreases |Remaining(table, keep, sort, cursor)|
  {
    var page := List(table, keep, sort, limit, cursor);
    PageIs(table, keep, sort, limit, cursor);
    if page.next.None? {
      pages := [page];
      FollowsOnce(table, keep, sort, limit, cursor);
    } else {
      NextIsTail(table, keep, sort, limit, cursor);
      var more := GoodBoundariesFollow(table, keep, sort, limit, page.next);
      pages := [page] + more;
      FollowsOn(table, keep, sort, limit, cursor, more);
    }
  }

  lemma FollowsOnce(table: seq<Row>, keep: Filter, sort: Sort, limit: nat, cursor: Option<Cursor>)
    requires List(table, keep, sort, limit, cursor).next.None?
    ensures var page := List(table, keep, sort, limit, cursor);
            Follows(table, keep, sort, limit, cursor, [page]) && RowsOn([page]) == page.rows
  {
    var page := List(table, keep, sort, limit, cursor);
    assert [page][1..] == [];
    assert RowsOn([]) == [];
  }

  /** After a page with a good boundary, what is left is the rest of the list, and its boundaries are good. */
  lemma NextIsTail(table: seq<Row>, keep: Filter, sort: Sort, limit: nat, cursor: Option<Cursor>)
    requires UniqueIds(table) && 0 < limit < |Remaining(table, keep, sort, cursor)|
    requires AllResume(table, keep, sort, limit, Remaining(table, keep, sort, cursor))
    ensures var rest, next := Remaining(table, keep, sort, cursor), List(table, keep, sort, limit, cursor).next;
            && Remaining(table, keep, sort, next) == rest[limit..] && AllResume(table, keep, sort, limit, rest[limit..])
            && List(table, keep, sort, limit, cursor).rows + Remaining(table, keep, sort, next) == rest
  {
    PageIs(table, keep, sort, limit, cursor);
    ResumesIsExact(table, keep, sort, cursor, limit);
    var rest := Remaining(table, keep, sort, cursor);
    assert rest == rest[..limit] + rest[limit..];
  }

  lemma FollowsOn(table: seq<Row>, keep: Filter, sort: Sort, limit: nat, cursor: Option<Cursor>, more: seq<Page>)
    requires var page := List(table, keep, sort, limit, cursor); page.next.Some? && Follows(table, keep, sort, limit, page.next, more)
    ensures var page := List(table, keep, sort, limit, cursor);
            Follows(table, keep, sort, limit, cursor, [page] + more) && RowsOn([page] + more) == page.rows + RowsOn(more)
  {
    var page := List(table, keep, sort, limit, cursor);
    assert ([page] + more)[1..] == more;
  }

  /** Newest first, a cursor never goes back: whatever it skipped stays skipped. */
  lemma {:induction false} FollowedIsAfter(table: seq<Row>, keep: Filter, sort: Sort, limit: nat, cursor: Option<Cursor>, pages: seq<Page>, r: Row)
    requires limit > 0 && sort.descending && UniqueIds(table) && Follows(table, keep, sort, limit, cursor, pages) && r in RowsOn(pages)
    ensures After(sort, cursor, r)
    decreases |pages|
  {
    var page, rest := pages[0], Remaining(table, keep, sort, cursor);
    PageIs(table, keep, sort, limit, cursor);
    RemainingIs(table, keep, sort, cursor);
    if r in page.rows {
      var i :| 0 <= i < |page.rows| && page.rows[i] == r;
      assert rest[i] == r && r in rest;
    } else {
      assert |pages| > 1;
      FollowedIsAfter(table, keep, sort, limit, page.next, pages[1..], r);
      assert rest[limit - 1] in rest;
      TruncationIsBelow(rest[limit - 1], sort);
    }
  }

  /** A traversal that misses and repeats nothing after its first page stopped that page at a good boundary. */
  lemma FirstBoundaryIsGood(table: seq<Row>, keep: Filter, sort: Sort, limit: nat, cursor: Option<Cursor>, more: seq<Page>)
    requires UniqueIds(table) && 0 < limit < |Remaining(table, keep, sort, cursor)|
    requires var rest := Remaining(table, keep, sort, cursor);
             Follows(table, keep, sort, limit, Some(EncodeCursor(sort, rest[limit - 1])), more) && RowsOn(more) == rest[limit..]
    ensures Resumes(table, keep, sort, Remaining(table, keep, sort, cursor)[limit - 1])
  {
    var rest := Remaining(table, keep, sort, cursor);
    var last := rest[limit - 1];
    TailIs(table, keep, sort, cursor, limit);
    if sort.descending {
      forall r | r in table ensures !InGap(keep, sort, last, r) {
        if InGap(keep, sort, last, r) {
          assert r in rest[limit..];
          FollowedIsAfter(table, keep, sort, limit, Some(EncodeCursor(sort, last)), more, r);
        }
      }
    } else if !Exact(last, sort) {
      AscendingRepeats(table, keep, sort, limit, cursor, more);
    }
  }

  lemma AscendingRepeats(table: seq<Row>, keep: Filter, sort: Sort, limit: nat, cursor: Option<Cursor>, more: seq<Page>)
    requires UniqueIds(table) && !sort.descending && 0 < limit < |Remaining(table, keep, sort, cursor)|
    requires var rest := Remaining(table, keep, sort, cursor);
             !Exact(rest[limit - 1], sort) && Follows(table, keep, sort, limit, Some(EncodeCursor(sort, rest[limit - 1])), more)
    ensures RowsOn(more) != Remaining(table, keep, sort, cursor)[limit..]
  {
    var rest := Remaining(table, keep, sort, cursor);
    var last, next := rest[limit - 1], Some(EncodeCursor(sort, rest[limit - 1]));
    var again := Remaining(table, keep, sort, next);
    AscendingResumesIff(table, keep, sort, cursor, limit);
    PageIs(table, keep, sort, limit, next);
    RemainingIs(table, keep, sort, next);
    RemainingIs(table, keep, sort, cursor);
    var i :| 0 <= i < |again| && again[i] == last;
    assert RowsOn(more)[0] == again[0];
    assert Comes(sort, KeyOf(last, sort), KeyOf(rest[limit], sort));
    ComesTotal(sort, KeyOf(last, sort), KeyOf(rest[limit], sort));
    assert rest[limit..][0] == rest[limit];
  }

  lemma {:induction false} CompleteHasGoodBoundaries(table: seq<Row>, keep: Filter, sort: Sort, limit: nat, cursor: Option<Cursor>, pages: seq<Page>)
    requires limit > 0 && UniqueIds(table) && Follows(table, keep, sort, limit, cursor, pages) && RowsOn(pages) == Remaining(table, keep, sort, cursor)
    ensures AllResume(table, keep, sort, limit, Remaining(table, keep, sort, cursor))
    decreases |pages|
  {
    var rest := Remaining(table, keep, sort, cursor);
    PageIs(table, keep, sort, limit, cursor);
    if |rest| > limit {
      assert pages[0].next == Some(EncodeCursor(sort, rest[limit - 1]));
      assert RowsOn(pages[1..]) == rest[limit..];
      FirstBoundaryIsGood(table, keep, sort, limit, cursor, pages[1..]);
      ResumesIsExact(table, keep, sort, cursor, limit);
      CompleteHasGoodBoundaries(table, keep, sort, limit, pages[0].next, pages[1..]);
    }
  }

  /**
   Following `next` over fixed data ends with the sorted, filtered list, each order
   once, if and only if every page but the last ends in a row the printed cursor
   resumes after: oldest first a row whose timestamp is exact, newest first a row
   with no matching order between it and its printed timestamp.
   */
  lemma TraversalIsCompleteIff(table: seq<Row>, keep: Filter, sort: Sort, limit: nat, cursor: Option<Cursor>)
    requires limit > 0 && UniqueIds(table)
    ensures (exists pages :: Follows(table, keep, sort, limit, cursor, pages) && RowsOn(pages) == Remaining(table, keep, sort, cursor)) <==>
            AllResume(table, keep, sort, limit, Remaining(table, keep, sort, cursor))
  {
    if AllResume(table, keep, sort, limit, Remaining(table, keep, sort, cursor)) {
      var pages := GoodBoundariesFollow(table, keep, sort, limit, cursor);
    }
    if pages :| Follows(table, keep, sort, limit, cursor, pages) && RowsOn(pages) == Remaining(table, keep, sort, cursor) {
      CompleteHasGoodBoundaries(table, keep, sort, limit, cursor, pages);
    }
  }

  function Everything(): Filter { (r: Row) => true }

  const NEWEST_FIRST := Sort(CreatedAt, true)
  const OLDEST_FIRST := Sort(CreatedAt, false)

  lemma TwoMatch(a: Row, b: Row, sort: Sort, cursor: Option<Cursor>)
    ensures Matching([a, b], Everything(), sort, cursor)
            == (if After(sort, cursor, a) then [a] else []) + (if After(sort, cursor, b) then [b] else [])
  {
    assert [a, b][..1] == [a] && [a][..0] == [];
    assert Matching([a], Everything(), sort, cursor) == [] + if After(sort, cursor, a) then [a] else [];
  }

  lemma OneInOrder(a: Row, sort: Sort)
    ensures Ordered([a], sort) == [a]
  {
    assert [a][..0] == [];
    assert Ordered([], sort) == [];
  }

  lemma TwoInOrder(a: Row, b: Row, sort: Sort)
    requires Comes(sort, KeyOf(a, sort), KeyOf(b, sort))
    ensures Ordered([a, b], sort) == [a, b]
  {
    OneInOrder(a, sort);
    ComesTotal(sort, KeyOf(a, sort), KeyOf(b, sort));
    assert [a, b][..1] == [a] && [a][1..] == [];
    assert Insert(b, [], sort) == [b];
  }

  /** What is left of a table of two rows, one before the other. */
  lemma TwoRows(a: Row, b: Row, sort: Sort, cursor: Option<Cursor>)
    requires Comes(sort, KeyOf(a, sort), KeyOf(b, sort))
    ensures Remaining([a, b], Everything(), sort, cursor)
            == (if After(sort, cursor, a) then [a] else []) + (if After(sort, cursor, b) then [b] else [])
  {
    TwoMatch(a, b, sort, cursor);
    OneInOrder(a, sort);
    OneInOrder(b, sort);
    TwoInOrder(a, b, sort);
    assert [a] + [b] == [a, b] && [] + [b] == [b] && [a] + [] == [a];
    assert Ordered([], sort) == [];
  }

  /** One row out of two that are both still to come. */
  lemma FirstOfTwo(a: Row, b: Row, sort: Sort, cursor: Option<Cursor>)
    requires Comes(sort, KeyOf(a, sort), KeyOf(b, sort)) && After(sort, cursor, a) && After(sort, cursor, b)
    ensures List([a, b], Everything(), sort, 1, cursor) == Page([a], Some(EncodeCursor(sort, a)))
  {
    TwoRows(a, b, sort, cursor);
    assert [a] + [b] == [a, b] && [a, b][..1] == [a];
  }

  const EARLY := Row(1, 1_000_002, 100, 0)
  const LATE := Row(2, 1_000_007, 100, 0)

  /** Two orders five microseconds apart: the second is on no page. */
  lemma DescendingLosesOrder()
    ensures var first := List([LATE, EARLY], Everything(), NEWEST_FIRST, 1, None);
            first.rows == [LATE] && first.next.Some? && List([LATE, EARLY], Everything(), NEWEST_FIRST, 1, first.next) == Page([], None)
  {
    FirstOfTwo(LATE, EARLY, NEWEST_FIRST, None);
    NoneOfTwo(LATE, EARLY, NEWEST_FIRST, Some(EncodeCursor(NEWEST_FIRST, LATE)));
  }

  lemma NoneOfTwo(a: Row, b: Row, sort: Sort, cursor: Option<Cursor>)
    requires Comes(sort, KeyOf(a, sort), KeyOf(b, sort)) && !After(sort, cursor, a) && !After(sort, cursor, b)
    ensures List([a, b], Everything(), sort, 1, cursor) == Page([], None)
  {
    TwoRows(a, b, sort, cursor);
  }

  /** The same two orders, oldest first: every page repeats the first, and following the cursor never ends. */
  lemma AscendingNeverEnds()
    ensures var first := List([EARLY, LATE], Everything(), OLDEST_FIRST, 1, None);
            first.rows == [EARLY] && first.next.Some? && List([EARLY, LATE], Everything(), OLDEST_FIRST, 1, first.next) == first
  {
    FirstOfTwo(EARLY, LATE, OLDEST_FIRST, None);
    FirstOfTwo(EARLY, LATE, OLDEST_FIRST, Some(EncodeCursor(OLDEST_FIRST, EARLY)));
  }
}
