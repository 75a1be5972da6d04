/** Walking the usage log page by page (internal/state/usage_store.go, GetUsageLogPaginated). */
module UsagePages {
  import opened Text
  import opened UsageStore

  datatype Query = Query(limit: int, cursor: int, fromMs: int, toMs: int)

  datatype Entry = Entry(id: nat, row: LogRow)

  datatype Page = Page(entries: seq<Entry>, hasMore: bool, nextCursor: string)

  predicate InRange(row: LogRow, q: Query) {
    (q.fromMs > 0 ==> row.createdAt >= q.fromMs) && (q.toMs > 0 ==> row.createdAt < q.toMs)
  }

  /** The rows in the date range among the first `n` of the log, newest id first. */
  function Descending(log: seq<LogRow>, q: Query, n: nat): seq<Entry>
    requires n <= |log|
  {
    if n == 0 then []
    else (if InRange(log[n - 1], q) then [Entry(n, log[n - 1])] else []) + Descending(log, q, n - 1)
  }

  /** How many rows of the log lie below the cursor; no cursor means all. */
  function Below(log: seq<LogRow>, cursor: int): (n: nat)
    ensures n <= |log|
  {
    if cursor > 0 && cursor - 1 < |log| then cursor - 1 else |log|
  }

  /** The result of the SQL query: a negative LIMIT is none. */
  function Fetch(log: seq<LogRow>, q: Query): seq<Entry> {
    var rows := Descending(log, q, Below(log, q.cursor));
    if 0 <= q.limit + 1 < |rows| then rows[..q.limit + 1] else rows
  }

  /**
   * What one page tells: of the wanted rows the first ones up to the limit, whether there are more, and a cursor at
   * which exactly those follow. With limit zero there is no such cursor.
   */
  ghost predicate Cuts(log: seq<LogRow>, q: Query, page: Page)
    requires q.limit >= 0
  {
    var rows := Descending(log, q, Below(log, q.cursor));
    && (page.hasMore <==> q.limit < |rows|)
    && (if page.hasMore then page.entries == rows[..q.limit] else page.entries == rows)
    && (if page.hasMore && q.limit > 0 then
          && AllDigits(page.nextCursor)
          && var next := DigitsValue(page.nextCursor);
             1 < next <= Below(log, q.cursor) && rows[q.limit..] == Descending(log, q, next - 1)
        else page.nextCursor == "")
  }

  method GetPage(log: seq<LogRow>, q: Query) returns (page: Page)
    requires q.limit >= 0
    ensures page == PageOf(log, q)
    ensures Cuts(log, q, page)
  {
    PageCuts(log, q);
    var entries := Fetch(log, q);
    var hasMore := |entries| > q.limit;
    if hasMore {
      entries := entries[..q.limit];
    }
    var next := "";
    if hasMore && |entries| > 0 {
      next := Print(entries[|entries| - 1].id);
    }
    page := Page(entries, hasMore, next);
  }

  function PageOf(log: seq<LogRow>, q: Query): Page
    requires q.limit >= 0
  {
    var rows := Fetch(log, q);
    var kept := if |rows| > q.limit then rows[..q.limit] else rows;
    Page(kept, |rows| > q.limit, if |rows| > q.limit && kept != [] then Print(kept[|kept| - 1].id) else "")
  }

  /* What the rows are */

  /** A listing in descending order holds exactly the rows in the range, each once, from the newest down. */
  lemma {:induction false} DescendingIsExact(log: seq<LogRow>, q: Query, n: nat)
    requires n <= |log|
    ensures var rows := Descending(log, q, n);
      && (forall i, j :: 0 <= i < j < |rows| ==> rows[i].id > rows[j].id)
      && (forall e :: e in rows <==>
            0 < e.id <= n && e.row == log[e.id - 1]
            && (q.fromMs > 0 ==> q.fromMs <= e.row.createdAt) && (q.toMs > 0 ==> e.row.createdAt < q.toMs))
  {
    if n > 0 { DescendingIsExact(log, q, n - 1); }
  }

  /** The rows that a query asks for: those in its range whose ids lie below its cursor, if it has one. */
  lemma WantedRowsAreExact(log: seq<LogRow>, q: Query, e: Entry)
    ensures e in Descending(log, q, Below(log, q.cursor)) <==>
      && 0 < e.id <= |log| && e.row == log[e.id - 1] && (q.cursor > 0 ==> e.id < q.cursor)
      && (q.fromMs > 0 ==> q.fromMs <= e.row.createdAt) && (q.toMs > 0 ==> e.row.createdAt < q.toMs)
  {
    DescendingIsExact(log, q, Below(log, q.cursor));
    hide Descending;
  }

  lemma {:induction false} DescendingStays(log: seq<LogRow>, more: seq<LogRow>, q: Query, n: nat)
    requires n <= |log|
    ensures Descending(log + more, q, n) == Descending(log, q, n)
  {
    if n > 0 { DescendingStays(log, more, q, n - 1); }
  }

  lemma {:induction false} RangeDecides(log: seq<LogRow>, q: Query, p: Query, n: nat)
    requires n <= |log| && q.fromMs == p.fromMs && q.toMs == p.toMs
    ensures Descending(log, q, n) == Descending(log, p, n)
  {
    if n > 0 { RangeDecides(log, q, p, n - 1); }
  }

  /** A listing can be cut after any of its rows: what follows is the listing of the rows below. */
  lemma {:induction false} CutBelow(log: seq<LogRow>, q: Query, n: nat, k: nat)
    requires n <= |log| && k < |Descending(log, q, n)|
    ensures var rows := Descending(log, q, n);
      && 0 < rows[k].id <= n
      && rows[k + 1..] == Descending(log, q, rows[k].id - 1)
  {
    var rest := Descending(log, q, n - 1);
    if !InRange(log[n - 1], q) {
      assert Descending(log, q, n) == rest;
      CutBelow(log, q, n - 1, k);
    } else if k > 0 {
      CutBelow(log, q, n - 1, k - 1);
    }
  }

  /** A cursor printed from the last row kept is where the rest begins. */
  lemma {:induction false} CursorResumes(log: seq<LogRow>, q: Query, n: nat)
    requires n <= |log| && 0 < q.limit < |Descending(log, q, n)|
    ensures var rows := Descending(log, q, n); var id := rows[q.limit - 1].id;
      1 < id <= n && DigitsValue(Print(id)) == id && rows[q.limit..] == Descending(log, q, id - 1)
  {
    var rows := Descending(log, q, n);
    var id := rows[q.limit - 1].id;
    CutBelow(log, q, n, q.limit - 1);
    PrintThenValue(id);
    assert rows[q.limit..] != [];
    assert Descending(log, q, 0) == [];
  }

  /** The page is cut from the wanted rows, and its cursor resumes at the rest. */
  lemma {:induction false} PageCuts(log: seq<LogRow>, q: Query)
    requires q.limit >= 0
    ensures Cuts(log, q, PageOf(log, q))
  {
    var n := Below(log, q.cursor);
    hide Descending, Below, Print, DigitsValue;
    if 0 < q.limit < |Descending(log, q, n)| { CursorResumes(log, q, n); }
  }

  /* The walk */

  /** Follows the cursors from page to page; `arrivals(i)` are the rows recorded between pages `i` and `i + 1`. */
  ghost function Walk(arrivals: nat -> seq<LogRow>, i: nat, log: seq<LogRow>, q: Query): seq<Entry>
    requires q.limit >= 1
    decreases Below(log, q.cursor)
  {
    var page := PageOf(log, q);
    PageCuts(log, q);
    page.entries +
      if page.hasMore then
        var cursor := DigitsValue(page.nextCursor);
        NextIsBelow(log, arrivals(i), q, cursor);
        Walk(arrivals, i + 1, log + arrivals(i), q.(cursor := cursor))
      else []
  }

  lemma NextIsBelow(log: seq<LogRow>, more: seq<LogRow>, q: Query, cursor: nat)
    requires 1 < cursor <= Below(log, q.cursor)
    ensures Below(log + more, cursor) == cursor - 1
  {
  }

  /**
   * The walk ends, and has shown exactly the rows that were in the log at its first page, each once and in
   * descending order, whatever was recorded in the meantime.
   */
  lemma {:induction false} WalkShowsFirstSight(arrivals: nat -> seq<LogRow>, i: nat, log: seq<LogRow>, q: Query)
    requires q.limit >= 1
    ensures Walk(arrivals, i, log, q) == Descending(log, q, Below(log, q.cursor))
    decreases Below(log, q.cursor)
  {
    hide PageOf, Descending;
    var rows, page := Descending(log, q, Below(log, q.cursor)), PageOf(log, q);
    PageCuts(log, q);
    if page.hasMore {
      var cursor := DigitsValue(page.nextCursor);
      var next, more := q.(cursor := cursor), arrivals(i);
      NextIsBelow(log, more, q, cursor);
      WalkShowsFirstSight(arrivals, i + 1, log + more, next);
      DescendingStays(log, more, next, cursor - 1);
      RangeDecides(log, q, next, cursor - 1);
      assert rows == rows[..q.limit] + rows[q.limit..];
    }
  }

  /** The usage log of one organisation; others may record between two pages. */
  class UsageLog {
    var rows: seq<LogRow>

    method OthersRecord()
      modifies this
      ensures old(rows) <= rows
    {
      var more: seq<LogRow> := *;
      rows := rows + more;
    }

    method ReadAll(limit: int, fromMs: int, toMs: int) returns (shown: seq<Entry>)
      requires limit >= 1
      modifies this
      ensures old(rows) <= rows
      ensures shown == Descending(old(rows), Query(limit, 0, fromMs, toMs), |old(rows)|)
    {
      hide PageOf, Descending;
      ghost var start, first := rows, Query(limit, 0, fromMs, toMs);
      var q := Query(limit, 0, fromMs, toMs);
      var page := GetPage(rows, q);
      shown := page.entries;
      while page.hasMore
        invariant start <= rows
        invariant page.hasMore ==> AllDigits(page.nextCursor)
        invariant page.hasMore ==> 1 < DigitsValue(page.nextCursor) <= |start|
        invariant Descending(start, first, |start|) ==
          shown + if page.hasMore then Descending(start, first, DigitsValue(page.nextCursor) - 1) else []
        decreases if page.hasMore then DigitsValue(page.nextCursor) else 0
      {
        var cursor := DigitsValue(page.nextCursor);
        OthersRecord();
        var next := q.(cursor := cursor);
        page := GetPage(rows, next);
        assert rows == start + rows[|start|..];
        SameBelow(start, rows[|start|..], first, next, cursor, page);
        shown := shown + page.entries;
      }
    }
  }

  lemma SameBelow(start: seq<LogRow>, more: seq<LogRow>, first: Query, next: Query, cursor: nat, page: Page)
    requires 1 < cursor <= |start| && next.cursor == cursor && next.limit >= 1
    requires first.fromMs == next.fromMs && first.toMs == next.toMs
    requires page == PageOf(start + more, next)
    ensures Below(start + more, cursor) == cursor - 1
    ensures page.hasMore ==> AllDigits(page.nextCursor) && 1 < DigitsValue(page.nextCursor) < cursor
    ensures Descending(start, first, cursor - 1) ==
      page.entries + if page.hasMore then Descending(start, first, DigitsValue(page.nextCursor) - 1) else []
  {
    hide PageOf, Descending;
    var log := start + more;
    PageCuts(log, next);
    DescendingStays(start, more, next, cursor - 1);
    RangeDecides(start, first, next, cursor - 1);
    if page.hasMore {
      var below := DigitsValue(page.nextCursor) - 1;
      DescendingStays(start, more, next, below);
      RangeDecides(start, first, next, below);
      var rows := Descending(log, next, cursor - 1);
      assert rows == rows[..next.limit] + rows[next.limit..];
    }
  }

  /** Some row is wanted exactly when the listing is not empty. */
  lemma {:induction false} SomeRowIsListed(log: seq<LogRow>, q: Query, n: nat)
    requires n <= |log|
    ensures Descending(log, q, n) != [] <==> exists i :: 0 <= i < n && InRange(log[i], q)
  {
    hide InRange;
    if n > 0 { SomeRowIsListed(log, q, n - 1); }
  }

  /** With limit zero the walk would get nowhere: there is more, but no cursor to go on from. */
  lemma {:induction false} ZeroLimitStalls(log: seq<LogRow>, q: Query)
    requires q.limit == 0
    ensures PageOf(log, q).entries == [] && PageOf(log, q).nextCursor == ""
    ensures PageOf(log, q).hasMore <==> exists i :: 0 <= i < Below(log, q.cursor) && InRange(log[i], q)
  {
    hide Descending, PageOf, InRange, Below;
    PageCuts(log, q);
    SomeRowIsListed(log, q, Below(log, q.cursor));
  }
}
