/**
 Keyset paging over a customer's orders. `created_at` has microseconds, but the cursor carries a
 JavaScript date, which keeps milliseconds only.
 */
module Paging {
  import opened Results

  /** `createdAt` in microseconds. */
  datatype Row = Row(id: nat, createdAt: nat)

  /** `next` is the cursor, in milliseconds. */
  datatype Page = Page(data: seq<Row>, hasMore: bool, next: Option<nat>)

  function Millis(row: Row): nat {
    row.createdAt / 1000
  }

  predicate Sorted(rows: seq<Row>) {
    forall i, j :: 0 <= i < j < |rows| ==> rows[i].createdAt >= rows[j].createdAt
  }

  /** `where created_at < cursor`. */
  function Older(rows: seq<Row>, cursor: Option<nat>): seq<Row> {
    if cursor.None? then rows
    else if rows == [] then []
    else (if rows[0].createdAt < cursor.value * 1000 then [rows[0]] else []) + Older(rows[1..], cursor)
  }

  /** `findByCustomerId` on the customer's rows, newest first: it fetches one row more than it returns. */
  function FindByCustomerId(table: seq<Row>, cursor: Option<nat>, limit: nat): Page {
    var older := Older(table, cursor);
    var rows := if |older| > limit + 1 then older[..limit + 1] else older;
    var data := if |rows| > limit then rows[..limit] else rows;
    var hasMore := |rows| > limit;
    Page(data, hasMore, if hasMore && data != [] then Some(Millis(data[|data| - 1])) else None)
  }

  /**
   A client that follows `nextCursor`; `tables[k]` is what its k-th request finds. If `done`, it went
   on until there was no cursor.
   */
  predicate Walk(tables: seq<seq<Row>>, cursor: Option<nat>, limit: nat, pages: seq<Page>, done: bool)
    decreases |pages|
  {
    && |tables| == |pages| && pages != []
    && pages[0] == FindByCustomerId(tables[0], cursor, limit)
    && if |pages| == 1 then done ==> pages[0].next.None?
       else pages[0].next.Some? && Walk(tables[1..], pages[0].next, limit, pages[1..], done)
  }

  /** Everything the client was shown, in order. */
  function Shown(pages: seq<Page>): seq<Row> {
    if pages == [] then [] else pages[0].data + Shown(pages[1..])
  }

  /** The table still has `list`, after any rows inserted since, which are newer. */
  predicate Extends(table: seq<Row>, list: seq<Row>) {
    && |table| >= |list| && table[|table| - |list|..] == list
    && forall i :: 0 <= i < |table| - |list| && list != [] ==> table[i].createdAt >= list[0].createdAt
  }

  /** Wherever a page ends inside the list, the next row is a millisecond older. */
  predicate Aligned(list: seq<Row>, limit: nat)
    requires limit >= 1
  {
    |list| > limit ==> Millis(list[limit]) < Millis(list[limit - 1]) && Aligned(list[limit..], limit)
  }

  // ----- one page -----

  lemma {:induction false} OlderAll(rows: seq<Row>, cursor: nat)
    requires forall i :: 0 <= i < |rows| ==> rows[i].createdAt < cursor * 1000
    ensures Older(rows, Some(cursor)) == rows
    decreases |rows|
  {
    if rows != [] {
      OlderAll(rows[1..], cursor);
    }
  }

  lemma {:induction false} OlderSkips(newer: seq<Row>, rows: seq<Row>, cursor: nat)
    requires forall i :: 0 <= i < |newer| ==> newer[i].createdAt >= cursor * 1000
    ensures Older(newer + rows, Some(cursor)) == Older(rows, Some(cursor))
    decreases |newer|
  {
    if newer == [] {
      assert newer + rows == rows;
    } else {
      assert (newer + rows)[1..] == newer[1..] + rows;
      OlderSkips(newer[1..], rows, cursor);
    }
  }

  lemma {:induction false} OlderIsSuffix(rows: seq<Row>, cursor: nat) returns (k: nat)
    requires Sorted(rows)
    ensures k <= |rows| && Older(rows, Some(cursor)) == rows[k..]
    ensures forall i :: 0 <= i < k ==> rows[i].createdAt >= cursor * 1000
    ensures forall i :: k <= i < |rows| ==> rows[i].createdAt < cursor * 1000
    decreases |rows|
  {
    if rows == [] || rows[0].createdAt < cursor * 1000 {
      k := 0;
      OlderAll(rows, cursor);
    } else {
      var j := OlderIsSuffix(rows[1..], cursor);
      k := j + 1;
    }
  }

  /** The page of a request that finds `rest`. */
  predicate CutFrom(rest: seq<Row>, limit: nat, page: Page)
    requires limit >= 1
  {
    if |rest| <= limit then page == Page(rest, false, None)
        else page == Page(rest[..limit], true, Some(Millis(rest[limit - 1])))
  }

  /** A cut by `FindByCustomerId`: the first rows, and a cursor exactly when there are more. */
  lemma PageIs(table: seq<Row>, cursor: Option<nat>, limit: nat)
    requires limit >= 1
    ensures CutFrom(Older(table, cursor), limit, FindByCustomerId(table, cursor, limit))
  {
  }

  /**
   What remains after a page: the rest of the rows if the millisecond changes at the cut, and fewer
   rows if it does not.
   */
  lemma NextRest(rest: seq<Row>, limit: nat)
    requires Sorted(rest) && 1 <= limit < |rest|
    ensures var next := Older(rest, Some(Millis(rest[limit - 1])));
            && Sorted(next) && |next| <= |rest| - limit
            && (Millis(rest[limit]) < Millis(rest[limit - 1]) ==> next == rest[limit..])
            && (Millis(rest[limit]) >= Millis(rest[limit - 1]) ==> |next| < |rest| - limit)
  {
    var cursor := Millis(rest[limit - 1]);
    var k := OlderIsSuffix(rest, cursor);
    assert rest[limit - 1].createdAt >= cursor * 1000;
    assert k >= limit;
  }

  // ----- the whole walk -----

  /** A cursor taken from the list hides every newer row. */
  lemma InsertedIsHidden(table: seq<Row>, list: seq<Row>, cursor: nat)
    requires Extends(table, list) && (list != [] ==> list[0].createdAt >= cursor * 1000)
    requires list != []
    ensures Older(table, Some(cursor)) == Older(list, Some(cursor))
  {
    var newer := table[..|table| - |list|];
    assert table == newer + list;
    OlderSkips(newer, list, cursor);
  }

  lemma {:induction false} OlderTwice(rows: seq<Row>, cursor: nat, later: nat)
    requires later <= cursor
    ensures Older(Older(rows, Some(cursor)), Some(later)) == Older(rows, Some(later))
    decreases |rows|
  {
    if rows != [] {
      OlderTwice(rows[1..], cursor, later);
      var tail := Older(rows[1..], Some(cursor));
      if rows[0].createdAt < cursor * 1000 {
        assert ([rows[0]] + tail)[1..] == tail;
      } else {
        assert [] + tail == tail;
      }
    }
  }

  /** What a request finds, whatever was inserted: the rows of the list older than the cursor. */
  lemma FindsRest(table: seq<Row>, list: seq<Row>, cursor: Option<nat>)
    requires Extends(table, list) && list != [] && Sorted(list)
    requires if cursor.None? then table == list else list[0].createdAt >= cursor.value * 1000
    ensures Older(table, cursor) == Older(list, cursor) && Sorted(Older(list, cursor))
            && |Older(list, cursor)| <= |list|
    ensures forall i :: 0 <= i < |Older(list, cursor)| ==> Older(list, cursor)[i].createdAt <= list[0].createdAt
    ensures cursor.Some? ==> forall i :: 0 <= i < |Older(list, cursor)| ==>
            Older(list, cursor)[i].createdAt < cursor.value * 1000
  {
    if cursor.Some? {
      InsertedIsHidden(table, list, cursor.value);
      var k := OlderIsSuffix(list, cursor.value);
    }
  }

  /** The rows left for the next request. */
  lemma NextCursor(list: seq<Row>, cursor: Option<nat>, limit: nat)
    requires list != [] && Sorted(list) && limit >= 1
    requires cursor.Some? ==> list[0].createdAt >= cursor.value * 1000
    requires |Older(list, cursor)| > limit
    ensures var rest := Older(list, cursor);
            var next := Millis(rest[limit - 1]);
            Older(list, Some(next)) == Older(rest, Some(next)) && list[0].createdAt >= next * 1000
  {
    var rest := Older(list, cursor);
    if cursor.Some? {
      var k := OlderIsSuffix(list, cursor.value);
      assert rest[limit - 1] == list[k + limit - 1];
      OlderTwice(list, cursor.value, Millis(rest[limit - 1]));
    }
  }

  lemma Joined(rest: seq<Row>, limit: nat, tail: seq<Row>, next: seq<Row>)
    requires 1 <= limit < |rest| && |tail| <= |next| <= |rest| - limit
    requires Millis(rest[limit]) < Millis(rest[limit - 1]) ==> next == rest[limit..]
    requires Millis(rest[limit]) >= Millis(rest[limit - 1]) ==> |next| < |rest| - limit
    requires tail == next <==> Aligned(next, limit)
    ensures rest[..limit] + tail == rest <==> Aligned(rest, limit)
  {
    assert rest == rest[..limit] + rest[limit..];
    if rest[..limit] + tail == rest {
      assert tail == rest[limit..];
    }
  }

  /** What the walk has shown of the rows `rest`. */
  predicate ShowsOf(rest: seq<Row>, limit: nat, pages: seq<Page>, done: bool)
    requires limit >= 1
  {
    && |Shown(pages)| <= |rest| && |pages| <= |rest| + 1
    && (done ==> (Shown(pages) == rest <==> Aligned(rest, limit)))
  }

  lemma LastPage(rest: seq<Row>, limit: nat, pages: seq<Page>, done: bool)
    requires limit >= 1 && |pages| == 1 && CutFrom(rest, limit, pages[0]) && (done ==> pages[0].next.None?)
    ensures ShowsOf(rest, limit, pages, done)
  {
    assert Shown(pages[1..]) == [];
    assert Shown(pages) == pages[0].data;
  }

  lemma OnePageMore(rest: seq<Row>, next: seq<Row>, limit: nat, pages: seq<Page>, done: bool)
    requires limit >= 1 && |pages| > 1 && Sorted(rest) && CutFrom(rest, limit, pages[0]) && pages[0].next.Some?
    requires next == Older(rest, pages[0].next)
    requires ShowsOf(next, limit, pages[1..], done)
    ensures ShowsOf(rest, limit, pages, done)
  {
    NextRest(rest, limit);
    if done {
      Joined(rest, limit, Shown(pages[1..]), next);
    }
  }

  /** One request, whatever was inserted: it cuts what remains of the list, and its cursor names what remains after. */
  lemma RequestCuts(list: seq<Row>, table: seq<Row>, cursor: Option<nat>, limit: nat)
    requires limit >= 1 && list != [] && Sorted(list) && Extends(table, list)
    requires if cursor.None? then table == list else list[0].createdAt >= cursor.value * 1000
    ensures var rest, page := Older(list, cursor), FindByCustomerId(table, cursor, limit);
            && Sorted(rest) && CutFrom(rest, limit, page)
            && (page.next.Some? ==>
                  Older(list, page.next) == Older(rest, page.next) && list[0].createdAt >= page.next.value * 1000)
  {
    FindsRest(table, list, cursor);
    PageIs(table, cursor, limit);
    if |Older(list, cursor)| > limit {
      NextCursor(list, cursor, limit);
    }
  }

  lemma WalkSteps(tables: seq<seq<Row>>, cursor: Option<nat>, limit: nat, pages: seq<Page>, done: bool)
    requires Walk(tables, cursor, limit, pages, done)
    ensures |tables| == |pages| > 0 && pages[0] == FindByCustomerId(tables[0], cursor, limit)
    ensures |pages| == 1 && done ==> pages[0].next.None?
    ensures |pages| > 1 ==> pages[0].next.Some? && Walk(tables[1..], pages[0].next, limit, pages[1..], done)
  {
  }

  predicate AllExtend(tables: seq<seq<Row>>, list: seq<Row>) {
    forall k :: 0 <= k < |tables| ==> Extends(tables[k], list)
  }

  lemma LaterExtend(tables: seq<seq<Row>>, list: seq<Row>)
    requires AllExtend(tables, list) && tables != []
    ensures Extends(tables[0], list) && AllExtend(tables[1..], list)
  {
  }

  lemma {:induction false} WalkShows(list: seq<Row>, tables: seq<seq<Row>>, cursor: Option<nat>, limit: nat,
                                     pages: seq<Page>, done: bool)
    requires limit >= 1 && list != [] && Sorted(list) && Walk(tables, cursor, limit, pages, done)
             && AllExtend(tables, list)
    requires if cursor.None? then tables[0] == list else list[0].createdAt >= cursor.value * 1000
    ensures ShowsOf(Older(list, cursor), limit, pages, done)
    decreases |pages|
  {
    WalkSteps(tables, cursor, limit, pages, done);
    LaterExtend(tables, list);
    RequestCuts(list, tables[0], cursor, limit);
    if |pages| == 1 {
      LastPage(Older(list, cursor), limit, pages, done);
    } else {
      var next := pages[0].next;
      WalkShows(list, tables[1..], next, limit, pages[1..], done);
      OnePageMore(Older(list, cursor), Older(list, next), limit, pages, done);
    }
  }

  /**
   Paging refines the full list exactly when no page ends inside a millisecond: then, whatever newer
   orders are inserted meanwhile, the client is shown every order of the list once, newest first;
   otherwise it misses some. Either way no walk, finished or not, is longer than the list and one page.
   */
  lemma PagingIsExact(list: seq<Row>, tables: seq<seq<Row>>, limit: nat, pages: seq<Page>, done: bool)
    requires limit >= 1 && Sorted(list) && Walk(tables, None, limit, pages, done)
    requires tables[0] == list && AllExtend(tables, list)
    ensures done ==> (Shown(pages) == list <==> Aligned(list, limit))
    ensures |Shown(pages)| <= |list| && |pages| <= |list| + 1
  {
    if list == [] {
      PageIs(list, None, limit);
      assert pages == [pages[0]] && Shown(pages[1..]) == [];
    } else {
      WalkShows(list, tables, None, limit, pages, done);
    }
  }

  // ----- when pages are aligned -----

  /** The millisecond changes before row `i`, if there is one. */
  predicate ChangesAt(list: seq<Row>, i: int) {
    0 < i < |list| ==> Millis(list[i]) < Millis(list[i - 1])
  }

  ghost predicate ChangesAtCuts(list: seq<Row>, limit: nat) {
    forall k: nat :: k >= 1 ==> ChangesAt(list, k * limit)
  }

  lemma NextCut(list: seq<Row>, limit: nat, k: nat)
    requires 1 <= limit < |list| && k >= 1
    ensures ChangesAt(list[limit..], k * limit) <==> ChangesAt(list, (k + 1) * limit)
  {
    assert (k + 1) * limit == k * limit + limit && k * limit >= 1;
  }

  lemma LaterCuts(list: seq<Row>, limit: nat)
    requires 1 <= limit < |list|
    ensures ChangesAtCuts(list, limit) <==> ChangesAt(list, limit) && ChangesAtCuts(list[limit..], limit)
  {
    if ChangesAtCuts(list, limit) {
      assert ChangesAt(list, 1 * limit);
      forall k: nat | k >= 1
        ensures ChangesAt(list[limit..], k * limit)
      {
        NextCut(list, limit, k);
      }
    }
    if ChangesAt(list, limit) && ChangesAtCuts(list[limit..], limit) {
      forall k: nat | k >= 1
        ensures ChangesAt(list, k * limit)
      {
        if k > 1 {
          NextCut(list, limit, k - 1);
        }
      }
    }
  }

  lemma NoCuts(list: seq<Row>, limit: nat)
    requires limit >= 1 && |list| <= limit
    ensures ChangesAtCuts(list, limit)
  {
    forall k: nat | k >= 1
      ensures ChangesAt(list, k * limit)
    {
      assert k * limit >= limit;
    }
  }

  /** A page size is safe for a list exactly when the millisecond changes at every multiple of it. */
  lemma {:induction false} AlignedIs(list: seq<Row>, limit: nat)
    requires limit >= 1
    ensures Aligned(list, limit) <==> ChangesAtCuts(list, limit)
    decreases |list|
  {
    if |list| > limit {
      AlignedIs(list[limit..], limit);
      LaterCuts(list, limit);
    } else {
      NoCuts(list, limit);
    }
  }

  predicate MillisDiffer(list: seq<Row>) {
    forall i :: 0 < i < |list| ==> Millis(list[i]) != Millis(list[i - 1])
  }

  lemma {:induction false} DistinctAligned(list: seq<Row>, limit: nat)
    requires Sorted(list) && MillisDiffer(list) && limit >= 1
    ensures Aligned(list, limit)
    decreases |list|
  {
    if |list| > limit {
      DistinctAligned(list[limit..], limit);
      assert list[limit - 1].createdAt >= list[limit].createdAt;
    }
  }

  lemma {:induction false} AlignedByOne(list: seq<Row>)
    requires Aligned(list, 1)
    ensures MillisDiffer(list)
    decreases |list|
  {
    if |list| > 1 {
      AlignedByOne(list[1..]);
      forall i | 0 < i < |list|
        ensures Millis(list[i]) != Millis(list[i - 1])
      {
        if i > 1 {
          assert list[1..][i - 1] == list[i] && list[1..][i - 2] == list[i - 1];
        }
      }
    }
  }

  ghost predicate AlwaysAligned(list: seq<Row>) {
    forall limit: nat :: limit >= 1 ==> Aligned(list, limit)
  }

  /** Every page size works if and only if no two orders of the customer share a millisecond. */
  lemma EveryLimitWorks(list: seq<Row>)
    requires Sorted(list)
    ensures AlwaysAligned(list) <==> MillisDiffer(list)
  {
    if MillisDiffer(list) {
      forall limit: nat | limit >= 1
        ensures Aligned(list, limit)
      {
        DistinctAligned(list, limit);
      }
      assert AlwaysAligned(list);
    }
    if AlwaysAligned(list) {
      var one: nat := 1;
      assert Aligned(list, one);
      AlignedByOne(list);
    }
  }

  /** Two orders of one millisecond, on pages of one: the second is never shown. */
  lemma SameMillisecondIsSkipped(later: Row, earlier: Row)
    requires Millis(later) == Millis(earlier) && later.createdAt >= earlier.createdAt
    ensures var list := [later, earlier];
            var first := FindByCustomerId(list, None, 1);
            var second := FindByCustomerId(list, first.next, 1);
            first == Page([later], true, Some(Millis(later))) && second == Page([], false, None)
  {
    var list := [later, earlier];
    PageIs(list, None, 1);
    assert list[..1] == [later];
    OlderSkips(list, [], Millis(later));
    assert list + [] == list;
  }
}
