/** Keyset pages over deliveries, newest first, and the walk of a client that follows the cursors. */
module Pagination {
  import opened Wrappers
  import opened Seqs
  import opened Arith

  datatype Row = Row(id: string, createdAt: int, endpoint: string, event: string, status: string)

  /** An absent filter is the empty text; `owned` is the scope of the wallet's endpoints. */
  datatype Query = Query(owned: set<string>, endpoint: string, event: string, status: string)

  datatype Page = Page(rows: seq<Row>, cursor: Option<string>, hasMore: bool)

  predicate Matches(q: Query, r: Row) {
    r.endpoint in q.owned && q.endpoint in {"", r.endpoint} && q.event in {"", r.event} && q.status in {"", r.status}
  }

  /** The table in the order the database returns it: newest first; ids are unique and not empty. */
  predicate Ordered(table: seq<Row>) {
    (forall i, j :: 0 <= i < j < |table| ==> table[i].createdAt >= table[j].createdAt)
    && (forall i, j :: 0 <= i < j < |table| ==> table[i].id != table[j].id)
    && (forall i :: 0 <= i < |table| ==> table[i].id != "")
  }

  function Find(table: seq<Row>, id: string): Option<Row> {
    if table == [] then None else if table[0].id == id then Some(table[0]) else Find(table[1..], id)
  }

  predicate Before(q: Query, bound: Option<int>, r: Row) {
    Matches(q, r) && (bound.Some? ==> r.createdAt < bound.value)
  }

  /** The creation time a cursor stands for; an unknown or empty cursor bounds nothing. */
  function Bound(table: seq<Row>, cursor: string): Option<int> {
    if cursor == "" then None
    else
      match Find(table, cursor)
      case None => None
      case Some(r) => Some(r.createdAt)
  }

  function Selected(table: seq<Row>, q: Query, bound: Option<int>): seq<Row> {
    Filter((r: Row) => Before(q, bound, r), table)
  }

  function Take(rows: seq<Row>, n: nat): seq<Row> {
    if |rows| <= n then rows else rows[..n]
  }

  /** What a caller asks for: a delivery of an owned endpoint that meets each filter that is given. */
  predicate Wanted(q: Query, r: Row) {
    r.endpoint in q.owned
    && (q.endpoint != "" ==> r.endpoint == q.endpoint)
    && (q.event != "" ==> r.event == q.event)
    && (q.status != "" ==> r.status == q.status)
  }

  /** Older than the first row with the cursor's id; an empty or unknown cursor excludes nothing. */
  predicate OlderThanCursor(table: seq<Row>, cursor: string, r: Row) {
    cursor == "" || (forall i :: 0 <= i < |table| ==> table[i].id != cursor)
    || exists i :: (0 <= i < |table| && table[i].id == cursor
          && (forall j :: 0 <= j < i ==> table[j].id != cursor) && r.createdAt < table[i].createdAt)
  }

  lemma {:induction false} FindMeans(table: seq<Row>, id: string)
    ensures Find(table, id).None? <==> forall i :: 0 <= i < |table| ==> table[i].id != id
    ensures Find(table, id).Some? ==> exists i :: (0 <= i < |table| && table[i] == Find(table, id).value
      && table[i].id == id && forall j :: 0 <= j < i ==> table[j].id != id)
  {
    if table != [] && table[0].id != id {
      FindMeans(table[1..], id);
      assert forall i :: 0 < i < |table| ==> table[i] == table[1..][i - 1];
      if Find(table, id).Some? {
        var i :| 0 <= i < |table[1..]| && table[1..][i] == Find(table, id).value && table[1..][i].id == id
          && forall j :: 0 <= j < i ==> table[1..][j].id != id;
        assert table[i + 1] == table[1..][i];
      }
    }
  }

  /** The rows behind a page are the wanted ones of the table that are older than the cursor's, no others. */
  lemma SelectedMembers(table: seq<Row>, q: Query, cursor: string)
    ensures forall r :: r in Selected(table, q, Bound(table, cursor))
                        <==> r in table && Wanted(q, r) && OlderThanCursor(table, cursor, r)
  {
    var before := (r: Row) => Before(q, Bound(table, cursor), r);
    forall r ensures r in Filter(before, table)
      <==> r in table && Wanted(q, r) && OlderThanCursor(table, cursor, r)
    {
      FilterMember(before, table, r);
      FindMeans(table, cursor);
    }
  }

  /** The query fetches one row more than the page holds, to tell whether there is a next page. */
  method ListDeliveries(table: seq<Row>, q: Query, cursor: string, limit: nat) returns (page: Page)
    requires 1 <= limit <= 200
    ensures page == PageOf(Selected(table, q, Bound(table, cursor)), limit)
    ensures forall r :: r in page.rows ==> r in table && Wanted(q, r) && OlderThanCursor(table, cursor, r)
    ensures |page.rows| <= limit && (page.hasMore ==> |page.rows| == limit)
    ensures page.cursor == if page.hasMore then Some(page.rows[limit - 1].id) else None
    ensures !page.hasMore ==> forall r :: r in table && Wanted(q, r) && OlderThanCursor(table, cursor, r)
                                          ==> r in page.rows
  {
    SelectedMembers(table, q, cursor);
    var bound := None;
    if cursor != "" {
      var found := Find(table, cursor);
      if found.Some? {
        bound := Some(found.value.createdAt);
      }
    }
    var rows := Take(Filter((r: Row) => Before(q, bound, r), table), limit + 1);
    var hasMore := |rows| > limit;
    if hasMore {
      rows := rows[..limit];
    }
    var next := if hasMore && rows != [] then Some(rows[|rows| - 1].id) else None;
    page := Page(rows, next, hasMore);
  }

  /** The page cut from all rows that remain. */
  function PageOf(rest: seq<Row>, limit: nat): Page
    requires limit >= 1
  {
    if |rest| <= limit then Page(rest, None, false) else Page(rest[..limit], Some(rest[limit - 1].id), true)
  }

  // ----- following cursors -----

  lemma {:induction false} FindsItself(table: seq<Row>, r: Row)
    requires Ordered(table) && r in table
    ensures Find(table, r.id) == Some(r)
  {
    if table[0] != r {
      assert r in table[1..];
      FindsItself(table[1..], r);
    }
  }

  lemma {:induction false} FilterOrdered(p: Row -> bool, rows: seq<Row>)
    requires Ordered(rows)
    ensures Ordered(Filter(p, rows))
  {
    if rows != [] {
      var front, last := rows[..|rows| - 1], rows[|rows| - 1];
      FilterOrdered(p, front);
      forall r | r in Filter(p, front) ensures r.createdAt >= last.createdAt && r.id != last.id {
        FilterMember(p, front, r);
      }
    }
  }

  function Older(rows: seq<Row>, t: int): seq<Row> {
    Filter((r: Row) => r.createdAt < t, rows)
  }

  /** Where an ordered list passes a time. */
  lemma CutAt(rows: seq<Row>, t: int) returns (k: nat)
    requires Ordered(rows)
    ensures k <= |rows|
    ensures forall i :: 0 <= i < k ==> rows[i].createdAt >= t
    ensures forall i :: k <= i < |rows| ==> rows[i].createdAt < t
  {
    k := 0;
    while k < |rows| && rows[k].createdAt >= t
      invariant 0 <= k <= |rows| && forall i :: 0 <= i < k ==> rows[i].createdAt >= t
    {
      k := k + 1;
    }
  }

  /** In an ordered list the rows older than a time are what is left after a prefix. */
  lemma OlderIsSuffix(rows: seq<Row>, t: int) returns (k: nat)
    requires Ordered(rows)
    ensures k <= |rows| && Older(rows, t) == rows[k..]
    ensures forall i :: 0 <= i < k ==> rows[i].createdAt >= t
    ensures forall i :: k <= i < |rows| ==> rows[i].createdAt < t
  {
    k := CutAt(rows, t);
    var older := (r: Row) => r.createdAt < t;
    FilterNone(older, rows[..k]);
    FilterAll(older, rows[k..]);
    FilterAppend(older, rows[..k], rows[k..]);
    assert rows == rows[..k] + rows[k..];
  }

  lemma NextRest(rest: seq<Row>, limit: nat) returns (k: nat)
    requires Ordered(rest) && 1 <= limit < |rest|
    ensures limit <= k <= |rest| && Older(rest, rest[limit - 1].createdAt) == rest[k..]
    ensures k == limit <==> rest[limit - 1].createdAt != rest[limit].createdAt
  {
    k := OlderIsSuffix(rest, rest[limit - 1].createdAt);
  }

  /** What the next page is cut from: the remaining rows older than the last one shown. */
  lemma NextSelected(table: seq<Row>, q: Query, bound: Option<int>, limit: nat)
    requires Ordered(table) && limit >= 1 && |Selected(table, q, bound)| > limit
    ensures var rest := Selected(table, q, bound);
      Selected(table, q, Bound(table, PageOf(rest, limit).cursor.value)) == Older(rest, rest[limit - 1].createdAt)
  {
    var rest := Selected(table, q, bound);
    var last := rest[limit - 1];
    FilterMember((r: Row) => Before(q, bound, r), table, last);
    FindsItself(table, last);
    OlderAgain(table, q, bound, last.createdAt);
  }

  lemma OlderAgain(table: seq<Row>, q: Query, bound: Option<int>, t: int)
    requires bound.Some? ==> t < bound.value
    ensures Older(Selected(table, q, bound), t) == Selected(table, q, Some(t))
  {
    FilterTwice((r: Row) => Before(q, bound, r), (r: Row) => r.createdAt < t, (r: Row) => Before(q, Some(t), r), table);
  }

  lemma Shrinks(table: seq<Row>, q: Query, bound: Option<int>, limit: nat)
    requires Ordered(table) && limit >= 1 && |Selected(table, q, bound)| > limit
    ensures var rest := Selected(table, q, bound);
      |Selected(table, q, Bound(table, PageOf(rest, limit).cursor.value))| < |rest|
  {
    NextSelected(table, q, bound, limit);
    FilterOrdered((r: Row) => Before(q, bound, r), table);
    var k := NextRest(Selected(table, q, bound), limit);
  }

  /** The pages a client gets from a cursor on, each through the cursor of the one before. */
  ghost function Walk(table: seq<Row>, q: Query, cursor: string, limit: nat): (pages: seq<Page>)
    requires Ordered(table) && limit >= 1
    decreases |Selected(table, q, Bound(table, cursor))|
  {
    var rest := Selected(table, q, Bound(table, cursor));
    var page := PageOf(rest, limit);
    if page.cursor.None? then [page]
    else
      Shrinks(table, q, Bound(table, cursor), limit);
      [page] + Walk(table, q, page.cursor.value, limit)
  }

  function Shown(pages: seq<Page>): seq<Row> {
    if pages == [] then [] else pages[0].rows + Shown(pages[1..])
  }

  /** No two rows of one creation time stand on both sides of a page boundary. */
  predicate NoTieSplit(rest: seq<Row>, limit: nat)
    requires limit >= 1
  {
    forall i :: 0 < i < |rest| && i % limit == 0 ==> rest[i - 1].createdAt != rest[i].createdAt
  }

  lemma NoTieSplitStep(rest: seq<Row>, limit: nat)
    requires 1 <= limit < |rest|
    ensures NoTieSplit(rest, limit)
      <==> rest[limit - 1].createdAt != rest[limit].createdAt && NoTieSplit(rest[limit..], limit)
  {
    DivMod(limit, 1, limit, 0);
    if NoTieSplit(rest, limit) {
      forall i | 0 < i < |rest[limit..]| && i % limit == 0
        ensures rest[limit..][i - 1].createdAt != rest[limit..][i].createdAt
      {
        DivModStep(i, limit);
        assert rest[limit..][i] == rest[i + limit] && rest[limit..][i - 1] == rest[i + limit - 1];
      }
    }
    if rest[limit - 1].createdAt != rest[limit].createdAt && NoTieSplit(rest[limit..], limit) {
      forall i | 0 < i < |rest| && i % limit == 0 ensures rest[i - 1].createdAt != rest[i].createdAt {
        if i < limit {
          DivMod(i, 0, limit, i);
        } else if i > limit {
          DivModStep(i - limit, limit);
          assert rest[limit..][i - limit] == rest[i] && rest[limit..][i - limit - 1] == rest[i - 1];
        }
      }
    }
  }

  lemma ShortHasNoSplit(rest: seq<Row>, limit: nat)
    requires limit >= 1 && |rest| <= limit
    ensures NoTieSplit(rest, limit)
  {
    forall i | 0 < i < |rest| ensures i % limit != 0 {
      DivMod(i, 0, limit, i);
    }
  }

  function PagesFor(n: nat, limit: nat): nat
    requires limit >= 1
  {
    if n == 0 then 1 else (n + limit - 1) / limit
  }

  /** One page more for each further `limit` rows. */
  lemma PagesForStep(n: nat, limit: nat)
    requires limit >= 1
    ensures n <= limit ==> PagesFor(n, limit) == 1
    ensures n > limit ==> PagesFor(n, limit) == 1 + PagesFor(n - limit, limit)
  {
    if n > limit {
      DivModStep(n - 1, limit);
      assert n - 1 + limit == n + limit - 1;
      if n - limit > 0 {
        assert n - limit + limit - 1 == n - 1;
      }
    } else if n > 0 {
      DivMod(n + limit - 1, 1, limit, n - 1);
    }
  }

  /** The first page followed by what comes after it. */
  lemma PageThenRest(rest: seq<Row>, limit: nat, k: nat, shown: seq<Row>)
    requires 1 <= limit < |rest| && limit <= k <= |rest|
    requires k == limit <==> rest[limit - 1].createdAt != rest[limit].createdAt
    requires |shown| <= |rest| - k && (shown == rest[k..] <==> NoTieSplit(rest[k..], limit))
    ensures |rest[..limit] + shown| <= |rest| && (rest[..limit] + shown == rest <==> NoTieSplit(rest, limit))
  {
    NoTieSplitStep(rest, limit);
    assert rest == rest[..limit] + rest[limit..];
    assert (rest[..limit] + shown)[limit..] == shown;
  }

  lemma WalkStep(table: seq<Row>, q: Query, cursor: string, limit: nat) returns (next: string, k: nat)
    requires Ordered(table) && limit >= 1 && |Selected(table, q, Bound(table, cursor))| > limit
    ensures var rest := Selected(table, q, Bound(table, cursor));
      limit <= k <= |rest| && Selected(table, q, Bound(table, next)) == rest[k..]
      && (k == limit <==> rest[limit - 1].createdAt != rest[limit].createdAt)
      && |Walk(table, q, cursor, limit)| == 1 + |Walk(table, q, next, limit)|
      && Shown(Walk(table, q, cursor, limit)) == rest[..limit] + Shown(Walk(table, q, next, limit))
  {
    var bound := Bound(table, cursor);
    var rest := Selected(table, q, bound);
    next := PageOf(rest, limit).cursor.value;
    Shrinks(table, q, bound, limit);
    NextSelected(table, q, bound, limit);
    FilterOrdered((r: Row) => Before(q, bound, r), table);
    k := NextRest(rest, limit);
    var pages, after := Walk(table, q, cursor, limit), Walk(table, q, next, limit);
    assert pages == [PageOf(rest, limit)] + after && pages[1..] == after;
  }

  /**
   On an unchanging table, following the cursors shows exactly the rows a query selects, in order and
   each once, if and only if no page boundary splits rows of one creation time; a walk never shows
   more, and a complete one has max(1, ceil(n / limit)) pages.
   */
  lemma {:induction false} WalkShows(table: seq<Row>, q: Query, cursor: string, limit: nat)
    requires Ordered(table) && limit >= 1
    ensures var rest := Selected(table, q, Bound(table, cursor));
      var shown := Shown(Walk(table, q, cursor, limit));
      (shown == rest <==> NoTieSplit(rest, limit)) && |shown| <= |rest|
      && (NoTieSplit(rest, limit) ==> |Walk(table, q, cursor, limit)| == PagesFor(|rest|, limit))
    decreases |Selected(table, q, Bound(table, cursor))|
  {
    var rest := Selected(table, q, Bound(table, cursor));
    PagesForStep(|rest|, limit);
    if |rest| <= limit {
      ShortHasNoSplit(rest, limit);
      assert Shown([PageOf(rest, limit)]) == rest;
    } else {
      var next, k := WalkStep(table, q, cursor, limit);
      WalkShows(table, q, next, limit);
      PageThenRest(rest, limit, k, Shown(Walk(table, q, next, limit)));
      NoTieSplitStep(rest, limit);
    }
  }

  /** With distinct creation times every walk is complete. */
  lemma DistinctTimesWalk(table: seq<Row>, q: Query, limit: nat)
    requires Ordered(table) && limit >= 1
    requires forall i, j :: 0 <= i < j < |table| ==> table[i].createdAt != table[j].createdAt
    ensures var rest := Selected(table, q, None);
      Shown(Walk(table, q, "", limit)) == rest && |Walk(table, q, "", limit)| == PagesFor(|rest|, limit)
  {
    WalkShows(table, q, "", limit);
    FilterStrict((r: Row) => Before(q, None, r), table);
  }

  predicate Strict(rows: seq<Row>) {
    forall i, j :: 0 <= i < j < |rows| ==> rows[i].createdAt > rows[j].createdAt
  }

  lemma {:induction false} FilterStrict(p: Row -> bool, rows: seq<Row>)
    requires Strict(rows)
    ensures Strict(Filter(p, rows))
  {
    if rows != [] {
      var front, last := rows[..|rows| - 1], rows[|rows| - 1];
      FilterStrict(p, front);
      forall r | r in Filter(p, front) ensures r.createdAt > last.createdAt {
        FilterMember(p, front, r);
      }
    }
  }
}
