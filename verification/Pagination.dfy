/** Keyset pagination over the contracts table: pkg/graph/contracts.go, and a client that walks its pages. */
module Pagination {
  import opened Base
  import opened Contracts
  import opened Cursor

  datatype Edge = Edge(node: Row, cursor: string)
  datatype PageInfo = PageInfo(hasNextPage: bool, hasPreviousPage: bool, startCursor: string, endCursor: string)
  datatype Connection = Connection(edges: seq<Edge>, pageInfo: PageInfo)

  const DEFAULT_LIMIT: int := 10

  /** The WHERE clauses besides the one on id. */
  type Filter = Row -> bool

  /** The rows that pass the filter with `lo < id <= hi`, in table order. */
  function Within(rows: seq<Row>, filter: Filter, lo: int, hi: int): seq<Row> {
    if rows == [] then []
    else
      var last := rows[|rows| - 1];
      var rest := Within(rows[..|rows| - 1], filter, lo, hi);
      if lo < last.id <= hi && filter(last) then rest + [last] else rest
  }

  /** All rows that pass the filter after `lo`; ids are int64. */
  function Beyond(t: Table, filter: Filter, lo: int): seq<Row> { Within(t.rows, filter, lo, MAX_INT64) }

  function First(rows: seq<Row>, limit: int): seq<Row>
    requires limit >= 0
  {
    if |rows| <= limit then rows else rows[..limit]
  }

  /** `WHERE id > after ... ORDER BY id LIMIT limit`: the table is stored in id order. */
  function Select(t: Table, filter: Filter, after: int, limit: int): seq<Row>
    requires limit >= 0
  {
    First(Beyond(t, filter, after), limit)
  }

  function EdgesOf(rows: seq<Row>): seq<Edge> {
    seq(|rows|, i requires 0 <= i < |rows| => Edge(rows[i], EncodeCursor(rows[i].id)))
  }

  function InfoOf(edges: seq<Edge>, limit: int): PageInfo {
    if edges == [] then PageInfo(false, false, "", "")
    else PageInfo(|edges| == limit, false, edges[0].cursor, edges[|edges| - 1].cursor)
  }

  /** Where a page starts: the beginning, or the decoded cursor as an int64; a bad cursor is an error. */
  function StartOf(after: Option<string>): Option<int> {
    if after.None? then Some(0)
    else
      var n := DecodeCursor(after.value);
      if n.None? then None else Some(Int64(n.value))
  }

  /** The page of at most `cap` rows, for a caller who asked for `limit`. */
  function PageOf(t: Table, filter: Filter, cap: nat, limit: int, after: Option<string>): Option<Connection> {
    var start := StartOf(after);
    if start.None? then None
    else
      var edges := EdgesOf(Select(t, filter, start.value, cap));
      Some(Connection(edges, InfoOf(edges, limit)))
  }

  function Page(t: Table, filter: Filter, limit: int, after: Option<string>): Option<Connection>
    requires limit >= 1
  {
    PageOf(t, filter, limit, limit, after)
  }

  /** A page starts behind the number its cursor stands for, as an int64; without a cursor it starts behind 0. */
  lemma PageStartsBehindItsCursor(after: Option<string>)
    ensures after.None? ==> StartOf(after) == Some(0)
    ensures after.Some? ==> (StartOf(after).Some? <==> DecodeCursor(after.value).Some?)
    ensures after.Some? && StartOf(after).Some? ==>
      var (n, start) := (DecodeCursor(after.value).value, StartOf(after).value);
      && -MAX_INT64 - 1 <= start <= MAX_INT64 && (n - start) % TWO_64 == 0
      && (-MAX_INT64 - 1 <= n <= MAX_INT64 ==> start == n)
  {
    if after.Some? && DecodeCursor(after.value).Some? { WordsAreCongruent(DecodeCursor(after.value).value); }
  }

  lemma EdgesGrow(rows: seq<Row>, i: nat)
    requires i < |rows|
    ensures EdgesOf(rows[..i + 1]) == EdgesOf(rows[..i]) + [Edge(rows[i], EncodeCursor(rows[i].id))]
  {
  }

  /** The rows of a query as a page, edge by edge. */
  method Assemble(rows: seq<Row>, actualLimit: int) returns (page: Connection)
    ensures page == Connection(EdgesOf(rows), InfoOf(EdgesOf(rows), actualLimit))
  {
    var edges: seq<Edge> := [];
    for i := 0 to |rows|
      invariant edges == EdgesOf(rows[..i])
    {
      EdgesGrow(rows, i);
      edges := edges + [Edge(rows[i], EncodeCursor(rows[i].id))];
    }
    assert rows[..|rows|] == rows;
    var pageInfo := PageInfo(false, false, "", "");
    if |edges| > 0 {
      pageInfo := pageInfo.(startCursor := edges[0].cursor, endCursor := edges[|edges| - 1].cursor);
      pageInfo := pageInfo.(hasNextPage := |edges| == actualLimit);
    }
    page := Connection(edges, pageInfo);
  }

  /**
   resolveContracts: decode the cursor, query, and turn the rows into edges one by one. The query
   builder and SQLite decide what becomes of a limit below 1: a failing query, or `lowCap` rows at most.
   */
  method ResolveContracts(
    t: Table, filter: Filter, limit: Option<int>, after: Option<string>, queryFails: bool, lowCap: nat)
    returns (connection: Option<Connection>)
    ensures var asked := if limit.Some? then limit.value else DEFAULT_LIMIT;
      connection
        == if queryFails then None else PageOf(t, filter, if asked >= 1 then asked else lowCap, asked, after)
    ensures connection.Some? <==> !queryFails && (after.None? || DecodeCursor(after.value).Some?)
    ensures connection.Some? ==>
      var asked := if limit.Some? then limit.value else 10;
      var (edges, info) := (connection.value.edges, connection.value.pageInfo);
      && (asked >= 1 ==> |edges| <= asked)
      && !info.hasPreviousPage && (info.hasNextPage <==> edges != [] && |edges| == asked)
      && (edges == [] ==> info.startCursor == "" && info.endCursor == "")
      && (edges != [] ==> info.startCursor == edges[0].cursor && info.endCursor == edges[|edges| - 1].cursor)
  {
    var actualLimit := DEFAULT_LIMIT;
    if limit.Some? { actualLimit := limit.value; }
    var startAfter := 0;
    if after.Some? {
      var decoded := DecodeCursor(after.value);
      if decoded.None? { return None; }
      startAfter := Int64(decoded.value);
    }
    if queryFails { return None; }
    var rows := Select(t, filter, startAfter, if actualLimit >= 1 then actualLimit else lowCap);
    var page := Assemble(rows, actualLimit);
    return Some(page);
  }

  // ----- rows in id order -----

  predicate Ascending(rows: seq<Row>) {
    forall i, j :: 0 <= i < j < |rows| ==> rows[i].id < rows[j].id
  }

  lemma {:induction false} WithinSelects(rows: seq<Row>, filter: Filter, lo: int, hi: int)
    requires Ascending(rows)
    ensures Ascending(Within(rows, filter, lo, hi))
    ensures forall i :: 0 <= i < |Within(rows, filter, lo, hi)| ==>
      var row := Within(rows, filter, lo, hi)[i]; row in rows && lo < row.id <= hi && filter(row)
  {
    if rows != [] { WithinSelects(rows[..|rows| - 1], filter, lo, hi); }
  }

  lemma {:induction false} NothingWithin(rows: seq<Row>, filter: Filter, lo: int, hi: int)
    requires forall i :: 0 <= i < |rows| ==> !(lo < rows[i].id <= hi)
    ensures Within(rows, filter, lo, hi) == []
  {
    if rows != [] { NothingWithin(rows[..|rows| - 1], filter, lo, hi); }
  }

  /** Adjacent ranges join up, without gap or overlap. */
  lemma {:induction false} WithinSplits(rows: seq<Row>, filter: Filter, lo: int, mid: int, hi: int)
    requires Ascending(rows) && lo <= mid <= hi
    ensures Within(rows, filter, lo, hi) == Within(rows, filter, lo, mid) + Within(rows, filter, mid, hi)
  {
    if rows != [] {
      var front, last := rows[..|rows| - 1], rows[|rows| - 1];
      WithinSplits(front, filter, lo, mid, hi);
      if last.id <= mid {
        NothingWithin(front, filter, mid, hi);
      }
    }
  }

  /** The first `k` rows of a range are the range up to the last of them. */
  lemma {:induction false} PrefixIsARange(rows: seq<Row>, filter: Filter, lo: int, hi: int, k: int)
    requires Ascending(rows) && 1 <= k <= |Within(rows, filter, lo, hi)|
    ensures var m := Within(rows, filter, lo, hi);
      lo < m[k - 1].id <= hi && Within(rows, filter, lo, m[k - 1].id) == m[..k]
  {
    var front, last := rows[..|rows| - 1], rows[|rows| - 1];
    var m, rest := Within(rows, filter, lo, hi), Within(front, filter, lo, hi);
    if k <= |rest| {
      PrefixIsARange(front, filter, lo, hi, k);
      WithinSelects(front, filter, lo, hi);
      assert rest[k - 1] in front && rest[k - 1].id < last.id;
      assert m[..k] == rest[..k];
    } else {
      WithinSplits(front, filter, lo, last.id, hi);
      NothingWithin(front, filter, last.id, hi);
    }
  }

  // ----- a client walking the pages while the table grows -----

  /** Between two page reads: rows appended with higher ids, rows rewritten without changing the filter's verdict. */
  ghost predicate Evolves(t: Table, u: Table, filter: Filter) {
    Keeps(t, u) && forall i :: 0 <= i < |t.rows| ==> filter(u.rows[i]) == filter(t.rows[i])
  }

  function Ids(rows: seq<Row>): seq<int> {
    seq(|rows|, i requires 0 <= i < |rows| => rows[i].id)
  }

  function Nodes(edges: seq<Edge>): seq<Row> {
    seq(|edges|, i requires 0 <= i < |edges| => edges[i].node)
  }

  datatype Walker = Walker(edges: seq<Edge>, after: Option<string>, more: bool)

  const START: Walker := Walker([], None, true)

  /** Read one page and remember its end cursor; stop when there is no next page or the server refuses. */
  function ReadPage(w: Walker, t: Table, filter: Filter, limit: int): Walker
    requires limit >= 1
  {
    if !w.more then w
    else
      match Page(t, filter, limit, w.after)
      case None => w.(more := false)
      case Some(page) =>
        Walker(w.edges + page.edges, Some(page.pageInfo.endCursor), page.pageInfo.hasNextPage)
  }

  /** One page from each table in turn. */
  function Walk(tables: seq<Table>, filter: Filter, limit: int): Walker
    requires limit >= 1
  {
    if tables == [] then START
    else ReadPage(Walk(tables[..|tables| - 1], filter, limit), tables[|tables| - 1], filter, limit)
  }

  ghost predicate History(tables: seq<Table>, filter: Filter) {
    && (forall i :: 0 <= i < |tables| ==> Valid(tables[i]))
    && (forall i :: 0 < i < |tables| ==> Evolves(tables[i - 1], tables[i], filter))
  }

  /** The cursor of a row leads back to its id. */
  lemma CursorLeadsBack(id: int)
    requires 0 <= id <= MAX_INT64
    ensures StartOf(Some(EncodeCursor(id))) == Some(id)
  {
    CursorRoundTrip(id);
  }

  lemma EdgesShow(rows: seq<Row>, limit: int)
    requires limit >= 1
    ensures var edges := EdgesOf(rows);
      var info := InfoOf(edges, limit);
      && Nodes(edges) == rows && (info.hasNextPage <==> |rows| == limit)
      && (forall i :: 0 <= i < |rows| ==> edges[i].cursor == EncodeCursor(rows[i].id))
      && (rows != [] ==>
            info.startCursor == EncodeCursor(rows[0].id) && info.endCursor == EncodeCursor(rows[|rows| - 1].id))
  {
  }

  lemma PageShows(t: Table, filter: Filter, limit: int, after: Option<string>)
    requires limit >= 1 && StartOf(after).Some?
    ensures var rows := Select(t, filter, StartOf(after).value, limit);
      var page := Page(t, filter, limit, after).value;
      && Nodes(page.edges) == rows && (page.pageInfo.hasNextPage <==> |rows| == limit)
      && (forall i :: 0 <= i < |rows| ==> page.edges[i].cursor == EncodeCursor(rows[i].id))
      && (rows != [] ==>
            && page.pageInfo.startCursor == EncodeCursor(rows[0].id)
            && page.pageInfo.endCursor == EncodeCursor(rows[|rows| - 1].id))
  {
    EdgesShow(Select(t, filter, StartOf(after).value, limit), limit);
  }

  lemma CursorsLeadBack(t: Table, filter: Filter, limit: int, start: int)
    requires Valid(t) && limit >= 1
    ensures forall row :: row in Select(t, filter, start, limit) ==> StartOf(Some(EncodeCursor(row.id))) == Some(row.id)
  {
    WithinSelects(t.rows, filter, start, MAX_INT64);
    forall row | row in Select(t, filter, start, limit)
      ensures StartOf(Some(EncodeCursor(row.id))) == Some(row.id)
    {
      assert row in Beyond(t, filter, start) && row in t.rows;
      CursorLeadsBack(row.id);
    }
  }

  lemma CursorsOfRowsLeadBack(
    page: Connection, rows: seq<Row>, t: Table, filter: Filter, limit: int, start: int)
    requires Valid(t) && limit >= 1 && rows == Select(t, filter, start, limit) && |page.edges| == |rows|
    requires forall i :: 0 <= i < |rows| ==> page.edges[i].cursor == EncodeCursor(rows[i].id)
    requires rows != [] ==>
      page.pageInfo.startCursor == EncodeCursor(rows[0].id)
      && page.pageInfo.endCursor == EncodeCursor(rows[|rows| - 1].id)
    ensures forall i :: 0 <= i < |rows| ==> StartOf(Some(page.edges[i].cursor)) == Some(rows[i].id)
    ensures rows != [] ==>
      StartOf(Some(page.pageInfo.startCursor)) == Some(rows[0].id)
      && StartOf(Some(page.pageInfo.endCursor)) == Some(rows[|rows| - 1].id)
  {
    CursorsLeadBack(t, filter, limit, start);
  }

  /** The rows of a page are all the matching rows from its start up to the last of them. */
  lemma StretchEnds(t: Table, filter: Filter, limit: int, start: int)
    requires Valid(t) && limit >= 1 && Select(t, filter, start, limit) != []
    ensures var rows := Select(t, filter, start, limit);
      var last := rows[|rows| - 1].id;
      start < last <= t.lastId && rows == Within(t.rows, filter, start, last)
  {
    var rows := Select(t, filter, start, limit);
    PrefixIsARange(t.rows, filter, start, MAX_INT64, |rows|);
    WithinSelects(t.rows, filter, start, MAX_INT64);
    assert rows[|rows| - 1] in t.rows;
  }

  /** A page is the next stretch of matching rows, and every cursor on it decodes to its row's id. */
  lemma PageIsTheNextStretch(t: Table, filter: Filter, limit: int, after: Option<string>)
    requires Valid(t) && limit >= 1 && StartOf(after).Some?
    ensures var start := StartOf(after).value;
      var page := Page(t, filter, limit, after).value;
      var nodes := Nodes(page.edges);
      && nodes == Select(t, filter, start, limit) && |nodes| <= limit
      && (page.pageInfo.hasNextPage <==> |nodes| == limit)
      && (forall i :: 0 <= i < |nodes| ==> StartOf(Some(page.edges[i].cursor)) == Some(nodes[i].id))
      && (nodes != [] ==>
            && StartOf(Some(page.pageInfo.startCursor)) == Some(nodes[0].id)
            && StartOf(Some(page.pageInfo.endCursor)) == Some(nodes[|nodes| - 1].id)
            && start < nodes[|nodes| - 1].id <= t.lastId
            && nodes == Within(t.rows, filter, start, nodes[|nodes| - 1].id))
  {
    var start := StartOf(after).value;
    PageShows(t, filter, limit, after);
    var page := Page(t, filter, limit, after).value;
    CursorsOfRowsLeadBack(page, Select(t, filter, start, limit), t, filter, limit, start);
    if Select(t, filter, start, limit) != [] { StretchEnds(t, filter, limit, start); }
  }

  /** A page without a next page leaves no matching row behind it. */
  lemma LastPageIsLast(t: Table, filter: Filter, limit: int, after: Option<string>)
    requires Valid(t) && limit >= 1 && StartOf(after).Some?
    requires !Page(t, filter, limit, after).value.pageInfo.hasNextPage
    ensures Nodes(Page(t, filter, limit, after).value.edges) == Beyond(t, filter, StartOf(after).value)
  {
    PageIsTheNextStretch(t, filter, limit, after);
  }

  /** With a limit below 1 there is never a next page, so the page is all there is exactly when nothing was capped. */
  lemma LowLimitEndsTheWalk(t: Table, filter: Filter, cap: nat, limit: int, after: Option<string>)
    requires limit < 1 && StartOf(after).Some?
    ensures var page := PageOf(t, filter, cap, limit, after).value;
      var rest := Beyond(t, filter, StartOf(after).value);
      && !page.pageInfo.hasNextPage
      && (Nodes(page.edges) == rest <==> |rest| <= cap)
  {
    var rest := Beyond(t, filter, StartOf(after).value);
    assert Nodes(PageOf(t, filter, cap, limit, after).value.edges) == First(rest, cap);
  }

  lemma IdsJoin(a: seq<Row>, b: seq<Row>)
    ensures Ids(a + b) == Ids(a) + Ids(b)
  {
  }

  /** The same ids pass up to `hi` when later rows lie beyond it and verdicts have not changed. */
  lemma {:induction false} SameIdsWithin(a: seq<Row>, b: seq<Row>, filter: Filter, lo: int, hi: int)
    requires |a| <= |b|
    requires forall i :: 0 <= i < |a| ==> a[i].id == b[i].id && filter(a[i]) == filter(b[i])
    requires forall i :: |a| <= i < |b| ==> hi < b[i].id
    ensures Ids(Within(a, filter, lo, hi)) == Ids(Within(b, filter, lo, hi))
  {
    if |a| < |b| {
      SameIdsWithin(a, b[..|b| - 1], filter, lo, hi);
    } else if a != [] {
      var x, y := a[|a| - 1], b[|b| - 1];
      SameIdsWithin(a[..|a| - 1], b[..|b| - 1], filter, lo, hi);
      IdsJoin(Within(a[..|a| - 1], filter, lo, hi), [x]);
      IdsJoin(Within(b[..|b| - 1], filter, lo, hi), [y]);
      assert Ids([x]) == Ids([y]);
    }
  }

  /** After `w`, the ids seen are those of the matching rows of `t` up to the cursor. */
  ghost predicate SeenUpTo(w: Walker, t: Table, filter: Filter) {
    && StartOf(w.after).Some? && 0 <= StartOf(w.after).value <= t.lastId
    && Ids(Nodes(w.edges)) == Ids(Within(t.rows, filter, 0, StartOf(w.after).value))
  }

  lemma GrowthKeepsSeen(w: Walker, t: Table, u: Table, filter: Filter)
    requires Valid(t) && Valid(u) && Evolves(t, u, filter) && SeenUpTo(w, t, filter)
    ensures SeenUpTo(w, u, filter)
  {
    SameIdsWithin(t.rows, u.rows, filter, 0, StartOf(w.after).value);
  }

  lemma NodesJoin(a: seq<Edge>, b: seq<Edge>)
    ensures Nodes(a + b) == Nodes(a) + Nodes(b)
  {
  }

  /** From `w` to `v` the walker gained `rows`, the next stretch, and moved its cursor to the last of them. */
  ghost predicate Gained(w: Walker, v: Walker, rows: seq<Row>, limit: int) {
    && Nodes(v.edges) == Nodes(w.edges) + rows && (v.more <==> |rows| == limit)
    && (rows != [] ==> StartOf(v.after) == Some(rows[|rows| - 1].id))
  }

  lemma ReadPageGains(w: Walker, t: Table, filter: Filter, limit: int)
    requires Valid(t) && limit >= 1 && w.more && StartOf(w.after).Some? && 0 <= StartOf(w.after).value
    ensures Gained(w, ReadPage(w, t, filter, limit), Select(t, filter, StartOf(w.after).value, limit), limit)
  {
    PageIsTheNextStretch(t, filter, limit, w.after);
    NodesJoin(w.edges, Page(t, filter, limit, w.after).value.edges);
  }

  lemma GainExtendsSeen(w: Walker, v: Walker, t: Table, filter: Filter, limit: int, start: int)
    requires Valid(t) && limit >= 1 && SeenUpTo(w, t, filter) && StartOf(w.after) == Some(start)
    requires Gained(w, v, Select(t, filter, start, limit), limit)
    ensures if v.more then SeenUpTo(v, t, filter) else Ids(Nodes(v.edges)) == Ids(Beyond(t, filter, 0))
  {
    var rows := Select(t, filter, start, limit);
    var seen := Within(t.rows, filter, 0, start);
    IdsJoin(Nodes(w.edges), rows);
    IdsJoin(seen, rows);
    if v.more {
      StretchEnds(t, filter, limit, start);
      WithinSplits(t.rows, filter, 0, start, rows[|rows| - 1].id);
    } else {
      WithinSplits(t.rows, filter, 0, start, MAX_INT64);
    }
  }

  lemma PageExtendsSeen(w: Walker, t: Table, filter: Filter, limit: int)
    requires Valid(t) && limit >= 1 && w.more && SeenUpTo(w, t, filter)
    ensures var v := ReadPage(w, t, filter, limit);
      if v.more then SeenUpTo(v, t, filter) else Ids(Nodes(v.edges)) == Ids(Beyond(t, filter, 0))
  {
    ReadPageGains(w, t, filter, limit);
    GainExtendsSeen(w, ReadPage(w, t, filter, limit), t, filter, limit, StartOf(w.after).value);
  }

  lemma OnePageLater(w: Walker, v: Walker, u: Table, t: Table, filter: Filter, limit: int)
    requires Valid(u) && Valid(t) && Evolves(u, t, filter) && limit >= 1
    requires w.more && SeenUpTo(w, u, filter) && v == ReadPage(w, u, filter, limit) && v.more
    ensures SeenUpTo(v, t, filter)
  {
    PageExtendsSeen(w, u, filter, limit);
    GrowthKeepsSeen(v, u, t, filter);
  }

  /** Before reading from the last table, the walker has seen what it should have. */
  lemma {:induction false} ReadyForNext(tables: seq<Table>, filter: Filter, limit: int)
    requires tables != [] && History(tables, filter) && limit >= 1
    requires Walk(tables[..|tables| - 1], filter, limit).more
    ensures SeenUpTo(Walk(tables[..|tables| - 1], filter, limit), tables[|tables| - 1], filter)
  {
    var before, t := tables[..|tables| - 1], tables[|tables| - 1];
    if before == [] {
      NothingSeenYet(t, filter);
    } else {
      var w, u := Walk(before[..|before| - 1], filter, limit), before[|before| - 1];
      ReadyForNext(before, filter, limit);
      assert Evolves(tables[|tables| - 2], tables[|tables| - 1], filter);
      OnePageLater(w, Walk(before, filter, limit), u, t, filter, limit);
    }
  }

  lemma NothingSeenYet(t: Table, filter: Filter)
    requires Valid(t)
    ensures SeenUpTo(START, t, filter)
  {
    NothingWithin(t.rows, filter, 0, 0);
  }

  lemma {:induction false} WithinMissesNothing(rows: seq<Row>, filter: Filter, lo: int, hi: int, row: Row)
    requires row in rows && lo < row.id <= hi && filter(row)
    ensures row in Within(rows, filter, lo, hi)
  {
    if row != rows[|rows| - 1] { WithinMissesNothing(rows[..|rows| - 1], filter, lo, hi, row); }
  }

  /** The ids are those of the rows that pass the filter: each of them, no other, each once, in order. */
  ghost predicate ListsTheMatching(ids: seq<int>, t: Table, filter: Filter) {
    && (forall i, j :: 0 <= i < j < |ids| ==> ids[i] < ids[j])
    && (forall row :: row in t.rows && filter(row) ==> row.id in ids)
    && (forall id :: id in ids ==> exists row :: row in t.rows && row.id == id && filter(row))
  }

  lemma BeyondListsTheMatching(t: Table, filter: Filter)
    requires Valid(t)
    ensures ListsTheMatching(Ids(Beyond(t, filter, 0)), t, filter)
  {
    var m := Beyond(t, filter, 0);
    WithinSelects(t.rows, filter, 0, MAX_INT64);
    forall row | row in t.rows && filter(row)
      ensures row.id in Ids(m)
    {
      WithinMissesNothing(t.rows, filter, 0, MAX_INT64, row);
      var k :| 0 <= k < |m| && m[k] == row;
      assert Ids(m)[k] == row.id;
    }
    forall id | id in Ids(m)
      ensures exists row :: row in t.rows && row.id == id && filter(row)
    {
      var k :| 0 <= k < |m| && Ids(m)[k] == id;
      assert m[k] in t.rows && m[k].id == id && filter(m[k]);
    }
  }

  /**
   Feeding each end cursor back while there is a next page, with any inserts and updates between
   the reads, yields the ids of exactly the matching rows of the table as last read, in ascending
   order: none skipped, none twice.
   */
  lemma WalkIsExact(tables: seq<Table>, filter: Filter, limit: int)
    requires tables != [] && History(tables, filter) && limit >= 1
    requires Walk(tables[..|tables| - 1], filter, limit).more && !Walk(tables, filter, limit).more
    ensures var ids := Ids(Nodes(Walk(tables, filter, limit).edges));
      ListsTheMatching(ids, tables[|tables| - 1], filter)
  {
    var t := tables[|tables| - 1];
    BeyondListsTheMatching(t, filter);
    ReadyForNext(tables, filter, limit);
    PageExtendsSeen(Walk(tables[..|tables| - 1], filter, limit), t, filter, limit);
  }

  // ----- a table that does not change -----

  function Copies(t: Table, k: nat): seq<Table> { seq(k, _ => t) }

  /** The walker has seen the first `seen` of the matching rows and stands right after them. */
  ghost predicate SeenFirst(w: Walker, m: seq<Row>, seen: nat) {
    && w.more && seen <= |m| && Nodes(w.edges) == m[..seen]
    && StartOf(w.after) == Some(if seen == 0 then 0 else m[seen - 1].id)
  }

  lemma RestAfter(t: Table, filter: Filter, seen: nat)
    requires Valid(t) && 1 <= seen <= |Beyond(t, filter, 0)|
    ensures var m := Beyond(t, filter, 0);
      0 < m[seen - 1].id && Beyond(t, filter, m[seen - 1].id) == m[seen..]
  {
    var m := Beyond(t, filter, 0);
    WithinSelects(t.rows, filter, 0, MAX_INT64);
    PrefixIsARange(t.rows, filter, 0, MAX_INT64, seen);
    WithinSplits(t.rows, filter, 0, m[seen - 1].id, MAX_INT64);
  }

  lemma NextSlice(m: seq<Row>, limit: int, seen: nat)
    requires limit >= 1 && seen <= |m|
    ensures var rows := First(m[seen..], limit);
      if seen + limit <= |m| then
        |rows| == limit && m[..seen] + rows == m[..seen + limit] && rows[limit - 1] == m[seen + limit - 1]
      else |rows| < limit && m[..seen] + rows == m
  {
    if seen + limit <= |m| {
      assert First(m[seen..], limit) == m[seen..seen + limit];
      assert m[..seen] + m[seen..seen + limit] == m[..seen + limit];
    } else {
      assert m[..seen] + m[seen..] == m;
    }
  }

  lemma StaticGain(w: Walker, v: Walker, m: seq<Row>, limit: int, seen: nat)
    requires limit >= 1 && SeenFirst(w, m, seen) && Gained(w, v, First(m[seen..], limit), limit)
    ensures if seen + limit <= |m| then SeenFirst(v, m, seen + limit) else !v.more && Nodes(v.edges) == m
  {
    NextSlice(m, limit, seen);
  }

  lemma StaticPage(w: Walker, t: Table, filter: Filter, limit: int, m: seq<Row>, seen: nat)
    requires Valid(t) && limit >= 1 && m == Beyond(t, filter, 0) && SeenFirst(w, m, seen)
    ensures var v := ReadPage(w, t, filter, limit);
      if seen + limit <= |m| then SeenFirst(v, m, seen + limit) else !v.more && Nodes(v.edges) == m
  {
    if seen > 0 { RestAfter(t, filter, seen); }
    assert Beyond(t, filter, StartOf(w.after).value) == m[seen..];
    ReadPageGains(w, t, filter, limit);
    StaticGain(w, ReadPage(w, t, filter, limit), m, limit, seen);
  }

  lemma {:induction false} StaticWalk(t: Table, filter: Filter, limit: int, m: seq<Row>, k: nat, seen: nat)
    requires Valid(t) && limit >= 1 && m == Beyond(t, filter, 0) && seen == k * limit && seen <= |m|
    ensures SeenFirst(Walk(Copies(t, k), filter, limit), m, seen)
  {
    if k > 0 {
      var before := (k - 1) * limit;
      assert seen == before + limit;
      StaticWalk(t, filter, limit, m, k - 1, before);
      OneCopyMore(t, filter, limit, k - 1);
      StaticPage(Walk(Copies(t, k - 1), filter, limit), t, filter, limit, m, before);
    }
  }

  lemma OneCopyMore(t: Table, filter: Filter, limit: int, k: nat)
    requires limit >= 1
    ensures Walk(Copies(t, k + 1), filter, limit) == ReadPage(Walk(Copies(t, k), filter, limit), t, filter, limit)
  {
    assert Copies(t, k + 1)[..k] == Copies(t, k);
  }

  lemma LastStaticPage(w: Walker, v: Walker, t: Table, filter: Filter, limit: int, m: seq<Row>, seen: nat)
    requires Valid(t) && limit >= 1 && m == Beyond(t, filter, 0) && SeenFirst(w, m, seen) && |m| < seen + limit
    requires v == ReadPage(w, t, filter, limit)
    ensures w.more && !v.more && Nodes(v.edges) == m
  {
    StaticPage(w, t, filter, limit, m, seen);
  }

  lemma StaticWalkEnds(t: Table, filter: Filter, limit: int, m: seq<Row>, k: nat, seen: nat)
    requires Valid(t) && limit >= 1 && m == Beyond(t, filter, 0) && seen == k * limit && seen <= |m| < seen + limit
    ensures Walk(Copies(t, k), filter, limit).more
    ensures !Walk(Copies(t, k + 1), filter, limit).more && Nodes(Walk(Copies(t, k + 1), filter, limit).edges) == m
  {
    StaticWalk(t, filter, limit, m, k, seen);
    OneCopyMore(t, filter, limit, k);
    LastStaticPage(Walk(Copies(t, k), filter, limit), Walk(Copies(t, k + 1), filter, limit), t, filter, limit, m, seen);
  }

  lemma WholePages(n: nat, limit: int)
    requires limit >= 1
    ensures 0 <= n / limit * limit <= n < n / limit * limit + limit
  {
  }

  /** On a table that does not change, n matching rows take exactly n / limit + 1 requests, and come back whole. */
  lemma StaticWalkLength(t: Table, filter: Filter, limit: int)
    requires Valid(t) && limit >= 1
    ensures var m := Beyond(t, filter, 0);
      && Walk(Copies(t, |m| / limit), filter, limit).more
      && !Walk(Copies(t, |m| / limit + 1), filter, limit).more
      && Nodes(Walk(Copies(t, |m| / limit + 1), filter, limit).edges) == m
  {
    var m := Beyond(t, filter, 0);
    WholePages(|m|, limit);
    StaticWalkEnds(t, filter, limit, m, |m| / limit, |m| / limit * limit);
  }
}

/** Pages read while unpacking goes on. */
module PagingWhileUnpacking {
  import opened Base
  import opened Contracts
  import opened Unpacker
  import opened Pagination
  import ConcurrentRuns

  /** A filter on the network and block columns, which no run rewrites. */
  ghost predicate ReadsTheKey(filter: Filter) {
    forall a: Row, b: Row :: a.key == b.key ==> filter(a) == filter(b)
  }

  /** The table before each page read, with a burst of unpacking events between any two reads. */
  function Snapshots(sys: ConcurrentRuns.Sys, bursts: seq<seq<ConcurrentRuns.Event>>): seq<Table>
    decreases bursts
  {
    if bursts == [] then [sys.t]
    else [sys.t] + Snapshots(ConcurrentRuns.Exec(sys, bursts[0]), bursts[1..])
  }

  lemma HistoryGrowsInFront(t: Table, rest: seq<Table>, filter: Filter)
    requires Valid(t) && rest != [] && Evolves(t, rest[0], filter) && History(rest, filter)
    ensures History([t] + rest, filter)
  {
    var all := [t] + rest;
    forall i | 0 < i < |all|
      ensures Evolves(all[i - 1], all[i], filter)
    {
      if i > 1 { assert Evolves(rest[i - 2], rest[i - 1], filter); }
    }
  }

  lemma {:induction false} SnapshotsAreAHistory(
    sys: ConcurrentRuns.Sys, bursts: seq<seq<ConcurrentRuns.Event>>, filter: Filter)
    requires ConcurrentRuns.AllSound(sys) && ReadsTheKey(filter)
    ensures History(Snapshots(sys, bursts), filter)
    decreases bursts
  {
    if bursts != [] {
      var next := ConcurrentRuns.Exec(sys, bursts[0]);
      ConcurrentRuns.InterleavingKeeps(sys, bursts[0]);
      SnapshotsAreAHistory(next, bursts[1..], filter);
      HistoryGrowsInFront(sys.t, Snapshots(next, bursts[1..]), filter);
    }
  }

  /** A reader walking the pages while any number of runs write sees every matching row once, in order. */
  lemma WalkWhileUnpackingIsExact(
    sys: ConcurrentRuns.Sys, bursts: seq<seq<ConcurrentRuns.Event>>, filter: Filter, limit: int)
    requires ConcurrentRuns.AllSound(sys) && ReadsTheKey(filter) && limit >= 1
    requires var tables := Snapshots(sys, bursts);
      Walk(tables[..|tables| - 1], filter, limit).more && !Walk(tables, filter, limit).more
    ensures var tables := Snapshots(sys, bursts);
      ListsTheMatching(Ids(Nodes(Walk(tables, filter, limit).edges)), tables[|tables| - 1], filter)
  {
    SnapshotsAreAHistory(sys, bursts, filter);
    WalkIsExact(Snapshots(sys, bursts), filter, limit);
  }

  // ----- filters on the hash columns too, for runs that agree about the chain -----

  /** The hashes of the block and the transaction that created the contract of a key. */
  type Chain = ContractKey -> (int, int)

  ghost predicate ReadsTheHashes(filter: Filter) {
    forall a: Row, b: Row ::
      a.key == b.key && a.blockHash == b.blockHash && a.txHash == b.txHash ==> filter(a) == filter(b)
  }

  predicate AgreesWith(d: Desc, chain: Chain) {
    d.header.Some? && d.tx.Some? ==> chain(KeyOf(d)) == (d.header.value.hash, d.tx.value)
  }

  ghost predicate RowsAgree(t: Table, chain: Chain) {
    forall i :: 0 <= i < |t.rows| ==> chain(t.rows[i].key) == (t.rows[i].blockHash, t.rows[i].txHash)
  }

  ghost predicate AllAgree(sys: ConcurrentRuns.Sys, chain: Chain) {
    RowsAgree(sys.t, chain) && forall i :: 0 <= i < |sys.procs| ==> AgreesWith(sys.procs[i].d, chain)
  }

  ghost predicate SpawnsAgree(events: seq<ConcurrentRuns.Event>, chain: Chain) {
    forall i :: 0 <= i < |events| && events[i].Spawn? ==> AgreesWith(events[i].d, chain)
  }

  lemma WriteAgrees(t: Table, d: Desc, a: Answers, entry: Row, chain: Chain)
    requires d.header.Some? && d.tx.Some? && entry == EntryOf(d, a.now)
    requires RowsAgree(t, chain) && AgreesWith(d, chain)
    ensures RowsAgree(FirstWrite(d, t, a, entry).0, chain)
  {
  }

  lemma StepAgrees(t: Table, p: ConcurrentRuns.Proc, a: Answers, chain: Chain)
    requires Valid(t) && ConcurrentRuns.Sound(t, p) && RowsAgree(t, chain) && AgreesWith(p.d, chain)
    ensures var (u, q) := ConcurrentRuns.Step(t, p, a); RowsAgree(u, chain) && AgreesWith(q.d, chain)
  {
    if p.at.AtFallback? {
      UpdateOfUnsavedIsIdle(t, p.at.entry, a.fallbackFails);
      ConcurrentRuns.FinishKeepsTheRow(p.d, !a.fallbackFails, a);
    } else if p.at.AtHandler? && HasHandler(p.stage) {
      if ConcurrentRuns.Writes(p, a) {
        var d := p.d.(processed := true);
        var entry := EntryOf(d, a.now);
        WriteAgrees(t, d, a, entry, chain);
        ConcurrentRuns.FinishKeepsTheRow(d, FirstWrite(d, t, a, entry).1.SqlOk?, a);
      } else {
        ConcurrentRuns.OnlyDiscoveryReads(p.stage, p.d, t, a);
      }
    }
  }

  lemma {:induction false} ExecAgrees(sys: ConcurrentRuns.Sys, events: seq<ConcurrentRuns.Event>, chain: Chain)
    requires ConcurrentRuns.AllSound(sys) && AllAgree(sys, chain) && SpawnsAgree(events, chain)
    ensures AllAgree(ConcurrentRuns.Exec(sys, events), chain)
  {
    if events != [] {
      var before, e := events[..|events| - 1], events[|events| - 1];
      ExecAgrees(sys, before, chain);
      ConcurrentRuns.InterleavingKeeps(sys, before);
      var s := ConcurrentRuns.Exec(sys, before);
      if e.Go? && e.proc < |s.procs| { StepAgrees(s.t, s.procs[e.proc], e.a, chain); }
    }
  }

  lemma {:induction false} SnapshotsOfOneChain(
    sys: ConcurrentRuns.Sys, bursts: seq<seq<ConcurrentRuns.Event>>, filter: Filter, chain: Chain)
    requires ConcurrentRuns.AllSound(sys) && AllAgree(sys, chain) && ReadsTheHashes(filter)
    requires forall i :: 0 <= i < |bursts| ==> SpawnsAgree(bursts[i], chain)
    ensures History(Snapshots(sys, bursts), filter)
    decreases bursts
  {
    if bursts != [] {
      var next := ConcurrentRuns.Exec(sys, bursts[0]);
      ConcurrentRuns.InterleavingKeeps(sys, bursts[0]);
      ExecAgrees(sys, bursts[0], chain);
      SnapshotsOfOneChain(next, bursts[1..], filter, chain);
      HistoryGrowsInFront(sys.t, Snapshots(next, bursts[1..]), filter);
    }
  }

  /** The same for filters on every column the query can name, while all runs see one chain. */
  lemma WalkOnOneChainIsExact(
    sys: ConcurrentRuns.Sys, bursts: seq<seq<ConcurrentRuns.Event>>, filter: Filter, limit: int, chain: Chain)
    requires ConcurrentRuns.AllSound(sys) && AllAgree(sys, chain) && ReadsTheHashes(filter) && limit >= 1
    requires forall i :: 0 <= i < |bursts| ==> SpawnsAgree(bursts[i], chain)
    requires var tables := Snapshots(sys, bursts);
      Walk(tables[..|tables| - 1], filter, limit).more && !Walk(tables, filter, limit).more
    ensures var tables := Snapshots(sys, bursts);
      ListsTheMatching(Ids(Nodes(Walk(tables, filter, limit).edges)), tables[|tables| - 1], filter)
  {
    SnapshotsOfOneChain(sys, bursts, filter, chain);
    WalkIsExact(Snapshots(sys, bursts), filter, limit);
  }
}
