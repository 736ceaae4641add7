/**
 * Reading stored media: keyset pagination over (taken_at, id), newest first, the way a client
 * that follows `nextCursor` until it is null sees it, while syncs keep writing the table.
 */
module HashtagMedia {
  import opened MetaTypes
  import opened MediaRepository

  datatype Filters = Filters(
    hashtagId: Option<nat>,
    mediaType: Option<MediaType>,
    takenAfter: Option<int>,
    takenBefore: Option<int>,
    includeStale: bool)

  datatype Cursor = Cursor(takenAt: int, id: nat)

  datatype Page = Page(rows: seq<Post>, hasMore: bool)

  type Limit = n: nat | 1 <= n witness 1

  // ---------------------------------------------------------------- the query

  /** ORDER BY taken_at DESC, id DESC. */
  predicate Before(a: Post, b: Post) {
    a.takenAt > b.takenAt || (a.takenAt == b.takenAt && a.id > b.id)
  }

  /** The keyset predicate: strictly after the cursor in that order. */
  predicate Beyond(p: Post, cursor: Option<Cursor>) {
    cursor.None? || p.takenAt < cursor.value.takenAt
    || (p.takenAt == cursor.value.takenAt && p.id < cursor.value.id)
  }

  predicate MatchesUndated(p: Post, f: Filters) {
    (f.hashtagId.Some? ==> p.hashtagId == f.hashtagId.value)
    && (f.mediaType.Some? ==> p.mediaType == f.mediaType.value)
    && (!f.includeStale ==> !p.isStale)
  }

  predicate InDates(p: Post, f: Filters) {
    (f.takenAfter.Some? ==> p.takenAt >= f.takenAfter.value)
    && (f.takenBefore.Some? ==> p.takenAt <= f.takenBefore.value)
  }

  predicate Matches(p: Post, f: Filters) {
    MatchesUndated(p, f) && InDates(p, f)
  }

  function Selected(table: set<Post>, f: Filters, cursor: Option<Cursor>): (r: set<Post>)
    ensures DistinctIds(table) ==> DistinctIds(r)
  {
    set p | p in table && Matches(p, f) && Beyond(p, cursor)
  }

  /** `id` is the primary key. */
  predicate DistinctIds(table: set<Post>) {
    forall a, b :: a in table && b in table && a.id == b.id ==> a == b
  }

  predicate Leads(p: Post, rows: set<Post>) {
    p in rows && forall q :: q in rows && q != p ==> Before(p, q)
  }

  /** (taken_at, id) orders the rows of a table totally, which taken_at alone does not. */
  lemma OrderIsTotal(a: Post, b: Post)
    requires a.id != b.id
    ensures Before(a, b) <==> !Before(b, a)
  {
  }

  lemma OrderIsTransitive(a: Post, b: Post, c: Post)
    requires Before(a, b) && Before(b, c)
    ensures Before(a, c)
  {
  }

  lemma {:induction false} SomeRowLeads(rows: set<Post>) returns (p: Post)
    requires rows != {} && DistinctIds(rows)
    ensures Leads(p, rows)
  {
    hide Before;
    p :| p in rows;
    if rows != {p} {
      assert rows - {p} != {};
      var q := SomeRowLeads(rows - {p});
      OrderIsTotal(p, q);
      if Before(p, q) {
        forall x | x in rows && x != p ensures Before(p, x) {
          if x != q { OrderIsTransitive(p, q, x); }
        }
      } else {
        p := q;
      }
    }
  }

  ghost function Foremost(rows: set<Post>): (r: Post)
    requires rows != {} && DistinctIds(rows)
    ensures Leads(r, rows)
  {
    assert exists p :: Leads(p, rows) by { var p := SomeRowLeads(rows); }
    var r :| Leads(r, rows);
    r
  }

  predicate Descending(rows: seq<Post>) {
    forall i, j :: 0 <= i < j < |rows| ==> Before(rows[i], rows[j])
  }

  ghost predicate Holds(rows: seq<Post>, table: set<Post>) {
    forall p :: p in rows <==> p in table
  }

  lemma NothingInOrder()
    ensures Holds([], {}) && Descending([])
  {
  }

  lemma ConsInOrder(first: Post, rest: seq<Post>, rows: set<Post>)
    requires Leads(first, rows) && Holds(rest, rows - {first}) && Descending(rest)
    ensures Holds([first] + rest, rows) && Descending([first] + rest)
  {
    hide Before;
    var all := [first] + rest;
    forall p ensures p in all <==> p in rows {
      assert p in all <==> p == first || p in rest;
    }
    forall i, j | 0 <= i < j < |all| ensures Before(all[i], all[j]) {
      assert rest[j - 1] in rest;
    }
  }

  /** The result of ORDER BY: the rows of the set, each once, in strictly descending order. */
  ghost function InOrder(rows: set<Post>): (r: seq<Post>)
    requires DistinctIds(rows)
    ensures |r| == |rows| && Holds(r, rows) && Descending(r)
  {
    hide Before, Descending, Holds;
    if rows == {} then NothingInOrder(); [] else
    var first := Foremost(rows);
    var rest := InOrder(rows - {first});
    ConsInOrder(first, rest, rows);
    [first] + rest
  }

  ghost function ListMedia(table: set<Post>, f: Filters, cursor: Option<Cursor>, limit: Limit): Page
    requires DistinctIds(table)
  {
    var all := InOrder(Selected(table, f, cursor));
    var rows := if |all| > limit + 1 then all[..limit + 1] else all;
    var hasMore := |rows| > limit;
    Page(if hasMore then rows[..limit] else rows, hasMore)
  }

  /** The controller's cursor: null on the last page. */
  function NextCursor(page: Page): Option<Cursor> {
    if page.hasMore && |page.rows| > 0 then
      var last := page.rows[|page.rows| - 1];
      Some(Cursor(last.takenAt, last.id))
    else None
  }

  function CountMedia(table: set<Post>, f: Filters): nat {
    |set p | p in table && MatchesUndated(p, f)|
  }

  // ---------------------------------------------------------------- ORDER BY is determined

  /** Only one sequence lists a set of rows in descending order, so InOrder is what SQL returns. */
  lemma {:induction false} OrderIsUnique(rows: seq<Post>, table: set<Post>)
    requires DistinctIds(table) && Holds(rows, table) && Descending(rows)
    ensures rows == InOrder(table)
  {
    hide Before;
    if table == {} {
      assert forall p :: p !in rows;
    } else {
      var first := Foremost(table);
      HeadLeads(rows, table);
      LeaderIsUnique(rows[0], first, table);
      TailHolds(rows, table);
      OrderIsUnique(rows[1..], table - {first});
    }
  }

  lemma LeaderIsUnique(p: Post, q: Post, table: set<Post>)
    requires DistinctIds(table) && Leads(p, table) && Leads(q, table)
    ensures p == q
  {
    if p != q { OrderIsTotal(p, q); }
  }

  lemma HeadLeads(rows: seq<Post>, table: set<Post>)
    requires table != {} && Holds(rows, table) && Descending(rows)
    ensures rows != [] && Leads(rows[0], table)
  {
    hide Before;
    var p :| p in table;
    assert p in rows;
    forall q | q in table && q != rows[0] ensures Before(rows[0], q) {
      var k :| 0 <= k < |rows| && rows[k] == q;
    }
  }

  lemma Irreflexive(p: Post)
    ensures !Before(p, p)
  {
  }

  lemma TailHolds(rows: seq<Post>, table: set<Post>)
    requires rows != [] && Holds(rows, table) && Descending(rows)
    ensures Holds(rows[1..], table - {rows[0]})
  {
    hide Before;
    Irreflexive(rows[0]);
    var tail := rows[1..];
    forall p | p in table - {rows[0]} ensures p in tail {
      var i :| 0 <= i < |rows| && rows[i] == p;
      assert tail[i - 1] == p;
    }
  }

  /** A row of a descending list lies beyond its k-th row exactly when it comes after it. */
  lemma BeyondIsAfter(rows: seq<Post>, k: nat, i: nat)
    requires Descending(rows) && k < |rows| && i < |rows|
    ensures Beyond(rows[i], Some(Cursor(rows[k].takenAt, rows[k].id))) <==> i > k
  {
  }

  lemma BeyondComposes(p: Post, last: Post, cursor: Option<Cursor>)
    requires Beyond(last, cursor) && Beyond(p, Some(Cursor(last.takenAt, last.id)))
    ensures Beyond(p, cursor)
  {
  }

  /** The keyset predicate on the k-th row of the sorted selection selects exactly what follows it. */
  lemma {:induction false} KeysetSelectsTail(table: set<Post>, f: Filters, cursor: Option<Cursor>, k: nat)
    requires DistinctIds(table)
    requires k < |InOrder(Selected(table, f, cursor))|
    ensures var all := InOrder(Selected(table, f, cursor));
            InOrder(Selected(table, f, Some(Cursor(all[k].takenAt, all[k].id)))) == all[k + 1..]
  {
    hide Before, Beyond, Matches, InOrder;
    var rest := Selected(table, f, cursor);
    var all := InOrder(rest);
    var next := Some(Cursor(all[k].takenAt, all[k].id));
    var tail := all[k + 1..];
    forall p ensures p in tail <==> p in Selected(table, f, next) {
      if p in tail {
        var i :| 0 <= i < |tail| && tail[i] == p;
        BeyondIsAfter(all, k, k + 1 + i);
        assert p in all;
      }
      if p in Selected(table, f, next) {
        assert all[k] in all;
        BeyondComposes(p, all[k], cursor);
        assert p in all;
        var i :| 0 <= i < |all| && all[i] == p;
        BeyondIsAfter(all, k, i);
        assert tail[i - k - 1] == p;
      }
    }
    OrderIsUnique(tail, Selected(table, f, next));
  }

  /** One page is the head of what is left; the next cursor selects exactly the tail. */
  lemma {:induction false} PageSplits(table: set<Post>, f: Filters, cursor: Option<Cursor>, limit: Limit)
    requires DistinctIds(table)
    ensures var all := InOrder(Selected(table, f, cursor));
            var page := ListMedia(table, f, cursor, limit);
            var next := NextCursor(page);
            (next.None? <==> |all| <= limit)
            && (next.None? ==> page.rows == all)
            && (next.Some? ==> page.rows == all[..limit]
                               && next == Some(Cursor(all[limit - 1].takenAt, all[limit - 1].id))
                               && InOrder(Selected(table, f, next)) == all[limit..])
  {
    hide Before, Beyond, Matches, InOrder, Selected, Descending, Holds;
    var all := InOrder(Selected(table, f, cursor));
    if |all| > limit {
      KeysetSelectsTail(table, f, cursor, limit - 1);
    }
  }

  // ---------------------------------------------------------------- a walk over a quiet table

  function Flat(pages: seq<seq<Post>>): seq<Post> {
    if pages == [] then [] else pages[0] + Flat(pages[1..])
  }

  /** Follow nextCursor until it is null. */
  ghost function Pages(table: set<Post>, f: Filters, cursor: Option<Cursor>, limit: Limit): seq<seq<Post>>
    requires DistinctIds(table)
    decreases |Selected(table, f, cursor)|
  {
    PageSplits(table, f, cursor, limit);
    var page := ListMedia(table, f, cursor, limit);
    var next := NextCursor(page);
    [page.rows] + (if next.None? then [] else Pages(table, f, next, limit))
  }

  function PageCount(n: nat, limit: Limit): nat {
    if n == 0 then 1 else (n + limit - 1) / limit
  }

  lemma QuotientIs(x: nat, d: Limit, q: nat, r: nat)
    requires x == q * d + r && r < d
    ensures x / d == q
  {
    var p := x / d;
    assert x == p * d + x % d;
    assert p < q ==> (p + 1) * d <= q * d;
    assert q < p ==> (q + 1) * d <= p * d;
  }

  lemma OneMorePage(n: nat, limit: Limit)
    ensures n <= limit ==> PageCount(n, limit) == 1
    ensures n > limit ==> PageCount(n, limit) == 1 + PageCount(n - limit, limit)
  {
    if n > limit {
      var m := n - 1;
      QuotientIs(n + limit - 1, limit, m / limit + 1, m % limit);
    } else if n > 0 {
      QuotientIs(n + limit - 1, limit, 1, n - 1);
    }
  }

  /** Concatenated, the pages are the whole sorted, filtered table, in max(1, ceil(n / limit)) requests. */
  lemma {:induction false} WalkIsSortFilter(table: set<Post>, f: Filters, cursor: Option<Cursor>, limit: Limit)
    requires DistinctIds(table)
    ensures var pages := Pages(table, f, cursor, limit);
            Flat(pages) == InOrder(Selected(table, f, cursor))
            && |pages| == PageCount(|Selected(table, f, cursor)|, limit)
            && (forall i :: 0 <= i < |pages| - 1 ==> |pages[i]| == limit)
    decreases |Selected(table, f, cursor)|
  {
    hide InOrder, Selected, Descending, Holds, ListMedia, NextCursor, PageCount, DistinctIds;
    PageSplits(table, f, cursor, limit);
    OneMorePage(|Selected(table, f, cursor)|, limit);
    var all := InOrder(Selected(table, f, cursor));
    var page := ListMedia(table, f, cursor, limit);
    var next := NextCursor(page);
    if next.None? {
      assert Flat([page.rows]) == page.rows + Flat([]);
    } else {
      WalkIsSortFilter(table, f, next, limit);
      var rest := Pages(table, f, next, limit);
      assert ([page.rows] + rest)[1..] == rest;
      assert all == all[..limit] + all[limit..];
    }
  }

  /**
   * The total beside a page counts without the date bounds, so it equals what a full walk returns
   * exactly when no otherwise matching row lies outside them.
   */
  lemma {:induction false} TotalIsExact(table: set<Post>, f: Filters, limit: Limit)
    requires DistinctIds(table)
    ensures CountMedia(table, f) == |Flat(Pages(table, f, None, limit))|
            <==> forall p :: p in table && MatchesUndated(p, f) ==> InDates(p, f)
    ensures CountMedia(table, f) >= |Flat(Pages(table, f, None, limit))|
  {
    hide Pages, InOrder, Flat, MatchesUndated, InDates;
    WalkIsSortFilter(table, f, None, limit);
    var counted := set p | p in table && MatchesUndated(p, f);
    var walked := Selected(table, f, None);
    SubsetSize(walked, counted);
    assert walked == counted <==> forall p :: p in counted ==> p in walked;
    assert forall p :: p in walked <==> p in counted && InDates(p, f);
  }

  lemma {:induction false} SubsetSize(a: set<Post>, b: set<Post>)
    requires a <= b
    ensures |a| <= |b|
    ensures |a| == |b| <==> a == b
  {
    assert |b| == |a| + |b - a| by { assert b == a + (b - a); }
    if a != b { assert b - a != {}; }
  }

  // ---------------------------------------------------------------- a walk while syncs write

  /** The client sends its next request, a sync upserts one post, or a sync flags stale posts. */
  datatype Event =
    | Request
    | Observe(o: Sighting)
    | SweepStale(hashtagId: nat, threshold: int)

  function Written(c: Curated, e: Event): Curated {
    match e
    case Request => c
    case Observe(o) => Upsert(c, o)
    case SweepStale(h, t) => MarkStale(c, h, t)
  }

  function Table(c: Curated): set<Post> {
    set id | id in c.posts :: c.posts[id]
  }

  predicate Keyed(c: Curated) {
    (forall id :: id in c.posts ==> c.posts[id].igMediaId == id)
    && forall a, b :: a in c.posts && b in c.posts && c.posts[a].id == c.posts[b].id ==> a == b
  }

  /** An insert takes a uuid no row has. */
  predicate FreshId(c: Curated, e: Event) {
    e.Observe? && Accepted(e.o) && e.o.media.id !in c.posts ==>
      forall id :: id in c.posts ==> c.posts[id].id != e.o.newId
  }

  predicate Legal(c: Curated, events: seq<Event>)
    decreases |events|
  {
    events == [] || (FreshId(c, events[0]) && Legal(Written(c, events[0]), events[1..]))
  }

  function Ending(c: Curated, events: seq<Event>): Curated
    decreases |events|
  {
    if events == [] then c else Ending(Written(c, events[0]), events[1..])
  }

  lemma KeyedHasDistinctIds(c: Curated)
    requires Keyed(c)
    ensures DistinctIds(Table(c))
  {
  }

  lemma WriteKeepsKeyed(c: Curated, e: Event)
    requires Keyed(c) && FreshId(c, e)
    ensures Keyed(Written(c, e))
  {
    hide Appended, ContentDiffers;
  }

  /** What one client has been given, and whether it has seen a null cursor. */
  datatype Walk = Walk(rows: seq<Post>, finished: bool)

  ghost function WalkOver(c: Curated, events: seq<Event>, f: Filters, cursor: Option<Cursor>, limit: Limit): Walk
    requires Keyed(c) && Legal(c, events)
    decreases |events|
  {
    if events == [] then Walk([], false) else
    WriteKeepsKeyed(c, events[0]);
    if events[0] != Request then WalkOver(Written(c, events[0]), events[1..], f, cursor, limit) else
    KeyedHasDistinctIds(c);
    var page := ListMedia(Table(c), f, cursor, limit);
    var next := NextCursor(page);
    if next.None? then Walk(page.rows, true) else
    var rest := WalkOver(c, events[1..], f, next, limit);
    Walk(page.rows + rest.rows, rest.finished)
  }

  /** Strictly descending, and all of it past the cursor. */
  predicate Trails(rows: seq<Post>, cursor: Option<Cursor>) {
    Descending(rows) && forall p :: p in rows ==> Beyond(p, cursor)
  }

  lemma NothingTrails(cursor: Option<Cursor>)
    ensures Trails([], cursor)
  {
  }

  lemma PageTrails(table: set<Post>, f: Filters, cursor: Option<Cursor>, limit: Limit)
    requires DistinctIds(table)
    ensures var page := ListMedia(table, f, cursor, limit);
            var next := NextCursor(page);
            Trails(page.rows, cursor)
            && (forall p :: p in page.rows ==> p in table && Matches(p, f))
            && (next.Some? ==> page.rows != []
                               && var last := page.rows[|page.rows| - 1];
                                  next == Some(Cursor(last.takenAt, last.id)))
  {
    hide Before, Beyond, Matches, ListMedia, NextCursor, InOrder, DistinctIds;
    PageSplits(table, f, cursor, limit);
    var all := InOrder(Selected(table, f, cursor));
    assert forall p :: p in all ==> p in Selected(table, f, cursor);
    var rows := ListMedia(table, f, cursor, limit).rows;
    assert rows <= all;
    assert forall p :: p in rows ==> p in all;
  }

  /** Rows past the cursor a page ends on continue the page. */
  lemma TrailsAppend(rows: seq<Post>, more: seq<Post>, cursor: Option<Cursor>)
    requires rows != [] && Trails(rows, cursor)
    requires var last := rows[|rows| - 1]; Trails(more, Some(Cursor(last.takenAt, last.id)))
    ensures Trails(rows + more, cursor)
  {
    hide Before, Beyond;
    var last := rows[|rows| - 1];
    var all := rows + more;
    forall j | 0 <= j < |more| ensures Before(last, more[j]) && Beyond(more[j], cursor) {
      assert more[j] in more && last in rows;
      BeyondIsBefore(last, more[j]);
      BeyondComposes(more[j], last, cursor);
    }
    forall i, j | 0 <= i < j < |all| ensures Before(all[i], all[j]) {
      if i < |rows| - 1 && |rows| <= j { OrderIsTransitive(all[i], last, all[j]); }
    }
  }

  lemma BeyondIsBefore(last: Post, p: Post)
    ensures Beyond(p, Some(Cursor(last.takenAt, last.id))) <==> Before(last, p)
  {
  }

  /** Whatever is written between requests, the output descends strictly past the cursor. */
  lemma {:induction false} OutputDescends(c: Curated, events: seq<Event>, f: Filters, cursor: Option<Cursor>,
                                          limit: Limit)
    requires Keyed(c) && Legal(c, events)
    ensures Trails(WalkOver(c, events, f, cursor, limit).rows, cursor)
    decreases |events|
  {
    hide Before, Beyond, Descending, Keyed, Upsert, MarkStale, FreshId, DistinctIds, Trails, ListMedia;
    hide NextCursor, InOrder;
    if events == [] {
      assert WalkOver(c, events, f, cursor, limit).rows == [];
      NothingTrails(cursor);
    } else {
      WriteKeepsKeyed(c, events[0]);
      if events[0] != Request {
        OutputDescends(Written(c, events[0]), events[1..], f, cursor, limit);
      } else {
        KeyedHasDistinctIds(c);
        PageTrails(Table(c), f, cursor, limit);
        var page := ListMedia(Table(c), f, cursor, limit);
        var next := NextCursor(page);
        if next.Some? {
          OutputDescends(c, events[1..], f, next, limit);
          TrailsAppend(page.rows, WalkOver(c, events[1..], f, next, limit).rows, cursor);
        }
      }
    }
  }

  /** The columns the walk sorts and identifies a row by, all frozen by the upsert. */
  predicate SameKey(a: Post, b: Post) {
    a.igMediaId == b.igMediaId && a.takenAt == b.takenAt && a.id == b.id
  }

  predicate Returned(rows: seq<Post>, p: Post) {
    exists q :: q in rows && SameKey(q, p)
  }

  predicate Stored(p: Post, c: Curated) {
    p.igMediaId in c.posts && SameKey(c.posts[p.igMediaId], p)
  }

  /** Stale flags cannot take a row out of the selection: they are shown, or none is set. */
  predicate Undisturbed(events: seq<Event>, f: Filters) {
    f.includeStale || forall e :: e in events ==> !e.SweepStale?
  }

  lemma WriteKeepsRow(c: Curated, e: Event, f: Filters, id: string)
    requires id in c.posts
    ensures id in Written(c, e).posts && SameKey(Written(c, e).posts[id], c.posts[id])
    ensures Matches(c.posts[id], f) && (f.includeStale || !e.SweepStale?) ==> Matches(Written(c, e).posts[id], f)
  {
    hide Appended, ContentDiffers, Least;
  }

  /** The row answers the filters at every point of the walk: no sweep hides it meanwhile. */
  predicate KeepsMatching(c: Curated, events: seq<Event>, f: Filters, id: string)
    requires id in c.posts
    decreases |events|
  {
    Matches(c.posts[id], f)
    && (events == [] || (id in Written(c, events[0]).posts && KeepsMatching(Written(c, events[0]), events[1..], f, id)))
  }

  /** Upserts alone, or filters that show stale rows, never take a row out of the selection. */
  lemma {:induction false} UndisturbedKeepsMatching(c: Curated, events: seq<Event>, f: Filters, id: string)
    requires Undisturbed(events, f) && id in c.posts
    ensures KeepsMatching(c, events, f, id) <==> Matches(c.posts[id], f)
    decreases |events|
  {
    hide Matches, Written;
    if events != [] {
      WriteKeepsRow(c, events[0], f, id);
      UndisturbedKeepsMatching(Written(c, events[0]), events[1..], f, id);
    }
  }

  lemma {:induction false} RowsOutliveTheWalk(c: Curated, events: seq<Event>, id: string)
    requires id in c.posts
    ensures id in Ending(c, events).posts && SameKey(Ending(c, events).posts[id], c.posts[id])
    decreases |events|
  {
    hide Written, Matches;
    if events != [] {
      WriteKeepsRow(c, events[0], Filters(None, None, None, None, true), id);
      RowsOutliveTheWalk(Written(c, events[0]), events[1..], id);
    }
  }

  /**
   * At any point of a walk that reaches the null cursor, a row that keeps matching is among what
   * is still to come exactly when it sorts after the cursor: no stored row is missed, and one
   * inserted behind the cursor waits for the next walk.
   */
  lemma {:induction false} ReturnedIffAhead(
    c: Curated, events: seq<Event>, f: Filters, cursor: Option<Cursor>, limit: Limit, id: string)
    requires Keyed(c) && Legal(c, events)
    requires id in c.posts && KeepsMatching(c, events, f, id)
    requires WalkOver(c, events, f, cursor, limit).finished
    ensures Returned(WalkOver(c, events, f, cursor, limit).rows, c.posts[id]) <==> Beyond(c.posts[id], cursor)
    decreases |events|
  {
    hide Before, Beyond, KeepsMatching, Trails, WalkOver;
    OutputDescends(c, events, f, cursor, limit);
    BehindIsNotReturned(WalkOver(c, events, f, cursor, limit).rows, c.posts[id], cursor);
    if Beyond(c.posts[id], cursor) {
      AheadIsReturned(c, events, f, cursor, limit, id);
    }
  }

  lemma BehindIsNotReturned(rows: seq<Post>, p: Post, cursor: Option<Cursor>)
    requires Trails(rows, cursor)
    ensures Returned(rows, p) ==> Beyond(p, cursor)
  {
  }

  lemma {:induction false} AheadIsReturned(
    c: Curated, events: seq<Event>, f: Filters, cursor: Option<Cursor>, limit: Limit, id: string)
    requires Keyed(c) && Legal(c, events)
    requires id in c.posts && KeepsMatching(c, events, f, id) && Beyond(c.posts[id], cursor)
    requires WalkOver(c, events, f, cursor, limit).finished
    ensures Returned(WalkOver(c, events, f, cursor, limit).rows, c.posts[id])
    decreases |events|
  {
    hide Before, Beyond, Matches, Keyed, Upsert, MarkStale, FreshId, DistinctIds, ListMedia, NextCursor, InOrder;
    var e := events[0];
    var row := c.posts[id];
    WriteKeepsKeyed(c, e);
    if e != Request {
      WriteKeepsRow(c, e, f, id);
      KeyDecidesBeyond(row, Written(c, e).posts[id], cursor);
      AheadIsReturned(Written(c, e), events[1..], f, cursor, limit, id);
    } else {
      KeyedHasDistinctIds(c);
      PageReaches(Table(c), f, cursor, limit, row);
      var page := ListMedia(Table(c), f, cursor, limit);
      var next := NextCursor(page);
      if row in page.rows {
        assert SameKey(row, row);
      } else {
        AheadIsReturned(c, events[1..], f, next, limit, id);
      }
    }
  }

  lemma KeyDecidesBeyond(a: Post, b: Post, cursor: Option<Cursor>)
    requires SameKey(a, b)
    ensures Beyond(a, cursor) <==> Beyond(b, cursor)
  {
  }

  /** A selected row is on the page or beyond its cursor. */
  lemma PageReaches(table: set<Post>, f: Filters, cursor: Option<Cursor>, limit: Limit, p: Post)
    requires DistinctIds(table) && p in table && Matches(p, f) && Beyond(p, cursor)
    ensures var page := ListMedia(table, f, cursor, limit);
            var next := NextCursor(page);
            p in page.rows || (next.Some? && Beyond(p, next))
  {
    hide Before, Beyond, Matches, ListMedia, NextCursor, InOrder, DistinctIds;
    PageSplits(table, f, cursor, limit);
    var all := InOrder(Selected(table, f, cursor));
    assert p in Selected(table, f, cursor);
    assert p in all;
    var i :| 0 <= i < |all| && all[i] == p;
    if i < limit && limit < |all| {
      assert all[..limit][i] == p;
    } else if limit < |all| {
      BeyondIsAfter(all, limit - 1, i);
    }
  }

  /** Every returned row is still stored under its key when the walk ends. */
  lemma {:induction false} OutputIsStored(
    c: Curated, events: seq<Event>, f: Filters, cursor: Option<Cursor>, limit: Limit, p: Post)
    requires Keyed(c) && Legal(c, events) && p in WalkOver(c, events, f, cursor, limit).rows
    ensures Stored(p, Ending(c, events)) && Matches(p, f)
    decreases |events|
  {
    hide Before, Beyond, Matches, Upsert, MarkStale, FreshId, DistinctIds, ListMedia;
    hide NextCursor, InOrder, Trails;
    var e := events[0];
    WriteKeepsKeyed(c, e);
    if e != Request {
      OutputIsStored(Written(c, e), events[1..], f, cursor, limit, p);
    } else {
      KeyedHasDistinctIds(c);
      PageTrails(Table(c), f, cursor, limit);
      var page := ListMedia(Table(c), f, cursor, limit);
      var next := NextCursor(page);
      if p in page.rows {
        assert p in Table(c);
        RowsOutliveTheWalk(c, events, p.igMediaId);
      } else {
        OutputIsStored(c, events[1..], f, next, limit, p);
      }
    }
  }

  /**
   * A full walk while syncs write: strictly newest first, no post twice, only stored rows, and
   * every row that was there when the walk began and kept matching. Where no sweep can hide rows,
   * that is every row that matched when the walk began.
   */
  lemma {:induction false} WalkUnderWrites(c: Curated, events: seq<Event>, f: Filters, limit: Limit)
    requires Keyed(c) && Legal(c, events)
    ensures var w := WalkOver(c, events, f, None, limit);
            Descending(w.rows)
            && (forall i, j :: 0 <= i < j < |w.rows| ==> w.rows[i].igMediaId != w.rows[j].igMediaId)
            && (forall p :: p in w.rows ==> Stored(p, Ending(c, events)) && Matches(p, f))
            && (w.finished ==>
                  forall id :: id in c.posts && KeepsMatching(c, events, f, id) ==> Returned(w.rows, c.posts[id]))
            && (w.finished && Undisturbed(events, f) ==>
                  forall id :: id in c.posts && Matches(c.posts[id], f) ==> Returned(w.rows, c.posts[id]))
  {
    hide Keyed, Legal, Before, Matches, WalkOver, Ending, Undisturbed, KeepsMatching;
    var w := WalkOver(c, events, f, None, limit);
    OutputDescends(c, events, f, None, limit);
    forall p | p in w.rows ensures Stored(p, Ending(c, events)) && Matches(p, f) {
      OutputIsStored(c, events, f, None, limit, p);
    }
    forall i, j | 0 <= i < j < |w.rows| ensures w.rows[i].igMediaId != w.rows[j].igMediaId {
      assert w.rows[i] in w.rows && w.rows[j] in w.rows;
      KeysDescend(w.rows[i], w.rows[j]);
    }
    if w.finished {
      forall id | id in c.posts && KeepsMatching(c, events, f, id) ensures Returned(w.rows, c.posts[id]) {
        ReturnedIffAhead(c, events, f, None, limit, id);
      }
      if Undisturbed(events, f) {
        forall id | id in c.posts ensures KeepsMatching(c, events, f, id) <==> Matches(c.posts[id], f) {
          UndisturbedKeepsMatching(c, events, f, id);
        }
      }
    }
  }

  lemma KeysDescend(a: Post, b: Post)
    requires Before(a, b)
    ensures a.takenAt != b.takenAt || a.id != b.id
  {
  }
}
