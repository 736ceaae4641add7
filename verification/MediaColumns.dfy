/**
 * The stored media queries column by column: which rows a page, a whole walk and the total beside
 * them are made of, and in which order.
 */
module MediaColumns {
  import opened MetaTypes
  import opened MediaRepository
  import opened HashtagMedia

  /** The filters but for the dates: hashtag, type, and fresh unless stale rows are asked for. */
  predicate AskedUndated(p: Post, f: Filters) {
    (f.hashtagId.None? || p.hashtagId == f.hashtagId.value)
    && (f.mediaType.None? || p.mediaType == f.mediaType.value)
    && (f.includeStale || !p.isStale)
  }

  /** All the filters; both dates are inclusive. */
  predicate Asked(p: Post, f: Filters) {
    AskedUndated(p, f)
    && (f.takenAfter.None? || f.takenAfter.value <= p.takenAt)
    && (f.takenBefore.None? || p.takenAt <= f.takenBefore.value)
  }

  predicate Newer(a: Post, b: Post) {
    a.takenAt > b.takenAt || (a.takenAt == b.takenAt && a.id > b.id)
  }

  predicate NewestFirst(rows: seq<Post>) {
    forall i, j :: 0 <= i < j < |rows| ==> Newer(rows[i], rows[j])
  }

  /** Still to come after the row the cursor was made from. */
  predicate StillToCome(p: Post, cursor: Option<Cursor>) {
    cursor.None? || p.takenAt < cursor.value.takenAt || (p.takenAt == cursor.value.takenAt && p.id < cursor.value.id)
  }

  ghost function Remaining(table: set<Post>, f: Filters, cursor: Option<Cursor>): set<Post> {
    set p | p in table && Asked(p, f) && StillToCome(p, cursor)
  }

  ghost function NewerOnes(rows: set<Post>, p: Post): set<Post> {
    set q | q in rows && Newer(q, p)
  }

  lemma RemainingIsSelected(table: set<Post>, f: Filters, cursor: Option<Cursor>)
    ensures Remaining(table, f, cursor) == Selected(table, f, cursor)
  {
  }

  lemma OrderIsNewestFirst(rows: seq<Post>)
    ensures Descending(rows) <==> NewestFirst(rows)
  {
  }

  /** In a sorted list of a set, a row's index is the number of newer rows. */
  lemma {:induction false} IndexCountsNewer(rows: set<Post>, i: nat)
    requires DistinctIds(rows) && i < |InOrder(rows)|
    ensures |NewerOnes(rows, InOrder(rows)[i])| == i
  {
    hide InOrder;
    var all, newer := InOrder(rows), NewerOnes(rows, InOrder(rows)[i]);
    var head := all[..i];
    forall p ensures p in head <==> p in newer {
      if p in newer { var k :| 0 <= k < |all| && all[k] == p; assert k < i && head[k] == p; }
      if p in head { var k :| 0 <= k < i && head[k] == p; assert all[k] == p && p in all; }
    }
    OrderIsUnique(head, newer);
  }

  lemma {:induction false} HeadCountsNewer(rows: set<Post>, n: nat, p: Post)
    requires DistinctIds(rows) && n <= |InOrder(rows)|
    ensures p in InOrder(rows)[..n] <==> p in rows && |NewerOnes(rows, p)| < n
  {
    hide InOrder, NewerOnes;
    var all := InOrder(rows);
    forall i | 0 <= i < |all| ensures |NewerOnes(rows, all[i])| == i { IndexCountsNewer(rows, i); }
    if p in rows {
      assert p in all;
      var i :| 0 <= i < |all| && all[i] == p;
      if i < n { assert all[..n][i] == p; }
    }
  }

  lemma {:induction false} FewerAreNewer(rows: set<Post>, p: Post)
    requires DistinctIds(rows) && p in rows
    ensures |NewerOnes(rows, p)| < |rows|
  {
    assert p !in NewerOnes(rows, p);
    SubsetSize(NewerOnes(rows, p), rows);
  }

  /**
   * One page: exactly the rows that are asked for, still to come, and have fewer than `limit` such
   * rows newer than themselves, newest first. A next cursor is given exactly when rows are left.
   */
  lemma {:induction false} PageInColumns(table: set<Post>, f: Filters, cursor: Option<Cursor>, limit: Limit)
    requires DistinctIds(table)
    ensures var page, rest := ListMedia(table, f, cursor, limit), Remaining(table, f, cursor);
            NewestFirst(page.rows)
            && (forall p :: p in page.rows <==> p in rest && |NewerOnes(rest, p)| < limit)
            && (page.hasMore <==> exists p :: p in rest && p !in page.rows)
            && (NextCursor(page).Some? <==> page.hasMore)
            && (page.hasMore ==>
                  |page.rows| == limit && NextCursor(page).value.takenAt == page.rows[limit - 1].takenAt
                  && NextCursor(page).value.id == page.rows[limit - 1].id)
  {
    hide Asked, StillToCome, InOrder, Selected, Newer, NewerOnes, Remaining;
    RemainingIsSelected(table, f, cursor);
    var page, rest := ListMedia(table, f, cursor, limit), Remaining(table, f, cursor);
    var all := InOrder(rest);
    OrderIsNewestFirst(all);
    var n := if |all| > limit then limit else |all|;
    assert page.rows == all[..n];
    forall p ensures p in page.rows <==> p in rest && |NewerOnes(rest, p)| < limit {
      HeadCountsNewer(rest, n, p);
      if p in rest { FewerAreNewer(rest, p); }
    }
    if |all| > limit {
      assert all[limit] in rest;
      IndexCountsNewer(rest, limit);
    }
  }

  /** A whole walk returns exactly the stored rows that are asked for, newest first. */
  lemma {:induction false} WalkInColumns(table: set<Post>, f: Filters, limit: Limit)
    requires DistinctIds(table)
    ensures var rows := Flat(Pages(table, f, None, limit));
            NewestFirst(rows) && forall p :: p in rows <==> p in table && Asked(p, f)
  {
    hide Asked, Pages, Flat, InOrder, Selected, Newer;
    WalkIsSortFilter(table, f, None, limit);
    RemainingIsSelected(table, f, None);
    OrderIsNewestFirst(InOrder(Selected(table, f, None)));
    assert forall p :: p in Remaining(table, f, None) <==> p in table && Asked(p, f);
  }

  /** The total counts the rows that are asked for but for the dates, stale ones as the filter says. */
  lemma {:induction false} TotalInColumns(table: set<Post>, f: Filters)
    ensures CountMedia(table, f) == |set p | p in table && AskedUndated(p, f)|
  {
    assert (set p | p in table && AskedUndated(p, f)) == set p | p in table && MatchesUndated(p, f);
  }

  /**
   * A full walk while syncs write: newest first, every row as it was asked for when it was read, and
   * where no sweep can hide rows every stored row that was asked for when the walk began.
   */
  lemma {:induction false} WalkUnderWritesInColumns(c: Curated, events: seq<Event>, f: Filters, limit: Limit)
    requires Keyed(c) && Legal(c, events)
    ensures var w := WalkOver(c, events, f, None, limit);
            NewestFirst(w.rows)
            && (forall p :: p in w.rows ==> Asked(p, f))
            && (w.finished && (f.includeStale || forall e :: e in events ==> !e.SweepStale?) ==>
                  forall id :: id in c.posts && Asked(c.posts[id], f) ==>
                    exists q :: q in w.rows && q.igMediaId == c.posts[id].igMediaId && q.id == c.posts[id].id)
  {
    hide Keyed, Legal, WalkOver, Asked, Matches, Newer;
    WalkUnderWrites(c, events, f, limit);
    var w := WalkOver(c, events, f, None, limit);
    OrderIsNewestFirst(w.rows);
    forall p ensures Asked(p, f) <==> Matches(p, f) { AskedIsMatching(p, f); }
    if w.finished && Undisturbed(events, f) {
      forall id | id in c.posts && Asked(c.posts[id], f)
        ensures exists q :: q in w.rows && q.igMediaId == c.posts[id].igMediaId && q.id == c.posts[id].id
      {
        assert Returned(w.rows, c.posts[id]);
      }
    }
  }

  lemma AskedIsMatching(p: Post, f: Filters)
    ensures Asked(p, f) <==> Matches(p, f)
  {
  }
}
