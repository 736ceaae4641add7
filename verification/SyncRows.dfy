/**
 * What a sync leaves in its tables, column by column: where each raw row comes from, how pages are
 * numbered and counted, and what the posts of a succeeded run are made of.
 */
module SyncRows {
  import opened MetaTypes
  import opened MediaRepository
  import opened HistoryLaws
  import opened UpsertLaws
  import opened EdgeWalk
  import opened SyncProtocol
  import opened SyncProofs

  // ---------------------------------------------------------------- raw rows and pages

  /** Step k landed the page this row is of, at this place of it. */
  ghost predicate LandedAt(u: Setup, acts: seq<Action>, k: nat, row: DataPoint) {
    k < |acts| && acts[k].LandRaw? && After(u, acts[..k]).Some?
    && var p := After(u, acts[..k]).value.proc;
       p.Landing? && row.pageNumber == p.page.pageNumber && row.positionInPage < |p.page.items|
       && row.positionOverall == p.seen + row.positionInPage && row.payload == p.page.items[row.positionInPage]
  }

  /** Every raw row, at any point of any schedule, is an item of a page that was landed, in its place. */
  lemma {:induction false} RawRowsInColumns(u: Setup, acts: seq<Action>, i: nat)
    requires After(u, acts).Some? && i < |After(u, acts).value.db.raw|
    ensures exists k: nat :: LandedAt(u, acts, k, After(u, acts).value.db.raw[i])
  {
    var n := |acts| - 1;
    var s, row := After(u, acts[..n]).value, After(u, acts).value.db.raw[i];
    RawGrows(u, s, acts[n]);
    if i < |s.db.raw| {
      RawRowsInColumns(u, acts[..n], i);
      var k: nat :| LandedAt(u, acts[..n], k, row);
      assert acts[..n][..k] == acts[..k] && acts[..n][k] == acts[k];
      assert LandedAt(u, acts, k, row);
    } else {
      assert LandedAt(u, acts, n, row);
    }
  }

  /** Only the landing step writes raw rows, and only at the end. */
  lemma {:induction false} RawGrows(u: Setup, s: State, a: Action)
    requires Apply(u, s, a).Some?
    ensures s.db.raw <= Apply(u, s, a).value.db.raw
    ensures !a.LandRaw? ==> Apply(u, s, a).value.db.raw == s.db.raw
  {
    hide Upsert, EnsurePending, RawRows;
  }

  /** How many pages the call in progress has fetched: a call begins with its pickup. */
  function FetchesInCall(acts: seq<Action>): nat {
    if acts == [] || acts[|acts| - 1].Pickup? then 0
    else FetchesInCall(acts[..|acts| - 1]) + if acts[|acts| - 1].Fetch? then 1 else 0
  }

  /** How many times the progress of a page was recorded. */
  function PagesRecorded(acts: seq<Action>): nat {
    if acts == [] then 0
    else PagesRecorded(acts[..|acts| - 1]) + if acts[|acts| - 1].RecordProgress? then 1 else 0
  }

  predicate HasPage(p: Proc) {
    p.Landing? || p.Curating? || p.Attaching? || p.Queueing? || p.Progressing? || p.Counted?
  }

  /** Pages are numbered from 1 within a call, and `pagesFetched` counts those recorded over all calls. */
  lemma {:induction false} PagesAreCounted(u: Setup, acts: seq<Action>)
    requires After(u, acts).Some?
    ensures var s := After(u, acts).value;
            s.db.run.pagesFetched == PagesRecorded(acts)
            && (HasPage(s.proc) ==> s.proc.page.pageNumber == FetchesInCall(acts))
            && (s.proc.Fetching? ==> s.proc.number == FetchesInCall(acts))
  {
    hide Upsert, EnsurePending, RawRows;
    if acts != [] { PagesAreCounted(u, acts[..|acts| - 1]); }
  }

  lemma {:induction false} CursorStep(u: Setup, s: State, a: Action)
    requires RunInv(u, s) && Apply(u, s, a).Some?
    ensures var before, after := s.db.run, Apply(u, s, a).value.db.run;
            Position(before.lastCursor) <= Position(after.lastCursor) && before.itemsSeen <= after.itemsSeen
            && (before.lastCursor.Some? ==> after.lastCursor.Some?)
  {
    hide Upsert, EnsurePending, RawRows;
  }

  /** The stored cursor and the count only ever advance: a final page without a cursor erases nothing. */
  lemma {:induction false} CursorOnlyAdvances(u: Setup, acts: seq<Action>, more: seq<Action>)
    requires ValidSetup(u) && AvoidsWindow(u, acts + more) && After(u, acts).Some? && After(u, acts + more).Some?
    ensures var before, after := After(u, acts).value.db.run, After(u, acts + more).value.db.run;
            Position(before.lastCursor) <= Position(after.lastCursor) && before.itemsSeen <= after.itemsSeen
            && (before.lastCursor.Some? ==> after.lastCursor.Some?)
  {
    hide Apply, WalkInv, RawInv, JobInv, RunInv;
    if more == [] {
      assert acts + more == acts;
    } else {
      var all, some := acts + more, acts + more[..|more| - 1];
      assert all[..|all| - 1] == some;
      forall k | 0 <= k < |some| ensures some[..k] == all[..k] && some[k] == all[k] {}
      EverySafeScheduleKeepsInv(u, some);
      CursorOnlyAdvances(u, acts, more[..|more| - 1]);
      CursorStep(u, After(u, some).value, all[|all| - 1]);
    }
  }

  // ---------------------------------------------------------------- posts

  function Sightings(e: Edge, w: seq<Visit>): seq<Sighting>
    requires forall k :: 0 <= k < |w| ==> w[k].pos < |e.items|
  {
    seq(|w|, k requires 0 <= k < |w| => SightingAt(e, w[k]))
  }

  lemma {:induction false} WalkedIsFold(c: Curated, e: Edge, w: seq<Visit>)
    requires forall k :: 0 <= k < |w| ==> w[k].pos < |e.items|
    ensures Walked(c, e, w) == Fold(c, Sightings(e, w))
  {
    hide Upsert;
    if w != [] {
      var n := |w| - 1;
      WalkedIsFold(c, e, w[..n]);
      assert Sightings(e, w)[..n] == Sightings(e, w[..n]);
    }
  }

  /** f is the first and l the last position below n at which the post occurs. */
  ghost predicate Occurs(e: Edge, n: nat, id: string, f: nat, l: nat) {
    f <= l < n <= |e.items| && e.items[f].id == id && e.items[l].id == id
    && forall k :: 0 <= k < n && e.items[k].id == id ==> f <= k <= l
  }

  /**
   * A post of one run over this edge: identity, type and date from its first occurrence, text,
   * counters and URL from its last, the run's own hashtag and edge, and on Top the rank of the first.
   */
  ghost predicate PostOf(p: Post, e: Edge, f: nat, l: nat)
    requires f < |e.items| && l < |e.items|
  {
    var first, last := e.items[f], e.items[l];
    p.igMediaId == first.id && p.mediaType == first.mediaType && p.permalink == first.permalink
    && first.takenAt == Some(p.takenAt)
    && p.caption == last.caption && p.sourceMediaUrl == last.mediaUrl
    && p.likeCount == last.likeCount && p.commentsCount == last.commentsCount
    && p.hashtagId == e.hashtagId && p.firstSeenVia == e.source && !p.isStale
    && (p.seenInTop <==> e.source == Top) && (p.seenInRecent <==> e.source == Recent)
    && (e.source == Top ==> p.bestTopRank == Some(f + 1)) && (e.source == Recent ==> p.bestTopRank == None)
  }

  lemma {:induction false} StraightPost(e: Edge, w: seq<Visit>, id: string, f: nat, l: nat)
    requires Straight(w) && Occurs(e, |w|, id, f, l)
    requires forall k :: 0 <= k < |w| ==> e.items[k].takenAt.Some?
    ensures id in Walked(EMPTY, e, w).posts && PostOf(Walked(EMPTY, e, w).posts[id], e, f, l)
  {
    hide Fold, Walked;
    var obs := Sightings(e, w);
    WalkedIsFold(EMPTY, e, w);
    assert forall k :: 0 <= k < |obs| ==> obs[k].media == e.items[k] && obs[k].rank == k + 1;
    assert FirstAndLast(obs, id, f, l);
    UpsertClosedForm(obs, id, f, l);
    assert SightedAt(obs, id, e.source, f + 1);
  }

  lemma {:induction false} ClocksAside(p: Post, q: Post, e: Edge, f: nat, l: nat)
    requires f < |e.items| && l < |e.items| && Timeless(p) == Timeless(q) && PostOf(q, e, f, l)
    ensures PostOf(p, e, f, l)
  {
  }

  /**
   * The posts of a run. However often it was resumed, a run that ends succeeded on empty tables
   * leaves one post for every id on the edge up to the cap, made of its first and last occurrence.
   */
  lemma {:induction false} RunLeavesPosts(u: Setup, acts: seq<Action>, id: string, f: nat, l: nat)
    requires u.curated == EMPTY && AvoidsWindow(u, acts) && After(u, acts).Some?
    requires After(u, acts).value.db.run.status == Succeeded && Occurs(u.edge, Target(u), id, f, l)
    ensures var posts := After(u, acts).value.db.curated.posts; id in posts && PostOf(posts[id], u.edge, f, l)
  {
    hide After, Walked, PostOf;
    var line := Uninterrupted(u);
    CrashTransparency(u, acts);
    StraightReach(line);
    forall p: nat | p < Target(u) ensures u.edge.items[p].takenAt.Some? {
      NothingSkipped(u.curated.history, u.edge, line, p);
    }
    StraightPost(u.edge, line, id, f, l);
    ClocksAside(After(u, acts).value.db.curated.posts[id], Walked(EMPTY, u.edge, line).posts[id], u.edge, f, l);
  }
}
