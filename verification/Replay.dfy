/**
 * Rebuilding the curated tables from the raw rows of a run, and why that reproduces the live
 * result: replay upserts each raw row at rank position + 1, in position order, so it is one more
 * walk over the edge that skips nothing.
 */
module Replay {
  import opened MetaTypes
  import opened MediaRepository
  import opened HistoryLaws
  import opened EdgeWalk
  import opened SyncProtocol
  import opened SyncProofs

  /** A stored payload after validation: None when it no longer parses and is skipped. */
  datatype StoredRow = StoredRow(positionOverall: nat, parsed: Option<Media>)

  datatype Summary = Summary(reprocessed: nat, created: nat, changed: nat, invalid: nat)

  datatype Outcome = NothingToReplay | Threw | Replayed(summary: Summary)

  function ReplaySighting(e: Edge, row: StoredRow, now: int, newId: nat): Sighting
    requires row.parsed.Some?
  {
    Sighting(row.parsed.value, e.hashtagId, e.syncRunId, e.source, row.positionOverall + 1, now, newId)
  }

  /** The upserts a replay makes of the first rows, at clock readings start + i. */
  function ReplaySightings(e: Edge, rows: seq<StoredRow>, start: int): seq<Sighting> {
    if rows == [] then []
    else
      var n := |rows| - 1;
      ReplaySightings(e, rows[..n], start) +
      (if rows[n].parsed.Some? then [ReplaySighting(e, rows[n], start + n, n)] else [])
  }

  lemma SightingsPush(e: Edge, rows: seq<StoredRow>, row: StoredRow, start: int)
    ensures ReplaySightings(e, rows + [row], start) ==
            ReplaySightings(e, rows, start) +
            (if row.parsed.Some? then [ReplaySighting(e, row, start + |rows|, |rows|)] else [])
  {
    assert (rows + [row])[..|rows|] == rows;
  }

  /** How many stored rows no longer validate. */
  function Unparsed(rows: seq<StoredRow>): nat {
    if rows == [] then 0
    else Unparsed(rows[..|rows| - 1]) + (if rows[|rows| - 1].parsed.None? then 1 else 0)
  }

  /** The rows before the first one whose timestamp makes the upsert throw. */
  ghost predicate StopsAt(rows: seq<StoredRow>, n: nat) {
    && n <= |rows|
    && (forall i :: 0 <= i < n ==> rows[i].parsed.None? || rows[i].parsed.value.takenAt.Some?)
    && (n < |rows| ==> rows[n].parsed.Some? && rows[n].parsed.value.takenAt.None?)
  }

  /** How many of the upserts report a new post. */
  function Creations(c: Curated, obs: seq<Sighting>): nat {
    if obs == [] then 0
    else
      var before, o := obs[..|obs| - 1], obs[|obs| - 1];
      Creations(c, before) + (if Accepted(o) && Report(Fold(c, before), o).isNew then 1 else 0)
  }

  /** How many report changed content. */
  function Changes(c: Curated, obs: seq<Sighting>): nat {
    if obs == [] then 0
    else
      var before, o := obs[..|obs| - 1], obs[|obs| - 1];
      Changes(c, before) + (if Accepted(o) && Report(Fold(c, before), o).contentChanged then 1 else 0)
  }

  lemma CountsPush(c: Curated, obs: seq<Sighting>, o: Sighting)
    requires Accepted(o)
    ensures Creations(c, obs + [o]) == Creations(c, obs) + if Report(Fold(c, obs), o).isNew then 1 else 0
    ensures Changes(c, obs + [o]) == Changes(c, obs) + if Report(Fold(c, obs), o).contentChanged then 1 else 0
  {
    assert (obs + [o])[..|obs|] == obs;
  }

  /** The tables know nothing of the future. */
  ghost predicate SeenBy(c: Curated, t: int) {
    forall id :: id in c.posts ==> c.posts[id].firstSeenAt <= t
  }

  /** On an advancing clock the created count is by how many posts the table grew. */
  lemma {:induction false} CreationsAreGrowth(c: Curated, obs: seq<Sighting>, t: int)
    requires SeenBy(c, t) && Increasing(obs) && (obs != [] ==> t < obs[0].now)
    ensures |Fold(c, obs).posts| == |c.posts| + Creations(c, obs)
    ensures SeenBy(Fold(c, obs), if obs == [] then t else obs[|obs| - 1].now)
  {
    hide Appended, ContentDiffers, Latest;
    if obs != [] {
      var before, o := obs[..|obs| - 1], obs[|obs| - 1];
      CreationsAreGrowth(c, before, t);
      OneMoreSighting(Fold(c, before), o, if before == [] then t else before[|before| - 1].now);
    }
  }

  lemma OneMoreSighting(c: Curated, o: Sighting, t: int)
    requires SeenBy(c, t) && t < o.now
    ensures |Upsert(c, o).posts| == |c.posts| + if Accepted(o) && Report(c, o).isNew then 1 else 0
    ensures SeenBy(Upsert(c, o), o.now)
  {
    hide Appended, ContentDiffers, Latest;
    if Accepted(o) {
      var posts := Upsert(c, o).posts;
      assert posts.Keys == c.posts.Keys + {o.media.id};
    }
  }

  /** The rows that no longer validate. */
  ghost function InvalidRows(rows: seq<StoredRow>): set<nat> {
    set i: nat | i < |rows| && rows[i].parsed.None?
  }

  lemma {:induction false} UnparsedCounts(rows: seq<StoredRow>)
    ensures Unparsed(rows) == |InvalidRows(rows)|
  {
    if rows != [] {
      var n := |rows| - 1;
      UnparsedCounts(rows[..n]);
      assert InvalidRows(rows) == InvalidRows(rows[..n]) + if rows[n].parsed.None? then {n as nat} else {};
    }
  }

  /** The upserts that changed the content of a post the tables knew. */
  ghost function ContentChanges(c: Curated, obs: seq<Sighting>): set<nat> {
    set k: nat | k < |obs| && Accepted(obs[k]) && Report(Fold(c, obs[..k]), obs[k]).contentChanged
  }

  lemma {:induction false} ChangesCount(c: Curated, obs: seq<Sighting>)
    ensures Changes(c, obs) == |ContentChanges(c, obs)|
  {
    hide Report, Fold;
    if obs != [] {
      var n := |obs| - 1;
      var before := obs[..n];
      ChangesCount(c, before);
      forall k: nat | k < n ensures before[..k] == obs[..k] && before[k] == obs[k] {}
      var counts := Accepted(obs[n]) && Report(Fold(c, before), obs[n]).contentChanged;
      assert ContentChanges(c, obs) == ContentChanges(c, before) + if counts then {n as nat} else {};
    } else {
      assert ContentChanges(c, obs) == {};
    }
  }

  lemma StartOfReplay(c: Curated, e: Edge, rows: seq<StoredRow>, start: int)
    ensures var none := ReplaySightings(e, rows[..0], start);
            rows[..0] == [] && Fold(c, none) == c && Creations(c, none) == 0 && Changes(c, none) == 0
  {
  }

  /** The replay command: one upsert per valid row, in order; an upsert that throws ends it. */
  method ReplayRun(table: MediaTable, e: Edge, rows: seq<StoredRow>, start: int) returns (r: Outcome)
    modifies table
    ensures r.NothingToReplay? <==> rows == []
    ensures exists n: nat :: StopsAt(rows, n)
                     && table.Contents() == Fold(old(table.Contents()), ReplaySightings(e, rows[..n], start))
                     && (r.Threw? <==> n < |rows|)
                     && (r.Replayed? ==> r.summary.invalid == Unparsed(rows)
                                         && r.summary.reprocessed == |rows| - Unparsed(rows)
                                         && r.summary.created
                                            == Creations(old(table.Contents()), ReplaySightings(e, rows, start))
                                         && r.summary.changed
                                            == Changes(old(table.Contents()), ReplaySightings(e, rows, start)))
  {
    hide Upsert;
    hide Report;
    hide Fold;
    hide ReplaySightings;
    hide Creations;
    hide Changes;
    ghost var before := table.Contents();
    StartOfReplay(before, e, rows, start);
    if rows == [] {
      return NothingToReplay;
    }
    var s := Summary(0, 0, 0, 0);
    var i := 0;
    while i < |rows|
      invariant 0 <= i <= |rows|
      invariant forall k :: 0 <= k < i ==> rows[k].parsed.None? || rows[k].parsed.value.takenAt.Some?
      invariant table.Contents() == Fold(before, ReplaySightings(e, rows[..i], start))
      invariant s.invalid == Unparsed(rows[..i]) && s.reprocessed == i - s.invalid
      invariant s.created == Creations(before, ReplaySightings(e, rows[..i], start))
      invariant s.changed == Changes(before, ReplaySightings(e, rows[..i], start))
    {
      SightingsPush(e, rows[..i], rows[i], start);
      assert rows[..i + 1] == rows[..i] + [rows[i]] && rows[..i + 1][..i] == rows[..i];
      if rows[i].parsed.None? {
        assert ReplaySightings(e, rows[..i], start) + [] == ReplaySightings(e, rows[..i], start);
        s := s.(invalid := s.invalid + 1);
      } else {
        var o := ReplaySighting(e, rows[i], start + i, i);
        FoldPush(before, ReplaySightings(e, rows[..i], start), o);
        var result := table.UpsertMedia(o);
        if result.None? {
          RejectedChangesNothing(Fold(before, ReplaySightings(e, rows[..i], start)), o);
          assert StopsAt(rows, i);
          return Threw;
        }
        s := s.(reprocessed := s.reprocessed + 1);
        CountsPush(before, ReplaySightings(e, rows[..i], start), o);
        if result.value.isNew { s := s.(created := s.created + 1); }
        if result.value.contentChanged { s := s.(changed := s.changed + 1); }
      }
      i := i + 1;
    }
    assert rows[..|rows|] == rows;
    assert StopsAt(rows, |rows|);
    r := Replayed(s);
  }

  // ---------------------------------------------------------------- fidelity

  ghost predicate PositionOrdered(rows: seq<DataPoint>) {
    forall i, j :: 0 <= i < j < |rows| ==> rows[i].positionOverall <= rows[j].positionOverall
  }

  /** findByRunId: every raw row of the run, ordered by position; ties in any order. */
  ghost predicate InPositionOrder(raw: seq<DataPoint>, ordered: seq<DataPoint>) {
    multiset(ordered) == multiset(raw) && PositionOrdered(ordered)
  }

  function Stored(ordered: seq<DataPoint>): seq<StoredRow> {
    seq(|ordered|, i requires 0 <= i < |ordered| => StoredRow(ordered[i].positionOverall, Some(ordered[i].payload)))
  }

  function ReplayVisits(ordered: seq<DataPoint>, start: int): seq<Visit> {
    seq(|ordered|, i requires 0 <= i < |ordered| => Visit(ordered[i].positionOverall, start + i, i))
  }

  /** Each raw row holds the item of its position, as it does after a run. */
  ghost predicate HoldsEdge(e: Edge, rows: seq<DataPoint>, size: nat) {
    && size <= |e.items|
    && (forall i :: 0 <= i < |rows| ==>
          rows[i].positionOverall < size && rows[i].payload == e.items[rows[i].positionOverall])
    && (forall p: nat :: p < size ==> e.items[p].takenAt.Some?)
  }

  lemma VisitsAndRowsPush(rows: seq<DataPoint>, start: int)
    requires rows != []
    ensures var n := |rows| - 1;
            && ReplayVisits(rows, start)
               == ReplayVisits(rows[..n], start) + [Visit(rows[n].positionOverall, start + n, n)]
            && Stored(rows) == Stored(rows[..n]) + [StoredRow(rows[n].positionOverall, Some(rows[n].payload))]
  {
  }

  /** Replaying rows that hold the edge is visiting their positions. */
  lemma {:induction false} ReplayIsVisiting(c: Curated, e: Edge, rows: seq<DataPoint>, size: nat, start: int)
    requires HoldsEdge(e, rows, size)
    ensures Fold(c, ReplaySightings(e, Stored(rows), start)) == Walked(c, e, ReplayVisits(rows, start))
  {
    hide Upsert;
    if rows != [] {
      hide Fold;
      hide Walked;
      hide ReplaySightings;
      var n := |rows| - 1;
      var v, row := Visit(rows[n].positionOverall, start + n, n),
          StoredRow(rows[n].positionOverall, Some(rows[n].payload));
      ReplayIsVisiting(c, e, rows[..n], size, start);
      VisitsAndRowsPush(rows, start);
      Push(c, e, ReplayVisits(rows[..n], start), v);
      SightingsPush(e, Stored(rows[..n]), row, start);
      FoldPush(c, ReplaySightings(e, Stored(rows[..n]), start), SightingAt(e, v));
    }
  }

  lemma LaterRow(rows: seq<DataPoint>, i: nat, j: nat)
    requires PositionOrdered(rows)
    requires i < |rows| && j < |rows| && rows[j].positionOverall < rows[i].positionOverall
    ensures j < i
  {
  }

  /** Rows in position order with none missing step forward by at most one. */
  lemma OrderedSteps(rows: seq<DataPoint>, k: nat, size: nat)
    requires PositionOrdered(rows) && k < |rows| && rows[k].positionOverall < size
    requires forall p: nat :: p < size ==> Landed(rows, p)
    ensures rows[k].positionOverall <= if k == 0 then 0 else rows[k - 1].positionOverall + 1
  {
    var r := if k == 0 then 0 else rows[k - 1].positionOverall + 1;
    if r < size {
      assert Landed(rows, r);
      var i :| 0 <= i < |rows| && rows[i].positionOverall == r;
      if k > 0 { LaterRow(rows, i, k - 1); }
    }
  }

  lemma {:induction false} OrderedIsAWalk(h: seq<HistoryRow>, e: Edge, rows: seq<DataPoint>, size: nat, start: int,
      n: nat)
    requires HoldsEdge(e, rows, size) && PositionOrdered(rows) && n <= |rows|
    requires forall p: nat :: p < size ==> Landed(rows, p)
    requires CapturedBy(h, start - 1)
    ensures Walk(h, e, ReplayVisits(rows, start)[..n])
    ensures HighWater(ReplayVisits(rows, start)[..n]) <= size
  {
    if n > 0 {
      var w := ReplayVisits(rows, start);
      OrderedIsAWalk(h, e, rows, size, start, n - 1);
      OrderedSteps(rows, n - 1, size);
      assert w[..n][..n - 1] == w[..n - 1];
      assert n > 1 ==> w[..n - 1][n - 2] == w[n - 2];
    }
  }

  /** All positions, in order, ties in any order: a walk to the end. */
  lemma OrderedReachesTheEnd(h: seq<HistoryRow>, e: Edge, rows: seq<DataPoint>, size: nat, start: int)
    requires HoldsEdge(e, rows, size) && PositionOrdered(rows)
    requires forall p: nat :: p < size ==> Landed(rows, p)
    requires CapturedBy(h, start - 1)
    ensures var w := ReplayVisits(rows, start); Walk(h, e, w) && Reach(w) == HighWater(w) == size
  {
    var w := ReplayVisits(rows, start);
    OrderedIsAWalk(h, e, rows, size, start, |rows|);
    assert w[..|rows|] == w;
    WalkBounds(h, e, w);
    if size > 0 {
      assert Landed(rows, size - 1);
      var i :| 0 <= i < |rows| && rows[i].positionOverall == size - 1;
      assert i < |rows| - 1 ==> rows[i].positionOverall <= rows[|rows| - 1].positionOverall;
    }
  }

  lemma SameElements(raw: seq<DataPoint>, ordered: seq<DataPoint>)
    requires multiset(ordered) == multiset(raw)
    ensures forall i :: 0 <= i < |ordered| ==> ordered[i] in raw
    ensures forall i :: 0 <= i < |raw| ==> raw[i] in ordered
  {
    forall i | 0 <= i < |ordered| ensures ordered[i] in raw { assert ordered[i] in multiset(ordered); }
    forall i | 0 <= i < |raw| ensures raw[i] in ordered { assert raw[i] in multiset(raw); }
  }

  /** The raw rows of a run that ended succeeded, in position order, are a walk to its end. */
  lemma SucceededRunReplays(u: Setup, acts: seq<Action>, ordered: seq<DataPoint>, start: int)
    requires ValidSetup(u) && AvoidsWindow(u, acts)
    requires After(u, acts).Some? && After(u, acts).value.db.run.status == Succeeded
    requires InPositionOrder(After(u, acts).value.db.raw, ordered)
    requires start > u.clock
    ensures HoldsEdge(u.edge, ordered, Target(u))
    ensures var w := ReplayVisits(ordered, start);
            Walk(u.curated.history, u.edge, w) && Reach(w) == HighWater(w) == Target(u)
  {
    var raw := After(u, acts).value.db.raw;
    CrashTransparency(u, acts);
    SameElements(raw, ordered);
    forall i | 0 <= i < |ordered|
      ensures ordered[i].positionOverall < Target(u) && ordered[i].payload == u.edge.items[ordered[i].positionOverall]
    {
      var k :| 0 <= k < |raw| && raw[k] == ordered[i];
    }
    forall p: nat | p < Target(u) ensures Landed(ordered, p) {
      assert Landed(raw, p);
      var i :| 0 <= i < |raw| && raw[i].positionOverall == p;
      var k :| 0 <= k < |ordered| && ordered[k] == raw[i];
    }
    StraightReach(Uninterrupted(u));
    forall p: nat | p < Target(u) ensures u.edge.items[p].takenAt.Some? {
      NothingSkipped(u.curated.history, u.edge, Uninterrupted(u), p);
    }
    OrderedReachesTheEnd(u.curated.history, u.edge, ordered, Target(u), start);
  }

  lemma SameIsTransitive(a: Curated, b: Curated, c: Curated)
    requires Same(a, b) && Same(c, b)
    ensures Same(a, c)
  {
    forall id | id in a.posts ensures Timeless(a.posts[id]) == Timeless(c.posts[id]) { assert id in b.posts; }
  }

  /**
   * Replay fidelity: replaying a succeeded run's raw rows from the tables as they were before the
   * run gives what the run gave, crashes and re-fetched pages notwithstanding.
   */
  lemma ReplayReproducesTheRun(u: Setup, acts: seq<Action>, ordered: seq<DataPoint>, start: int)
    requires ValidSetup(u) && AvoidsWindow(u, acts)
    requires After(u, acts).Some? && After(u, acts).value.db.run.status == Succeeded
    requires InPositionOrder(After(u, acts).value.db.raw, ordered)
    requires start > u.clock
    ensures Same(Fold(u.curated, ReplaySightings(u.edge, Stored(ordered), start)), After(u, acts).value.db.curated)
  {
    hide Walked;
    hide Fold;
    hide Same;
    var w, line := ReplayVisits(ordered, start), Uninterrupted(u);
    SucceededRunReplays(u, acts, ordered, start);
    ReplayIsVisiting(u.curated, u.edge, ordered, Target(u), start);
    CrashTransparency(u, acts);
    StraightReach(line);
    WalkTransparent(u.curated, u.edge, w, line);
    SameIsTransitive(Walked(u.curated, u.edge, w), Walked(u.curated, u.edge, line), After(u, acts).value.db.curated);
  }

  /**
   * Safe to re-run: replaying a run right after it succeeded adds no post and no history row and
   * leaves every column but the clocks as it was.
   */
  lemma ReplayAfterTheRunIsIdempotent(u: Setup, acts: seq<Action>, ordered: seq<DataPoint>, start: int)
    requires ValidSetup(u) && AvoidsWindow(u, acts)
    requires After(u, acts).Some? && After(u, acts).value.db.run.status == Succeeded
    requires InPositionOrder(After(u, acts).value.db.raw, ordered)
    requires start > After(u, acts).value.clock
    ensures var live := After(u, acts).value.db.curated;
            Same(Fold(live, ReplaySightings(u.edge, Stored(ordered), start)), live)
  {
    hide Walked;
    hide Fold;
    hide Same;
    var s, w, line := After(u, acts).value, ReplayVisits(ordered, start), Uninterrupted(u);
    EverySafeScheduleKeepsInv(u, acts);
    ClockOnlyAdvances(u, acts);
    SucceededRunReplays(u, acts, ordered, start);
    ReplayIsVisiting(s.db.curated, u.edge, ordered, Target(u), start);
    CrashTransparency(u, acts);
    SucceededReachesTheEnd(u, s);
    WalksConcatenate(u.curated, u.edge, s.visits, w);
    StraightReach(line);
    WalkTransparent(u.curated, u.edge, s.visits + w, line);
    SameIsTransitive(Walked(u.curated, u.edge, s.visits + w), Walked(u.curated, u.edge, line), s.db.curated);
  }

  lemma SucceededReachesTheEnd(u: Setup, s: State)
    requires Inv(u, s) && s.db.run.status == Succeeded
    ensures Reach(s.visits) == HighWater(s.visits) == Target(u)
  {
    WalkBounds(u.curated.history, u.edge, s.visits);
  }

  lemma {:induction false} ClockOnlyAdvances(u: Setup, acts: seq<Action>)
    requires After(u, acts).Some?
    ensures u.clock <= After(u, acts).value.clock
  {
    if acts != [] { ClockOnlyAdvances(u, acts[..|acts| - 1]); }
  }
}
