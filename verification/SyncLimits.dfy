/**
 * What the sync protocol does not protect against, each with its exact condition: what a pickup in
 * the final-page window writes, which edges can never be synced, and which posts stay undownloaded.
 */
module SyncLimits {
  import opened MetaTypes
  import opened MediaRepository
  import opened HistoryLaws
  import opened EdgeWalk
  import opened SyncProtocol
  import opened SyncProofs

  // ---------------------------------------------------------------- one malformed item

  /** With an unparseable item below the cap, no schedule even reaches the window. */
  lemma {:induction false} MalformedKeepsInv(u: Setup, acts: seq<Action>, p: nat)
    requires ValidSetup(u) && After(u, acts).Some?
    requires p < Target(u) && u.edge.items[p].takenAt.None?
    ensures Inv(u, After(u, acts).value)
  {
    if acts != [] {
      hide RunInv, WalkInv, RawInv, JobInv, Apply, Overcounts;
      var s, a := After(u, acts[..|acts| - 1]).value, acts[|acts| - 1];
      MalformedKeepsInv(u, acts[..|acts| - 1], p);
      if a == Pickup {
        PickupFindsItDown(u, s);
        MalformedIsNotCounted(u, s, p);
        WindowCountsAll(u, s);
      }
      Step(u, s, a);
    }
  }

  lemma MalformedIsNotCounted(u: Setup, s: State, p: nat)
    requires Inv(u, s) && p < Target(u) && u.edge.items[p].takenAt.None?
    ensures SyncProofs.Written(s) <= p
  {
    hide RunInv, RawInv, JobInv;
    WalkBounds(u.curated.history, u.edge, s.visits);
    if p < HighWater(s.visits) { NothingSkipped(u.curated.history, u.edge, s.visits, p); }
  }

  lemma WindowCountsAll(u: Setup, s: State)
    requires RunInv(u, s) && s.proc.Down?
    ensures Overcounts(u, s.db.run) ==> SyncProofs.Written(s) == |u.edge.items|
  {
  }

  lemma SucceededWroteAll(u: Setup, s: State)
    requires RunInv(u, s) && s.db.run.status == Succeeded
    ensures SyncProofs.Written(s) == Target(u)
  {
  }

  predicate ParsesTo(u: Setup, n: nat) {
    n <= |u.edge.items| && forall p: nat :: p < n ==> u.edge.items[p].takenAt.Some?
  }

  /** The rest of a page is persisted, item by item. */
  lemma {:induction false} PersistRest(u: Setup, acts0: seq<Action>, s0: State) returns (acts: seq<Action>, s: State)
    requires After(u, acts0) == Some(s0) && AvoidsWindow(u, acts0)
    requires s0.proc.Curating? && s0.proc.index <= |s0.proc.page.items|
    requires forall i :: 0 <= i < |s0.proc.page.items| ==> s0.proc.page.items[i].takenAt.Some?
    ensures After(u, acts) == Some(s) && AvoidsWindow(u, acts) && s.db.run == s0.db.run
    ensures s.proc == Curating(s0.proc.seen, s0.proc.page, |s0.proc.page.items|)
    decreases |s0.proc.page.items| - s0.proc.index
  {
    hide After, AvoidsWindow, Upsert, EnsurePending;
    acts, s := acts0, s0;
    if s.proc.index < |s.proc.page.items| {
      s := TakeStep(u, acts, s, UpsertItem(s.clock + 1, 0));
      acts := acts + [UpsertItem(s.clock, 0)];
      s := TakeStep(u, acts, s, EnsureAsset);
      acts := acts + [EnsureAsset];
      if s.proc.Queueing? {
        s := TakeStep(u, acts, s, Enqueue);
        acts := acts + [Enqueue];
      }
      acts, s := PersistRest(u, acts, s);
    }
  }

  /** One page with everything that is wanted is fetched and persisted. */
  lemma {:induction false} WantedPage(u: Setup) returns (acts: seq<Action>, s: State)
    requires ParsesTo(u, Target(u)) && u.maxItems > 0
    ensures After(u, acts) == Some(s) && AvoidsWindow(u, acts)
    ensures s.proc.Curating? && s.proc.seen == 0 && s.proc.index == |s.proc.page.items| == Target(u)
    ensures s.proc.page.nextCursor.None? || Target(u) == u.maxItems
  {
    hide After, AvoidsWindow, RawRows;
    acts, s := [], Init(u);
    NothingTaken(u);
    s := TakeStep(u, acts, s, Pickup);
    acts := acts + [Pickup];
    var n, more := Target(u), Target(u) < |u.edge.items|;
    s := TakeStep(u, acts, s, Fetch(n, more));
    acts := acts + [Fetch(n, more)];
    s := TakeStep(u, acts, s, LandRaw);
    acts := acts + [LandRaw];
    acts, s := PersistRest(u, acts, s);
  }

  /** A persisted page that ends the walk is counted and the run finished. */
  lemma {:induction false} LastPageFinishes(u: Setup, acts0: seq<Action>, s0: State) returns (acts: seq<Action>)
    requires After(u, acts0) == Some(s0) && AvoidsWindow(u, acts0)
    requires s0.proc.Curating? && s0.proc.index == |s0.proc.page.items|
    requires s0.proc.page.nextCursor.None? || s0.proc.seen + |s0.proc.page.items| >= u.maxItems
    ensures After(u, acts).Some? && After(u, acts).value.db.run.status == Succeeded
  {
    hide After, AvoidsWindow, Overcounts;
    acts := acts0;
    var s := TakeStep(u, acts, s0, EndPage);
    acts := acts + [EndPage];
    s := TakeStep(u, acts, s, RecordProgress);
    acts := acts + [RecordProgress];
    s := TakeStep(u, acts, s, NextPage);
    acts := acts + [NextPage];
    s := TakeStep(u, acts, s, Finish);
    acts := acts + [Finish];
  }

  /** A run without accident succeeds. */
  lemma {:induction false} ParseableSucceeds(u: Setup) returns (acts: seq<Action>)
    requires ParsesTo(u, Target(u))
    ensures After(u, acts).Some? && After(u, acts).value.db.run.status == Succeeded
  {
    hide After, AvoidsWindow, ParsesTo;
    if u.maxItems > 0 {
      var s;
      acts, s := WantedPage(u);
      acts := LastPageFinishes(u, acts, s);
    } else {
      NothingTaken(u);
      var s := TakeStep(u, [], Init(u), Pickup);
      s := TakeStep(u, [] + [Pickup], s, Finish);
      acts := [] + [Pickup] + [Finish];
    }
  }

  lemma NothingTaken(u: Setup)
    ensures After(u, []) == Some(Init(u)) && AvoidsWindow(u, [])
  {
  }

  /**
   * A run can succeed at all exactly when every timestamp below the cap parses: one malformed item
   * keeps every run of its edge from succeeding, whatever crashes, resumes and page sizes there are.
   */
  lemma {:induction false} SucceedsExactly(u: Setup)
    requires ValidSetup(u)
    ensures (exists acts :: After(u, acts).Some? && After(u, acts).value.db.run.status == Succeeded)
            <==> ParsesTo(u, Target(u))
  {
    hide After, Inv;
    if ParsesTo(u, Target(u)) {
      var acts := ParseableSucceeds(u);
    } else {
      var p: nat :| p < Target(u) && u.edge.items[p].takenAt.None?;
      forall acts | After(u, acts).Some? ensures After(u, acts).value.db.run.status != Succeeded {
        MalformedKeepsInv(u, acts, p);
        MalformedNeverSucceeds(u, After(u, acts).value, p);
      }
    }
  }

  lemma MalformedNeverSucceeds(u: Setup, s: State, p: nat)
    requires Inv(u, s) && p < Target(u) && u.edge.items[p].takenAt.None?
    ensures s.db.run.status != Succeeded
  {
    hide RunInv, WalkInv, RawInv, JobInv;
    MalformedIsNotCounted(u, s, p);
    if s.db.run.status == Succeeded { SucceededWroteAll(u, s); }
  }

  // ---------------------------------------------------------------- a file that arrives late

  ghost predicate Unqueued(s: State, id: string) {
    && id in s.db.assets && s.db.assets[id].status != Pending && id !in s.db.jobs
    && (s.proc.Queueing? && s.proc.index < |s.proc.page.items| ==> s.proc.page.items[s.proc.index].id != id)
  }

  lemma {:induction false} UnqueuedStays(u: Setup, s: State, a: Action, id: string)
    requires Unqueued(s, id) && Apply(u, s, a).Some?
    ensures Unqueued(Apply(u, s, a).value, id)
  {
    hide Upsert, RawRows;
  }

  /**
   * A post whose asset row is no longer pending when a run starts, `skipped` for want of a URL
   * included, gets no download job from it, even when the run brings the URL.
   */
  lemma {:induction false} SkippedStaysUndownloaded(u: Setup, acts: seq<Action>, id: string)
    requires After(u, acts).Some? && id in u.assets && u.assets[id].status != Pending
    ensures Unqueued(After(u, acts).value, id)
  {
    if acts != [] {
      hide Unqueued, Apply;
      SkippedStaysUndownloaded(u, acts[..|acts| - 1], id);
      UnqueuedStays(u, After(u, acts[..|acts| - 1]).value, acts[|acts| - 1], id);
    }
  }

  // ---------------------------------------------------------------- a pickup in the window

  /** The upsert of position p by a call that resumed in the window: ranked past the whole edge. */
  function Misfiled(u: Setup, run: Run, p: nat, now: int, newId: nat): Sighting
    requires p < |u.edge.items| && Position(run.lastCursor) <= p
  {
    SightingAt(u.edge, Visit(p, now, newId)).(rank := run.itemsSeen + (p - Position(run.lastCursor)) + 1)
  }

  /** It is what the resumed call does: count and cursor advance together from the row's. */
  lemma WindowMisfiles(u: Setup, s: State, d: nat, n: nat, more: bool, number: nat, index: nat, now: int, newId: nat)
    requires s.proc == Fetching(s.db.run.itemsSeen + d, Position(s.db.run.lastCursor) + d, number)
    requires FetchPage(u, s, n, more).Some? && index < n
    ensures var page := FetchPage(u, s, n, more).value.proc.page;
            ItemSighting(u, Curating(s.proc.seen, page, index), now, newId)
            == Misfiled(u, s.db.run, s.proc.cursor + index, now, newId)
  {
  }

  /** The tables after the first n items from the stored cursor were fetched again. */
  function Refetched(c: Curated, u: Setup, run: Run, n: nat, now: int): Curated
    requires Position(run.lastCursor) + n <= |u.edge.items|
  {
    if n == 0 then c else
    Upsert(Refetched(c, u, run, n - 1, now), Misfiled(u, run, Position(run.lastCursor) + n - 1, now + n - 1, 0))
  }

  /** The visits a call with the right count would have made. */
  function Revisits(from: nat, n: nat, now: int): seq<Visit> {
    seq(n, (i: nat) => Visit(from + i, now + i, 0))
  }

  lemma {:induction false} RevisitsAreAWalk(u: Setup, w: seq<Visit>, from: nat, n: nat, now: int)
    requires Walk(u.curated.history, u.edge, w) && Reach(w) == HighWater(w) == |u.edge.items|
    requires from + n <= |u.edge.items| && CapturedBy(u.curated.history, now - 1)
    requires w != [] ==> w[|w| - 1].now < now
    ensures var all := w + Revisits(from, n, now);
            Walk(u.curated.history, u.edge, all) && HighWater(all) == |u.edge.items|
            && Reach(all) == if n == 0 then |u.edge.items| else from + n
  {
    if n == 0 {
      assert w + Revisits(from, 0, now) == w;
    } else {
      RevisitsAreAWalk(u, w, from, n - 1, now);
      var all, v := w + Revisits(from, n - 1, now), Visit(from + n - 1, now + n - 1, 0);
      assert w + Revisits(from, n, now) == all + [v];
      NothingSkipped(u.curated.history, u.edge, w, v.pos);
      Push(u.curated, u.edge, all, v);
    }
  }

  /** On tables that took the item in already, a rank further down changes no post. */
  lemma MisfiledSamePosts(c: Curated, c': Curated, o: Sighting, rank: nat)
    requires Absorbed(c, o) && Accepted(o) && o.rank <= rank && c'.posts == c.posts
    ensures Upsert(c', o.(rank := rank)).posts == Upsert(c, o).posts
  {
    hide Appended, ContentDiffers;
  }

  /** It writes a history row exactly on the top edge, and only where this run has none yet. */
  lemma MisfiledAppends(h: seq<HistoryRow>, o: Sighting, rank: nat)
    requires Latest(h, o.media.id) == Some(StateOf(o)) || HasRow(h, o.media.id, o.syncRunId)
    requires rank != o.rank
    ensures var h' := Appended(h, o.(rank := rank));
            (h' == h <==> o.source == Recent || HasRow(h, o.media.id, o.syncRunId)) && |h'| >= |h|
  {
    AppendedIff(h, o.(rank := rank));
  }

  /** Where the tables stand when a run died in the window. */
  lemma {:induction false} WindowState(u: Setup, s: State)
    requires ValidSetup(u) && Inv(u, s) && s.proc.Down? && Overcounts(u, s.db.run)
    ensures s.db.curated == Walked(u.curated, u.edge, s.visits) && Walk(u.curated.history, u.edge, s.visits)
    ensures Reach(s.visits) == HighWater(s.visits) == |u.edge.items| == Target(u) == s.db.run.itemsSeen
    ensures CapturedBy(u.curated.history, s.clock) && (s.visits != [] ==> s.visits[|s.visits| - 1].now <= s.clock)
    ensures Position(s.db.run.lastCursor) < s.db.run.itemsSeen
  {
    hide RawInv, JobInv;
    WalkBounds(u.curated.history, u.edge, s.visits);
  }

  lemma {:induction false} WalkAbsorbsAll(u: Setup, w: seq<Visit>, p: nat)
    requires ValidSetup(u) && Walk(u.curated.history, u.edge, w) && HighWater(w) == |u.edge.items| == Target(u)
    requires p < |u.edge.items|
    ensures Absorbed(Walked(u.curated, u.edge, w), SightingAt(u.edge, Visit(p, 0, 0)))
    ensures Accepted(SightingAt(u.edge, Visit(p, 0, 0)))
  {
    hide Walk, Walked, HighWater, SameBase, SameHistory, Absorbed;
    UninterruptedIsAWalk(u, w);
    StutterAgrees(u.curated, u.edge, w, Uninterrupted(u));
    NothingSkipped(u.curated.history, u.edge, w, p);
  }

  /** Posts: as if the call had gone back to the stored cursor with the right count. */
  lemma {:induction false} RefetchedPosts(u: Setup, s: State, n: nat, now: int)
    requires ValidSetup(u) && Inv(u, s) && s.proc.Down? && Overcounts(u, s.db.run) && s.clock < now
    requires Position(s.db.run.lastCursor) + n <= |u.edge.items|
    ensures Refetched(s.db.curated, u, s.db.run, n, now).posts
            == Walked(u.curated, u.edge, s.visits + Revisits(Position(s.db.run.lastCursor), n, now)).posts
  {
    hide Inv, Walked, Upsert, Absorbed, Walk, HighWater, Reach, Overcounts;
    var from := Position(s.db.run.lastCursor);
    WindowState(u, s);
    if n == 0 {
      assert s.visits + Revisits(from, 0, now) == s.visits;
    } else {
      RefetchedPosts(u, s, n - 1, now);
      var w, v := s.visits + Revisits(from, n - 1, now), Visit(from + n - 1, now + n - 1, 0);
      assert s.visits + Revisits(from, n, now) == w + [v];
      CapturedLater(u.curated.history, s.clock, now - 1);
      RevisitsAreAWalk(u, s.visits, from, n - 1, now);
      WalkAbsorbsAll(u, w, v.pos);
      Push(u.curated, u.edge, w, v);
      var o := SightingAt(u.edge, v);
      AbsorbedIgnoresClock(Walked(u.curated, u.edge, w), SightingAt(u.edge, Visit(v.pos, 0, 0)), o);
      var rank := s.db.run.itemsSeen + (v.pos - from) + 1;
      assert Misfiled(u, s.db.run, v.pos, v.now, 0) == o.(rank := rank);
      MisfiledSamePosts(Walked(u.curated, u.edge, w), Refetched(s.db.curated, u, s.db.run, n - 1, now), o, rank);
    }
  }

  lemma CapturedLater(h: seq<HistoryRow>, t: int, t': int)
    requires CapturedBy(h, t) && t <= t'
    ensures CapturedBy(h, t')
  {
  }

  /** This run has a history row for every post fetched again. */
  ghost predicate AllHaveRows(u: Setup, h: seq<HistoryRow>, from: nat, n: nat)
    requires from + n <= |u.edge.items|
  {
    forall p :: from <= p < from + n ==> HasRow(h, u.edge.items[p].id, u.edge.syncRunId)
  }

  lemma AllHaveRowsPush(u: Setup, h: seq<HistoryRow>, from: nat, n: nat)
    requires n > 0 && from + n <= |u.edge.items|
    ensures AllHaveRows(u, h, from, n)
            <==> AllHaveRows(u, h, from, n - 1) && HasRow(h, u.edge.items[from + n - 1].id, u.edge.syncRunId)
  {
    hide HasRow;
  }

  lemma RefetchedPush(c: Curated, u: Setup, run: Run, n: nat, now: int, o: Sighting, rank: nat)
    requires n > 0 && Position(run.lastCursor) + n <= |u.edge.items|
    requires var p := Position(run.lastCursor) + n - 1;
             o == SightingAt(u.edge, Visit(p, now + n - 1, 0)) && Accepted(o)
             && rank == run.itemsSeen + (p - Position(run.lastCursor)) + 1
    ensures Refetched(c, u, run, n, now).history
            == Appended(Refetched(c, u, run, n - 1, now).history, o.(rank := rank))
  {
    hide Appended, UpsertedRow;
  }

  /** History: a row is added exactly on the top edge for a post this run had no row for. */
  lemma {:induction false} RefetchedHistory(u: Setup, s: State, n: nat, now: int)
    requires ValidSetup(u) && Inv(u, s) && s.proc.Down? && Overcounts(u, s.db.run)
    requires Position(s.db.run.lastCursor) + n <= |u.edge.items|
    ensures var h, h' := s.db.curated.history, Refetched(s.db.curated, u, s.db.run, n, now).history;
            |h'| >= |h|
            && (h' == h <==> u.edge.source == Recent || AllHaveRows(u, h, Position(s.db.run.lastCursor), n))
            && (h' == h || |h'| > |h|)
  {
    hide Inv, Walked, Walk, HighWater, Reach, Appended, HasRow, Latest, Overcounts;
    hide Refetched, AllHaveRows, Absorbed, Upsert, Target;
    var from, h0 := Position(s.db.run.lastCursor), s.db.curated.history;
    if n == 0 {
      NothingRefetched(s.db.curated, u, s.db.run, now);
    } else {
      WindowState(u, s);
      RefetchedHistory(u, s, n - 1, now);
      var p := from + n - 1;
      WalkAbsorbsAll(u, s.visits, p);
      var h := Refetched(s.db.curated, u, s.db.run, n - 1, now).history;
      var o := SightingAt(u.edge, Visit(p, now + n - 1, 0));
      var rank := s.db.run.itemsSeen + (p - from) + 1;
      RefetchedPush(s.db.curated, u, s.db.run, n, now, o, rank);
      AllHaveRowsPush(u, h0, from, n);
      AbsorbedState(s.db.curated, SightingAt(u.edge, Visit(p, 0, 0)), o);
      AppendsOrNot(h, o.(rank := rank));
      if h == h0 { MisfiledAppends(h, o, rank); }
    }
  }

  lemma NothingRefetched(c: Curated, u: Setup, run: Run, now: int)
    requires Position(run.lastCursor) <= |u.edge.items|
    ensures Refetched(c, u, run, 0, now) == c && AllHaveRows(u, c.history, Position(run.lastCursor), 0)
  {
  }

  lemma AbsorbedState(c: Curated, o: Sighting, o': Sighting)
    requires Absorbed(c, o) && SameCall(o, o')
    ensures Latest(c.history, o'.media.id) == Some(StateOf(o')) || HasRow(c.history, o'.media.id, o'.syncRunId)
  {
    AbsorbedIgnoresClock(c, o, o');
  }

  lemma AppendsOrNot(h: seq<HistoryRow>, o: Sighting)
    ensures Appended(h, o) == h || |Appended(h, o)| > |h|
  {
  }

  /**
   * A pickup in the window that fetches the rest of the edge again: the posts end as those of an
   * uninterrupted run, and the history, which was that of an uninterrupted run, gets rows with
   * wrong ranks exactly when the edge is the top one and some re-fetched post had no row of this run.
   */
  lemma {:induction false} WindowEffects(u: Setup, acts: seq<Action>, now: int)
    requires ValidSetup(u) && AvoidsWindow(u, acts) && After(u, acts).Some?
    requires var s := After(u, acts).value; s.proc.Down? && Overcounts(u, s.db.run) && s.clock < now
    ensures var s := After(u, acts).value;
            var from, line := Position(s.db.run.lastCursor), Walked(u.curated, u.edge, Uninterrupted(u));
            && from <= |u.edge.items|
            && (var c := Refetched(s.db.curated, u, s.db.run, |u.edge.items| - from, now);
                && SamePosts(c.posts, line.posts)
                && SameHistory(s.db.curated.history, line.history)
                && (c.history == s.db.curated.history <==>
                      u.edge.source == Recent || AllHaveRows(u, s.db.curated.history, from, |u.edge.items| - from)))
  {
    hide After, Inv, Walked, Walk, HighWater, Reach, SamePosts, SameHistory, Refetched, Overcounts;
    EverySafeScheduleKeepsInv(u, acts);
    var s := After(u, acts).value;
    var from := Position(s.db.run.lastCursor);
    WindowState(u, s);
    var n := |u.edge.items| - from;
    CapturedLater(u.curated.history, s.clock, now - 1);
    RevisitsAreAWalk(u, s.visits, from, n, now);
    RefetchedPosts(u, s, n, now);
    RefetchedHistory(u, s, n, now);
    UninterruptedIsAWalk(u, s.visits);
    WalkTransparent(u.curated, u.edge, s.visits, Uninterrupted(u));
    WalkTransparent(u.curated, u.edge, s.visits + Revisits(from, n, now), Uninterrupted(u));
  }
}
