/**
 * One run's upserts as a walk over the positions of a stable edge. The walk may stutter: jump back
 * any number of times, as a resumed or replayed run does, so long as it never skips a position.
 * The main result is that such a walk leaves the same tables as going straight through once.
 */
module EdgeWalk {
  import opened MetaTypes
  import opened MediaRepository
  import opened HistoryLaws

  /** What a run ingests: the items of Meta's edge in order, and the run's own identity. */
  datatype Edge = Edge(items: seq<Media>, hashtagId: nat, syncRunId: nat, source: Source)

  /** One upsert of a run: the position it is at, the clock, and the uuid an insert would take. */
  datatype Visit = Visit(pos: nat, now: int, newId: nat)

  function SightingAt(e: Edge, v: Visit): Sighting
    requires v.pos < |e.items|
  {
    Sighting(e.items[v.pos], e.hashtagId, e.syncRunId, e.source, v.pos + 1, v.now, v.newId)
  }

  /** The position after the last visited one. */
  function Reach(w: seq<Visit>): nat {
    if w == [] then 0 else w[|w| - 1].pos + 1
  }

  /** One past the greatest position ever visited. */
  function HighWater(w: seq<Visit>): nat {
    if w == [] then 0
    else
      var rest, v := HighWater(w[..|w| - 1]), w[|w| - 1];
      if rest <= v.pos then v.pos + 1 else rest
  }

  /** The next visit skips nothing, finds a parseable item, and comes later than all before it. */
  ghost predicate Fits(h: seq<HistoryRow>, e: Edge, w: seq<Visit>, v: Visit) {
    && v.pos < |e.items| && e.items[v.pos].takenAt.Some?
    && v.pos <= Reach(w)
    && (if w == [] then CapturedBy(h, v.now - 1) else w[|w| - 1].now < v.now)
  }

  /** Visits that start at 0 and never skip ahead, on tables whose history is h. */
  ghost predicate Walk(h: seq<HistoryRow>, e: Edge, w: seq<Visit>) {
    w == [] || (Walk(h, e, w[..|w| - 1]) && Fits(h, e, w[..|w| - 1], w[|w| - 1]))
  }

  /** Once through, in order. */
  ghost predicate Straight(w: seq<Visit>) {
    forall k :: 0 <= k < |w| ==> w[k].pos == k
  }

  /** The tables after a walk. A visit off the edge would be no upsert at all. */
  function Walked(c: Curated, e: Edge, w: seq<Visit>): Curated {
    if w == [] then c
    else
      var before, v := Walked(c, e, w[..|w| - 1]), w[|w| - 1];
      if v.pos < |e.items| then Upsert(before, SightingAt(e, v)) else before
  }

  ghost predicate Ascending(h: seq<HistoryRow>) {
    forall i, j :: 0 <= i < j < |h| ==> h[i].capturedAt <= h[j].capturedAt
  }

  // ---------------------------------------------------------------- equality, clocks aside

  /** A post without its surrogate id and clock readings. Whether its content ever changed is kept. */
  function Timeless(p: Post): Post {
    p.(id := 0, firstSeenAt := 0, lastSeenAt := 0, metricsUpdatedAt := 0,
       contentUpdatedAt := if p.contentUpdatedAt.Some? then Some(0) else None)
  }

  function TimelessRow(r: HistoryRow): HistoryRow {
    r.(capturedAt := 0)
  }

  ghost predicate SameHistory(h: seq<HistoryRow>, h': seq<HistoryRow>) {
    |h| == |h'| && forall i :: 0 <= i < |h| ==> TimelessRow(h[i]) == TimelessRow(h'[i])
  }

  ghost predicate SamePosts(a: map<string, Post>, b: map<string, Post>) {
    a.Keys == b.Keys && forall id :: id in a ==> Timeless(a[id]) == Timeless(b[id])
  }

  ghost predicate Same(a: Curated, b: Curated) {
    SamePosts(a.posts, b.posts) && SameHistory(a.history, b.history)
  }

  /** The last-writer columns. */
  datatype Latest4 = Latest4(caption: Option<string>, url: Option<string>, likes: Option<nat>, comments: Option<nat>)

  function Written(p: Post): Latest4 {
    Latest4(p.caption, p.sourceMediaUrl, p.likeCount, p.commentsCount)
  }

  function WrittenFrom(m: Media): Latest4 {
    Latest4(m.caption, m.mediaUrl, m.likeCount, m.commentsCount)
  }

  /** Everything but the clocks and the last-writer columns. */
  function Base(p: Post): Post {
    Timeless(p).(caption := None, sourceMediaUrl := None, likeCount := None, commentsCount := None)
  }

  ghost predicate SameBase(a: map<string, Post>, b: map<string, Post>) {
    a.Keys == b.Keys && forall id :: id in a ==> Base(a[id]) == Base(b[id])
  }

  // ---------------------------------------------------------------- one upsert at a time

  /** Two calls that differ at most in clock and uuid. */
  ghost predicate SameCall(o: Sighting, o': Sighting) {
    o.(now := 0, newId := 0) == o'.(now := 0, newId := 0)
  }

  /** The tables already carry everything this observation could add. */
  ghost predicate Absorbed(c: Curated, o: Sighting) {
    && o.media.id in c.posts
    && (var p := c.posts[o.media.id];
        && !p.isStale
        && (o.source == Top ==> p.seenInTop && p.bestTopRank.Some? && p.bestTopRank.value <= o.rank)
        && (o.source == Recent ==> p.seenInRecent)
        && (p.contentUpdatedAt.Some? || !ContentDiffers(p, o.media)))
    && (Latest(c.history, o.media.id) == Some(StateOf(o)) || HasRow(c.history, o.media.id, o.syncRunId))
  }

  lemma UpsertAbsorbs(c: Curated, o: Sighting)
    requires Accepted(o) && CapturedBy(c.history, o.now)
    ensures Absorbed(Upsert(c, o), o)
  {
    AppendedIff(c.history, o);
    var h' := Appended(c.history, o);
    if h' != c.history {
      var changed :| h' == c.history + [RowFor(o, changed)];
      NewestOnAppend(c.history, RowFor(o, changed), o.media.id, None);
    }
  }

  lemma AbsorbedIgnoresClock(c: Curated, o: Sighting, o': Sighting)
    requires Absorbed(c, o) && SameCall(o, o')
    ensures Absorbed(c, o')
  {
    assert o.media == o'.media && o.source == o'.source && o.rank == o'.rank && o.syncRunId == o'.syncRunId;
  }

  lemma AbsorbedStays(c: Curated, o: Sighting, next: Sighting)
    requires Absorbed(c, o) && Accepted(next) && next.syncRunId == o.syncRunId
    requires CapturedBy(c.history, next.now)
    ensures Absorbed(Upsert(c, next), o)
  {
    AppendedIff(c.history, next);
    var h' := Appended(c.history, next);
    if h' != c.history {
      var changed :| h' == c.history + [RowFor(next, changed)];
      NewestOnAppend(c.history, RowFor(next, changed), o.media.id, None);
      HasRowOnAppend(c.history, RowFor(next, changed), o.media.id, o.syncRunId);
    }
  }

  lemma AbsorbedChangesNothingLasting(c: Curated, o: Sighting)
    requires Absorbed(c, o) && Accepted(o)
    ensures Upsert(c, o).history == c.history
    ensures SameBase(Upsert(c, o).posts, c.posts)
  {
    AppendedIff(c.history, o);
  }

  lemma {:induction false} NewestAgrees(h: seq<HistoryRow>, h': seq<HistoryRow>, id: string)
    requires SameHistory(h, h') && Ascending(h) && Ascending(h')
    ensures Latest(h, id) == Latest(h', id)
  {
    if h != [] {
      var n := |h| - 1;
      NewestAgrees(h[..n], h'[..n], id);
      NewestIsRow(h[..n], id, None);
      NewestIsRow(h'[..n], id, None);
      assert TimelessRow(h[n]) == TimelessRow(h'[n]);
    }
  }

  lemma HasRowAgrees(h: seq<HistoryRow>, h': seq<HistoryRow>, id: string, run: nat)
    requires SameHistory(h, h')
    ensures HasRow(h, id, run) == HasRow(h', id, run)
  {
    if HasRow(h, id, run) {
      var i :| 0 <= i < |h| && h[i].igMediaId == id && h[i].syncRunId == run;
      assert TimelessRow(h[i]) == TimelessRow(h'[i]);
    }
    if HasRow(h', id, run) {
      var i :| 0 <= i < |h'| && h'[i].igMediaId == id && h'[i].syncRunId == run;
      assert TimelessRow(h[i]) == TimelessRow(h'[i]);
    }
  }

  /** The post the call is about has the same caption in both tables. */
  predicate SameCaption(posts: map<string, Post>, posts': map<string, Post>, o: Sighting) {
    o.media.id in posts && o.media.id in posts' ==> posts[o.media.id].caption == posts'[o.media.id].caption
  }

  /** The same call on tables that agree leaves tables that agree. */
  lemma SameCallKeepsAgreement(c: Curated, c': Curated, o: Sighting, o': Sighting)
    requires SameBase(c.posts, c'.posts) && SameHistory(c.history, c'.history)
    requires Ascending(c.history) && Ascending(c'.history)
    requires SameCall(o, o') && Accepted(o) && SameCaption(c.posts, c'.posts, o)
    ensures SameBase(Upsert(c, o).posts, Upsert(c', o').posts)
    ensures SameHistory(Upsert(c, o).history, Upsert(c', o').history)
  {
    SameCallSameRow(c.posts, c'.posts, o, o');
    SameCallSameAppend(c.history, c'.history, o, o');
  }

  lemma SameCallSameRow(posts: map<string, Post>, posts': map<string, Post>, o: Sighting, o': Sighting)
    requires SameBase(posts, posts') && SameCall(o, o') && Accepted(o) && SameCaption(posts, posts', o)
    ensures Accepted(o') && o.media.id == o'.media.id
    ensures Base(UpsertedRow(posts, o)) == Base(UpsertedRow(posts', o'))
  {
    assert o.media == o'.media && o.source == o'.source && o.rank == o'.rank;
    if o.media.id in posts { assert Base(posts[o.media.id]) == Base(posts'[o.media.id]); }
  }

  lemma SameCallSameAppend(h: seq<HistoryRow>, h': seq<HistoryRow>, o: Sighting, o': Sighting)
    requires SameHistory(h, h') && Ascending(h) && Ascending(h') && SameCall(o, o')
    ensures SameHistory(Appended(h, o), Appended(h', o'))
  {
    assert o.media == o'.media && o.source == o'.source && o.rank == o'.rank && o.syncRunId == o'.syncRunId;
    NewestAgrees(h, h', o.media.id);
    HasRowAgrees(h, h', o.media.id, o.syncRunId);
  }

  lemma AscendingStays(c: Curated, o: Sighting)
    requires Ascending(c.history) && CapturedBy(c.history, o.now)
    ensures Ascending(Upsert(c, o).history) && CapturedBy(Upsert(c, o).history, o.now)
  {
    AppendedIff(c.history, o);
  }

  // ---------------------------------------------------------------- whole walks

  lemma Push(c: Curated, e: Edge, w: seq<Visit>, v: Visit)
    ensures Walk(c.history, e, w + [v]) <==> Walk(c.history, e, w) && Fits(c.history, e, w, v)
    ensures v.pos < |e.items| ==> Walked(c, e, w + [v]) == Upsert(Walked(c, e, w), SightingAt(e, v))
    ensures Reach(w + [v]) == v.pos + 1
    ensures HighWater(w + [v]) == if HighWater(w) <= v.pos then v.pos + 1 else HighWater(w)
  {
    hide Upsert;
    assert (w + [v])[..|w|] == w;
  }

  lemma {:induction false} WalkPrefix(h: seq<HistoryRow>, e: Edge, w: seq<Visit>, n: nat)
    requires Walk(h, e, w) && n < |w|
    ensures Walk(h, e, w[..n]) && Fits(h, e, w[..n], w[n])
    ensures w[..n + 1] == w[..n] + [w[n]]
  {
    if n < |w| - 1 {
      WalkPrefix(h, e, w[..|w| - 1], n);
      assert w[..|w| - 1][..n] == w[..n] && w[..|w| - 1][..n + 1] == w[..n + 1];
    }
  }

  lemma {:induction false} WalkBounds(h: seq<HistoryRow>, e: Edge, w: seq<Visit>)
    requires Walk(h, e, w)
    ensures Reach(w) <= HighWater(w) <= |e.items|
  {
    if w != [] { WalkBounds(h, e, w[..|w| - 1]); }
  }

  /** History stays in clock order along a walk, and behind the clock of the next visit. */
  lemma {:induction false} WalkedClock(c: Curated, e: Edge, w: seq<Visit>)
    requires Walk(c.history, e, w) && Ascending(c.history)
    ensures Ascending(Walked(c, e, w).history)
    ensures forall v :: Fits(c.history, e, w, v) ==> CapturedBy(Walked(c, e, w).history, v.now)
  {
    hide Upsert;
    if w != [] {
      var n := |w| - 1;
      WalkedClock(c, e, w[..n]);
      assert Fits(c.history, e, w[..n], w[n]);
      AscendingStays(Walked(c, e, w[..n]), SightingAt(e, w[n]));
    }
  }

  /** The last-writer columns come from an occurrence no earlier than any before the current position. */
  ghost predicate WrittenAt(p: Post, e: Edge, id: string, reach: nat, high: nat, q: nat) {
    && q < high <= |e.items| && e.items[q].id == id && Written(p) == WrittenFrom(e.items[q])
    && forall r: nat :: r < reach && r < |e.items| && e.items[r].id == id ==> r <= q
  }

  ghost predicate OccursBelow(e: Edge, id: string, high: nat) {
    exists q: nat :: q < high && q < |e.items| && e.items[q].id == id
  }

  /** Where the last-writer columns of one post stand after a walk. */
  ghost predicate WrittenInOrder(c: map<string, Post>, a: map<string, Post>, e: Edge, id: string, reach: nat,
                                 high: nat)
  {
    if OccursBelow(e, id, high)
    then id in a && exists q :: WrittenAt(a[id], e, id, reach, high, q)
    else (id in a <==> id in c) && (id in a ==> a[id] == c[id])
  }

  lemma WrittenStep(c: map<string, Post>, a: Curated, e: Edge, id: string, reach: nat, high: nat, v: Visit)
    requires WrittenInOrder(c, a.posts, e, id, reach, high)
    requires v.pos <= reach <= high && v.pos < |e.items| && high <= |e.items| && Accepted(SightingAt(e, v))
    ensures WrittenInOrder(c, Upsert(a, SightingAt(e, v)).posts, e, id, v.pos + 1,
                           if v.pos == high then high + 1 else high)
  {
    var a' := Upsert(a, SightingAt(e, v)).posts;
    var high' := if v.pos == high then high + 1 else high;
    if e.items[v.pos].id == id {
      assert WrittenAt(a'[id], e, id, v.pos + 1, high', v.pos);
      assert OccursBelow(e, id, high');
    } else {
      assert OccursBelow(e, id, high) <==> OccursBelow(e, id, high');
      assert id in a' <==> id in a.posts;
      if OccursBelow(e, id, high) {
        var q :| WrittenAt(a.posts[id], e, id, reach, high, q);
        assert WrittenAt(a'[id], e, id, v.pos + 1, high', q);
      }
    }
  }

  lemma {:induction false} LastWriter(c: Curated, e: Edge, w: seq<Visit>, id: string)
    requires Walk(c.history, e, w)
    ensures WrittenInOrder(c.posts, Walked(c, e, w).posts, e, id, Reach(w), HighWater(w))
  {
    hide Upsert;
    if w != [] {
      hide Walked;
      hide HighWater;
      hide WrittenInOrder;
      var n := |w| - 1;
      assert w == w[..n] + [w[n]];
      Push(c, e, w[..n], w[n]);
      WalkBounds(c.history, e, w[..n]);
      LastWriter(c, e, w[..n], id);
      WrittenStep(c.posts, Walked(c, e, w[..n]), e, id, Reach(w[..n]), HighWater(w[..n]), w[n]);
    }
  }

  lemma {:induction false} StraightReach(s: seq<Visit>)
    requires Straight(s)
    ensures Reach(s) == |s| == HighWater(s)
  {
    if s != [] { StraightReach(s[..|s| - 1]); }
  }

  /** With the walk at its high-water mark, the last-writer columns are settled by the edge alone. */
  lemma WrittenAgrees(c: map<string, Post>, a: map<string, Post>, b: map<string, Post>, e: Edge, id: string, high: nat)
    requires WrittenInOrder(c, a, e, id, high, high) && WrittenInOrder(c, b, e, id, high, high)
    ensures id in a && id in b ==> Written(a[id]) == Written(b[id])
  {
    if OccursBelow(e, id, high) {
      var q :| WrittenAt(a[id], e, id, high, high, q);
      var q' :| WrittenAt(b[id], e, id, high, high, q');
      assert q == q';
    }
  }

  lemma CaptionAgrees(c: Curated, e: Edge, w: seq<Visit>, s: seq<Visit>, o: Sighting)
    requires Walk(c.history, e, w) && Walk(c.history, e, s)
    requires Reach(w) == HighWater(w) == Reach(s) == HighWater(s)
    ensures SameCaption(Walked(c, e, w).posts, Walked(c, e, s).posts, o)
  {
    hide Walk, Walked, Reach, HighWater, WrittenInOrder;
    LastWriter(c, e, w, o.media.id);
    LastWriter(c, e, s, o.media.id);
    WrittenAgrees(c.posts, Walked(c, e, w).posts, Walked(c, e, s).posts, e, o.media.id, HighWater(w));
  }

  /** Every position below the high-water mark has been taken in for good. */
  ghost predicate AllAbsorbed(c: Curated, e: Edge, upTo: nat) {
    upTo <= |e.items| && forall p: nat :: p < upTo ==> Absorbed(c, SightingAt(e, Visit(p, 0, 0)))
  }

  lemma AllAbsorbedStep(c: Curated, e: Edge, upTo: nat, v: Visit)
    requires AllAbsorbed(c, e, upTo) && v.pos <= upTo && v.pos < |e.items|
    requires Accepted(SightingAt(e, v)) && CapturedBy(c.history, v.now)
    ensures AllAbsorbed(Upsert(c, SightingAt(e, v)), e, if v.pos == upTo then upTo + 1 else upTo)
  {
    hide Upsert;
    hide Absorbed;
    var o := SightingAt(e, v);
    var c' := Upsert(c, o);
    UpsertAbsorbs(c, o);
    AbsorbedIgnoresClock(c', o, SightingAt(e, Visit(v.pos, 0, 0)));
    forall p: nat | p <= upTo && p < |e.items| && (p < upTo || p == v.pos)
      ensures Absorbed(c', SightingAt(e, Visit(p, 0, 0)))
    {
      if p < upTo { AbsorbedStays(c, SightingAt(e, Visit(p, 0, 0)), o); }
    }
  }

  /** The tables of a stuttering walk against those of the straight walk up to its high-water mark. */
  ghost predicate InAgreement(a: Curated, b: Curated, e: Edge, high: nat) {
    && SameBase(a.posts, b.posts) && SameHistory(a.history, b.history)
    && Ascending(a.history) && Ascending(b.history)
    && AllAbsorbed(a, e, high)
  }

  lemma RevisitKeepsAgreement(a: Curated, b: Curated, e: Edge, high: nat, v: Visit)
    requires InAgreement(a, b, e, high) && v.pos < high
    requires Accepted(SightingAt(e, v)) && CapturedBy(a.history, v.now)
    ensures InAgreement(Upsert(a, SightingAt(e, v)), b, e, high)
  {
    hide Upsert;
    hide Absorbed;
    AllAbsorbedStep(a, e, high, v);
    AbsorbedIgnoresClock(a, SightingAt(e, Visit(v.pos, 0, 0)), SightingAt(e, v));
    AbsorbedChangesNothingLasting(a, SightingAt(e, v));
  }

  lemma NewGroundKeepsAgreement(a: Curated, b: Curated, e: Edge, high: nat, v: Visit, v': Visit)
    requires InAgreement(a, b, e, high) && v.pos == v'.pos == high < |e.items|
    requires Accepted(SightingAt(e, v)) && CapturedBy(a.history, v.now) && CapturedBy(b.history, v'.now)
    requires SameCaption(a.posts, b.posts, SightingAt(e, v))
    ensures InAgreement(Upsert(a, SightingAt(e, v)), Upsert(b, SightingAt(e, v')), e, high + 1)
  {
    hide Upsert;
    hide Absorbed;
    AllAbsorbedStep(a, e, high, v);
    SameCallKeepsAgreement(a, b, SightingAt(e, v), SightingAt(e, v'));
    AscendingStays(a, SightingAt(e, v));
    AscendingStays(b, SightingAt(e, v'));
  }

  lemma FitsTells(c: Curated, e: Edge, w: seq<Visit>, v: Visit)
    requires Walk(c.history, e, w) && Fits(c.history, e, w, v) && Ascending(c.history)
    ensures v.pos < |e.items| && Accepted(SightingAt(e, v)) && v.pos <= HighWater(w)
    ensures CapturedBy(Walked(c, e, w).history, v.now)
  {
    WalkBounds(c.history, e, w);
    WalkedClock(c, e, w);
  }

  lemma StraightAt(s: seq<Visit>, k: nat)
    requires Straight(s) && k < |s|
    ensures s[k].pos == k
  {
  }

  lemma AtTheMark(c: Curated, e: Edge, w: seq<Visit>, v: Visit, s: seq<Visit>)
    requires Walk(c.history, e, w) && Fits(c.history, e, w, v) && v.pos >= HighWater(w)
    requires Straight(s) && HighWater(w) <= |s|
    ensures var h := HighWater(w); Reach(w) == h == Reach(s[..h]) == HighWater(s[..h])
  {
    WalkBounds(c.history, e, w);
    StraightReach(s[..HighWater(w)]);
  }

  lemma AgreementStep(c: Curated, e: Edge, w: seq<Visit>, v: Visit, s: seq<Visit>)
    requires Walk(c.history, e, w + [v]) && Walk(c.history, e, s) && Straight(s) && Ascending(c.history)
    requires HighWater(w + [v]) <= |s| && HighWater(w) <= HighWater(w + [v])
    requires InAgreement(Walked(c, e, w), Walked(c, e, s[..HighWater(w)]), e, HighWater(w))
    ensures InAgreement(Walked(c, e, w + [v]), Walked(c, e, s[..HighWater(w + [v])]), e, HighWater(w + [v]))
  {
    hide *;
    var h := HighWater(w);
    Push(c, e, w, v);
    FitsTells(c, e, w, v);
    if v.pos < h {
      RevisitKeepsAgreement(Walked(c, e, w), Walked(c, e, s[..h]), e, h, v);
    } else {
      WalkPrefix(c.history, e, s, h);
      StraightAt(s, h);
      FitsTells(c, e, s[..h], s[h]);
      Push(c, e, s[..h], s[h]);
      AtTheMark(c, e, w, v, s);
      CaptionAgrees(c, e, w, s[..h], SightingAt(e, v));
      NewGroundKeepsAgreement(Walked(c, e, w), Walked(c, e, s[..h]), e, h, v, s[h]);
    }
  }

  lemma {:induction false} StutterAgrees(c: Curated, e: Edge, w: seq<Visit>, s: seq<Visit>)
    requires Walk(c.history, e, w) && Walk(c.history, e, s) && Straight(s) && Ascending(c.history)
    requires HighWater(w) <= |s|
    ensures InAgreement(Walked(c, e, w), Walked(c, e, s[..HighWater(w)]), e, HighWater(w))
  {
    hide Upsert;
    if w != [] {
      hide *;
      var n := |w| - 1;
      assert w == w[..n] + [w[n]];
      Push(c, e, w[..n], w[n]);
      StutterAgrees(c, e, w[..n], s);
      AgreementStep(c, e, w[..n], w[n], s);
    }
  }

  lemma TimelessFromParts(p: Post, q: Post)
    requires Base(p) == Base(q) && Written(p) == Written(q)
    ensures Timeless(p) == Timeless(q)
  {
    assert Timeless(p) == Base(p).(caption := p.caption, sourceMediaUrl := p.sourceMediaUrl,
                                   likeCount := p.likeCount, commentsCount := p.commentsCount);
  }

  /**
   * However often a run jumps back, if it skips nothing and ends on the last of the positions it
   * visited, posts and history are those of visiting each position once, in order.
   */
  lemma WalkTransparent(c: Curated, e: Edge, w: seq<Visit>, s: seq<Visit>)
    requires Walk(c.history, e, w) && Walk(c.history, e, s) && Straight(s) && Ascending(c.history)
    requires Reach(w) == HighWater(w) == |s|
    ensures Same(Walked(c, e, w), Walked(c, e, s))
  {
    hide Walked;
    hide HighWater;
    StraightReach(s);
    assert s[..|s|] == s;
    StutterAgrees(c, e, w, s);
    var a, b := Walked(c, e, w).posts, Walked(c, e, s).posts;
    forall id | id in a ensures Timeless(a[id]) == Timeless(b[id]) {
      LastWriter(c, e, w, id);
      LastWriter(c, e, s, id);
      WrittenAgrees(c.posts, a, b, e, id, |s|);
      TimelessFromParts(a[id], b[id]);
    }
  }

  // ---------------------------------------------------------------- building walks

  /** Starting over after a finished walk still skips nothing. */
  lemma {:induction false} WalksConcatenate(c: Curated, e: Edge, w: seq<Visit>, more: seq<Visit>)
    requires Walk(c.history, e, w) && Walk(c.history, e, more)
    requires w != [] && more != [] ==> w[|w| - 1].now < more[0].now
    ensures Walk(c.history, e, w + more)
    ensures Walked(c, e, w + more) == Walked(Walked(c, e, w), e, more)
    ensures HighWater(w + more) == if HighWater(w) <= HighWater(more) then HighWater(more) else HighWater(w)
    ensures more != [] ==> Reach(w + more) == Reach(more)
  {
    hide *;
    if more == [] {
      NothingMore(c, e, w);
    } else {
      var n := |more| - 1;
      var some, v := more[..n], more[n];
      assert w + more == (w + some) + [v] && more == some + [v];
      Push(c, e, some, v);
      FitsOnTheEdge(c.history, e, some, v);
      WalksConcatenate(c, e, w, some);
      FitsAfter(c.history, e, w, some, v);
      Push(c, e, w + some, v);
      Push(Walked(c, e, w), e, some, v);
    }
  }

  lemma NothingMore(c: Curated, e: Edge, w: seq<Visit>)
    ensures w + [] == w && Walked(Walked(c, e, w), e, []) == Walked(c, e, w) && HighWater([]) == 0
  {
  }

  lemma FitsOnTheEdge(h: seq<HistoryRow>, e: Edge, w: seq<Visit>, v: Visit)
    ensures Fits(h, e, w, v) ==> v.pos < |e.items|
  {
  }

  /** What fits after a walk fits after any earlier walk followed by it. */
  lemma FitsAfter(h: seq<HistoryRow>, e: Edge, w: seq<Visit>, more: seq<Visit>, v: Visit)
    requires Fits(h, e, more, v) && (more != [] ==> Reach(w + more) == Reach(more))
    requires w != [] ==> w[|w| - 1].now < (more + [v])[0].now
    ensures Fits(h, e, w + more, v)
  {
    if more == [] { assert w + more == w; }
  }

  /** Everything below the high-water mark was visited. */
  lemma {:induction false} NothingSkipped(h: seq<HistoryRow>, e: Edge, w: seq<Visit>, p: nat)
    requires Walk(h, e, w) && p < HighWater(w)
    ensures p < |e.items| && e.items[p].takenAt.Some?
    ensures exists k :: 0 <= k < |w| && w[k].pos == p
  {
    var n := |w| - 1;
    WalkBounds(h, e, w[..n]);
    if w[n].pos != p {
      NothingSkipped(h, e, w[..n], p);
      var k :| 0 <= k < n && w[..n][k].pos == p;
      assert w[k].pos == p;
    }
  }

  /** Once through the first positions, at one clock tick each. */
  function OnceThrough(size: nat, start: int): seq<Visit> {
    seq(size, (k: nat) => Visit(k, start + k, 0))
  }

  lemma {:induction false} OnceThroughIsAWalk(h: seq<HistoryRow>, e: Edge, size: nat, start: int)
    requires size <= |e.items| && CapturedBy(h, start - 1)
    requires forall p: nat :: p < size ==> e.items[p].takenAt.Some?
    ensures Walk(h, e, OnceThrough(size, start)) && Straight(OnceThrough(size, start))
  {
    if size > 0 {
      OnceThroughIsAWalk(h, e, size - 1, start);
      assert OnceThrough(size, start)[..size - 1] == OnceThrough(size - 1, start);
    }
  }
}
