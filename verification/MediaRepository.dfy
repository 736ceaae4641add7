/**
 * The curated layer: one row per post, merged by upsert, and an append-only history that
 * holds a row only where an observable value changed.
 */
module MediaRepository {
  import opened MetaTypes

  /** A media_posts row. `id` is the surrogate uuid read as a number, so it has an order. */
  datatype Post = Post(
    id: nat,
    igMediaId: string,
    hashtagId: nat,
    mediaType: MediaType,
    caption: Option<string>,
    permalink: string,
    sourceMediaUrl: Option<string>,
    takenAt: int,
    firstSeenAt: int,
    lastSeenAt: int,
    contentUpdatedAt: Option<int>,
    likeCount: Option<nat>,
    commentsCount: Option<nat>,
    metricsUpdatedAt: int,
    firstSeenVia: Source,
    seenInTop: bool,
    seenInRecent: bool,
    bestTopRank: Option<nat>,
    isStale: bool)

  /** The six fields compared to decide whether a history row is warranted. */
  datatype Tracked = Tracked(
    likeCount: Option<nat>,
    commentsCount: Option<nat>,
    rank: Option<nat>,
    caption: Option<string>,
    permalink: string,
    mediaType: MediaType)

  datatype Field = LikeCount | CommentsCount | Rank | Caption | Permalink | Kind

  datatype HistoryRow = HistoryRow(
    igMediaId: string,
    hashtagId: nat,
    syncRunId: nat,
    state: Tracked,
    source: Source,
    changedFields: seq<Field>,
    capturedAt: int)

  /** One call of the upsert: its arguments, the clock it reads and the uuid the insert would take. */
  datatype Sighting = Sighting(
    media: Media,
    hashtagId: nat,
    syncRunId: nat,
    source: Source,
    rank: nat,
    now: int,
    newId: nat)

  datatype UpsertResult = UpsertResult(
    id: nat,
    isNew: bool,
    contentChanged: bool,
    historyRecorded: bool,
    changedFields: seq<Field>)

  /** The two tables. `posts` is keyed by the unique column ig_media_id. */
  datatype Curated = Curated(posts: map<string, Post>, history: seq<HistoryRow>)

  const EMPTY := Curated(map[], [])

  // ---------------------------------------------------------------- the merge of one row

  /** False when the timestamp does not parse: the upsert throws before it touches a table. */
  predicate Accepted(o: Sighting) {
    o.media.takenAt.Some?
  }

  predicate Sees(o: Sighting, id: string) {
    Accepted(o) && o.media.id == id
  }

  function EffectiveRank(o: Sighting): Option<nat> {
    if o.source == Top then Some(o.rank) else None
  }

  function StateOf(o: Sighting): Tracked {
    Tracked(o.media.likeCount, o.media.commentsCount, EffectiveRank(o),
            o.media.caption, o.media.permalink, o.media.mediaType)
  }

  /** SQL's LEAST, which ignores NULL. */
  function Least(a: Option<nat>, b: nat): Option<nat> {
    if a.Some? && a.value <= b then a else Some(b)
  }

  function InsertedRow(o: Sighting): Post
    requires Accepted(o)
  {
    Post(o.newId, o.media.id, o.hashtagId, o.media.mediaType, o.media.caption, o.media.permalink,
         o.media.mediaUrl, o.media.takenAt.value, o.now, o.now, None,
         o.media.likeCount, o.media.commentsCount, o.now,
         o.source, o.source == Top, o.source == Recent, EffectiveRank(o), false)
  }

  /** The stored caption, permalink or type differs from what is being observed. */
  predicate ContentDiffers(p: Post, m: Media) {
    p.caption != m.caption || p.permalink != m.permalink || p.mediaType != m.mediaType
  }

  function MergedRow(p: Post, o: Sighting): Post {
    p.(caption := o.media.caption,
       sourceMediaUrl := o.media.mediaUrl,
       likeCount := o.media.likeCount,
       commentsCount := o.media.commentsCount,
       metricsUpdatedAt := o.now,
       lastSeenAt := o.now,
       seenInTop := p.seenInTop || o.source == Top,
       seenInRecent := p.seenInRecent || o.source == Recent,
       bestTopRank := if o.source == Top then Least(p.bestTopRank, o.rank) else p.bestTopRank,
       isStale := false,
       contentUpdatedAt := if ContentDiffers(p, o.media) then Some(o.now) else p.contentUpdatedAt)
  }

  function UpsertedRow(posts: map<string, Post>, o: Sighting): Post
    requires Accepted(o)
  {
    if o.media.id in posts then MergedRow(posts[o.media.id], o) else InsertedRow(o)
  }

  // ---------------------------------------------------------------- change-only history

  /** The newest row of one post among those captured no later than `upTo`. */
  function Newest(h: seq<HistoryRow>, id: string, upTo: Option<int>): Option<HistoryRow> {
    if h == [] then None else
    var rest := Newest(h[..|h| - 1], id, upTo);
    var r := h[|h| - 1];
    if r.igMediaId == id && (upTo.None? || r.capturedAt <= upTo.value)
       && (rest.None? || rest.value.capturedAt <= r.capturedAt)
    then Some(r) else rest
  }

  function StateIn(r: Option<HistoryRow>): Option<Tracked> {
    if r.None? then None else Some(r.value.state)
  }

  function Latest(h: seq<HistoryRow>, id: string): Option<Tracked> {
    StateIn(Newest(h, id, None))
  }

  /** What the history says a post looked like at time t. */
  function AsOf(h: seq<HistoryRow>, id: string, t: int): Option<Tracked> {
    StateIn(Newest(h, id, Some(t)))
  }

  /** UNIQUE (media_id, sync_run_id) already holds a row. */
  predicate HasRow(h: seq<HistoryRow>, id: string, run: nat) {
    exists i :: 0 <= i < |h| && h[i].igMediaId == id && h[i].syncRunId == run
  }

  function ChangedFields(previous: Option<Tracked>, current: Tracked): seq<Field> {
    if previous.None? then [LikeCount, CommentsCount, Rank, Caption, Permalink, Kind]
    else
      var p := previous.value;
      (if p.likeCount != current.likeCount then [LikeCount] else []) +
      (if p.commentsCount != current.commentsCount then [CommentsCount] else []) +
      (if p.rank != current.rank then [Rank] else []) +
      (if p.caption != current.caption then [Caption] else []) +
      (if p.permalink != current.permalink then [Permalink] else []) +
      (if p.mediaType != current.mediaType then [Kind] else [])
  }

  function RowFor(o: Sighting, changed: seq<Field>): HistoryRow {
    HistoryRow(o.media.id, o.hashtagId, o.syncRunId, StateOf(o), o.source, changed, o.now)
  }

  function Appended(h: seq<HistoryRow>, o: Sighting): seq<HistoryRow> {
    var changed := ChangedFields(Latest(h, o.media.id), StateOf(o));
    if changed == [] || HasRow(h, o.media.id, o.syncRunId) then h else h + [RowFor(o, changed)]
  }

  /** A row holds the six tracked columns of an observation, the rank of one on Top only. */
  predicate HoldsColumns(r: HistoryRow, o: Sighting) {
    r.state.likeCount == o.media.likeCount && r.state.commentsCount == o.media.commentsCount
    && r.state.caption == o.media.caption && r.state.permalink == o.media.permalink
    && r.state.mediaType == o.media.mediaType
    && (o.source == Top ==> r.state.rank == Some(o.rank)) && (o.source == Recent ==> r.state.rank == None)
  }

  // ---------------------------------------------------------------- the transaction

  function Upsert(c: Curated, o: Sighting): Curated {
    if Accepted(o) then
      Curated(c.posts[o.media.id := UpsertedRow(c.posts, o)], Appended(c.history, o))
    else c
  }

  lemma RejectedChangesNothing(c: Curated, o: Sighting)
    ensures !Accepted(o) ==> Upsert(c, o) == c
  {
  }

  /** What one call reports back: everything is read off timestamps, as the code does. */
  function Report(c: Curated, o: Sighting): UpsertResult
    requires Accepted(o)
  {
    var row := UpsertedRow(c.posts, o);
    var isNew := row.firstSeenAt == o.now;
    UpsertResult(
      row.id,
      isNew,
      !isNew && row.contentUpdatedAt == Some(o.now),
      |Appended(c.history, o)| > |c.history|,
      ChangedFields(Latest(c.history, o.media.id), StateOf(o)))
  }

  function Fold(c: Curated, obs: seq<Sighting>): Curated {
    if obs == [] then c else Upsert(Fold(c, obs[..|obs| - 1]), obs[|obs| - 1])
  }

  lemma FoldPush(c: Curated, obs: seq<Sighting>, o: Sighting)
    ensures Fold(c, obs + [o]) == Upsert(Fold(c, obs), o)
  {
    assert (obs + [o])[..|obs|] == obs;
  }

  /** One row more at the end, of this observation and naming these fields. */
  predicate RowAdded(before: seq<HistoryRow>, after: seq<HistoryRow>, o: Sighting, changed: seq<Field>) {
    |after| == |before| + 1 && after[..|before|] == before
    && var r := after[|before|];
       r.igMediaId == o.media.id && r.hashtagId == o.hashtagId && r.syncRunId == o.syncRunId && r.source == o.source
       && r.capturedAt == o.now && r.changedFields == changed && HoldsColumns(r, o)
  }

  class MediaTable {
    var posts: map<string, Post>
    var history: seq<HistoryRow>

    ghost function Contents(): Curated
      reads this
    {
      Curated(posts, history)
    }

    constructor ()
      ensures Contents() == EMPTY
    {
      posts, history := map[], [];
    }

    /** One transaction. None is the throw on an unparseable timestamp. */
    method UpsertMedia(o: Sighting) returns (r: Option<UpsertResult>)
      modifies this
      ensures Contents() == Upsert(old(Contents()), o)
      ensures r.Some? == Accepted(o)
      ensures r.Some? ==> r.value == Report(old(Contents()), o)
      ensures r.Some? ==> o.media.id in posts && r.value.id == posts[o.media.id].id
      ensures r.Some? ==> !(r.value.isNew && r.value.contentChanged)
      ensures if r.Some? && r.value.historyRecorded then RowAdded(old(history), history, o, r.value.changedFields)
              else history == old(history)
    {
      if o.media.takenAt.None? {
        return None;
      }
      var id := o.media.id;
      var row;
      if id in posts {
        row := posts[id];
        if ContentDiffers(row, o.media) {
          row := row.(contentUpdatedAt := Some(o.now));
        }
        row := row.(caption := o.media.caption, sourceMediaUrl := o.media.mediaUrl,
                    likeCount := o.media.likeCount, commentsCount := o.media.commentsCount,
                    metricsUpdatedAt := o.now, lastSeenAt := o.now, isStale := false);
        if o.source == Top {
          row := row.(seenInTop := true, bestTopRank := Least(row.bestTopRank, o.rank));
        } else {
          row := row.(seenInRecent := true);
        }
      } else {
        row := InsertedRow(o);
      }
      posts := posts[id := row];

      var isNew := row.firstSeenAt == o.now;
      var contentChanged := !isNew && row.contentUpdatedAt == Some(o.now);

      var changed := ChangedFields(Latest(history, id), StateOf(o));
      var recorded := changed != [] && !HasRow(history, id, o.syncRunId);
      if recorded {
        history := history + [RowFor(o, changed)];
      }
      r := Some(UpsertResult(row.id, isNew, contentChanged, recorded, changed));
    }

    /** Soft-flags the posts of one hashtag not seen since the threshold, and counts them. */
    method MarkStaleBefore(hashtagId: nat, threshold: int) returns (flagged: nat)
      modifies this`posts
      ensures Contents() == MarkStale(old(Contents()), hashtagId, threshold)
      ensures flagged == |set id | id in old(posts) && GoesStale(old(posts)[id], hashtagId, threshold)|
    {
      var hit := set id | id in posts && GoesStale(posts[id], hashtagId, threshold);
      posts := map id | id in posts :: if id in hit then posts[id].(isStale := true) else posts[id];
      flagged := |hit|;
    }
  }

  predicate GoesStale(p: Post, hashtagId: nat, threshold: int) {
    p.hashtagId == hashtagId && p.lastSeenAt < threshold && !p.isStale
  }

  function MarkStale(c: Curated, hashtagId: nat, threshold: int): Curated {
    c.(posts := map id | id in c.posts ::
         if GoesStale(c.posts[id], hashtagId, threshold) then c.posts[id].(isStale := true) else c.posts[id])
  }

  function Later(t: int, t': int): int {
    if t <= t' then t' else t
  }

  /**
   * Sweeps compose: two of one hashtag are one at the later threshold, so repeating a sweep flags
   * nothing. Sweeps of different hashtags commute, and none touches the history.
   */
  lemma {:induction false} SweepsCompose(c: Curated, h: nat, t: int, h': nat, t': int)
    ensures h == h' ==> MarkStale(MarkStale(c, h, t), h', t') == MarkStale(c, h, Later(t, t'))
    ensures h != h' ==> MarkStale(MarkStale(c, h, t), h', t') == MarkStale(MarkStale(c, h', t'), h, t)
    ensures forall id :: id in c.posts ==> !GoesStale(MarkStale(c, h, t).posts[id], h, t)
  {
    var once, twice := MarkStale(c, h, t), MarkStale(MarkStale(c, h, t), h', t');
    assert once.posts.Keys == c.posts.Keys == twice.posts.Keys;
    if h == h' {
      assert twice.posts == MarkStale(c, h, Later(t, t')).posts;
    } else {
      assert twice.posts == MarkStale(MarkStale(c, h', t'), h, t).posts;
    }
  }

  /** A post that is seen again is not stale, and only a later sweep past that sighting can flag it. */
  lemma {:induction false} SeenAgainIsFresh(c: Curated, o: Sighting, h: nat, t: int)
    requires Accepted(o)
    ensures !Upsert(c, o).posts[o.media.id].isStale
    ensures MarkStale(Upsert(c, o), h, t).posts[o.media.id].isStale
            <==> Upsert(c, o).posts[o.media.id].hashtagId == h && o.now < t
  {
    hide Appended, ContentDiffers;
  }
}
