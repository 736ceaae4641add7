/**
 * The history laws column by column: what a row holds, where it comes from, and when looking the
 * history up gives an observation back.
 */
module HistoryColumns {
  import opened MetaTypes
  import opened MediaRepository
  import opened HistoryLaws

  /** Two observations agree in the six tracked columns. A rank is observed on Top only. */
  predicate SameColumns(a: Sighting, b: Sighting) {
    a.media.likeCount == b.media.likeCount && a.media.commentsCount == b.media.commentsCount
    && a.media.caption == b.media.caption && a.media.permalink == b.media.permalink
    && a.media.mediaType == b.media.mediaType
    && (a.source == Top <==> b.source == Top) && (a.source == Top ==> a.rank == b.rank)
  }

  /** Observation j is the last accepted one of its post before k. */
  ghost predicate JustBefore(obs: seq<Sighting>, j: nat, k: nat)
    requires k <= |obs|
  {
    j < k && obs[j].media.takenAt.Some?
    && forall m :: j < m < k && obs[m].media.takenAt.Some? ==> obs[m].media.id != obs[j].media.id
  }

  /** Observation k differs from the one before it of its post, or there is none. */
  ghost predicate Changed(obs: seq<Sighting>, k: nat)
    requires k < |obs|
  {
    obs[k].media.takenAt.Some?
    && forall j: nat :: JustBefore(obs, j, k) && obs[j].media.id == obs[k].media.id ==> !SameColumns(obs[j], obs[k])
  }

  /** Row i is the newest of the post among those captured by time t. */
  ghost predicate NewestBy(h: seq<HistoryRow>, id: string, t: int, i: nat) {
    i < |h| && h[i].igMediaId == id && h[i].capturedAt <= t
    && forall j :: 0 <= j < |h| && j != i && h[j].igMediaId == id && h[j].capturedAt <= t ==>
         h[j].capturedAt < h[i].capturedAt || (h[j].capturedAt == h[i].capturedAt && j < i)
  }

  /** The newest row at the time of the observation holds its six columns. */
  ghost predicate ReadsBack(h: seq<HistoryRow>, o: Sighting) {
    exists i: nat :: NewestBy(h, o.media.id, o.now, i) && HoldsColumns(h[i], o)
  }

  lemma {:induction false} StatesAreColumns(a: Sighting, b: Sighting)
    ensures StateOf(a) == StateOf(b) <==> SameColumns(a, b)
  {
  }

  lemma {:induction false} LastSeenIsJustBefore(obs: seq<Sighting>, k: nat, id: string) returns (j: nat)
    requires k <= |obs|
    ensures if LastSeen(obs[..k], id).None? then forall m :: 0 <= m < k ==> !Sees(obs[m], id)
            else JustBefore(obs, j, k) && obs[j].media.id == id && LastSeen(obs[..k], id).value == StateOf(obs[j])
  {
    j := 0;
    if k > 0 {
      assert obs[..k][..k - 1] == obs[..k - 1];
      if Sees(obs[k - 1], id) { j := k - 1; } else { j := LastSeenIsJustBefore(obs, k - 1, id); }
    }
  }

  lemma {:induction false} ChangesAreChanges(obs: seq<Sighting>, k: nat)
    requires k < |obs|
    ensures IsChange(obs, k) <==> Changed(obs, k)
  {
    hide StateOf, SameColumns;
    var id := obs[k].media.id;
    var j := LastSeenIsJustBefore(obs, k, id);
    if LastSeen(obs[..k], id).Some? {
      StatesAreColumns(obs[j], obs[k]);
      forall i: nat | JustBefore(obs, i, k) && obs[i].media.id == id ensures i == j {}
    }
  }

  lemma {:induction false} NewestIsNewestBy(h: seq<HistoryRow>, id: string, t: int) returns (i: nat)
    ensures if Newest(h, id, Some(t)).None?
            then forall j :: 0 <= j < |h| ==> h[j].igMediaId != id || h[j].capturedAt > t
            else NewestBy(h, id, t, i) && Newest(h, id, Some(t)).value == h[i]
  {
    i := 0;
    if h != [] {
      var n := |h| - 1;
      i := NewestIsNewestBy(h[..n], id, t);
      if Newest(h, id, Some(t)) != Newest(h[..n], id, Some(t)) { i := n; }
      else if Newest(h[..n], id, Some(t)).Some? && IsNewer(h, n, i, id, t) { i := n; }
    }
  }

  /** The last row takes over from row i. */
  predicate IsNewer(h: seq<HistoryRow>, n: nat, i: nat, id: string, t: int)
    requires n < |h| && i < |h|
  {
    h[n].igMediaId == id && h[n].capturedAt <= t && h[i].capturedAt <= h[n].capturedAt
  }

  lemma {:induction false} ReadingBackIsRecalling(h: seq<HistoryRow>, o: Sighting)
    requires o.media.takenAt.Some?
    ensures ReadsBack(h, o) <==> Recalls(h, o)
  {
    hide Newest;
    var i := NewestIsNewestBy(h, o.media.id, o.now);
    forall j: nat | NewestBy(h, o.media.id, o.now, j)
      ensures Newest(h, o.media.id, Some(o.now)).Some? && j == i
    {
    }
  }

  /**
   * The change-only history, read back in columns: at the time of every observation the newest row of
   * the post holds that observation's likes, comments, caption, permalink, type and rank, if and only
   * if no run sees the same post change twice.
   */
  lemma {:induction false} LosslessInColumns(obs: seq<Sighting>)
    requires Increasing(obs)
    ensures (forall k :: 0 <= k < |obs| && obs[k].media.takenAt.Some? ==> ReadsBack(Fold(EMPTY, obs).history, obs[k]))
            <==>
            (forall i, j :: 0 <= i < j < |obs| && Changed(obs, i) && Changed(obs, j) ==>
               obs[i].media.id != obs[j].media.id || obs[i].syncRunId != obs[j].syncRunId)
  {
    hide Recalls, ReadsBack, IsChange, Changed, Fold;
    var h := Fold(EMPTY, obs).history;
    HistoryLossless(obs);
    forall k | 0 <= k < |obs| ensures IsChange(obs, k) == Changed(obs, k) { ChangesAreChanges(obs, k); }
    forall k | 0 <= k < |obs| && obs[k].media.takenAt.Some? ensures ReadsBack(h, obs[k]) == Recalls(h, obs[k]) {
      ReadingBackIsRecalling(h, obs[k]);
    }
    forall k | 0 <= k < |obs| && obs[k].media.takenAt.None? ensures Recalls(h, obs[k]) {
      RejectedIsRecalled(h, obs[k]);
    }
  }

  lemma {:induction false} RejectedIsRecalled(h: seq<HistoryRow>, o: Sighting)
    requires o.media.takenAt.None?
    ensures Recalls(h, o)
  {
  }

  /** The row was captured from this observation: post, hashtag, run, edge, instant and columns. */
  ghost predicate CapturedFrom(r: HistoryRow, o: Sighting) {
    o.media.takenAt.Some? && r.igMediaId == o.media.id && r.hashtagId == o.hashtagId && r.syncRunId == o.syncRunId
    && r.source == o.source && r.capturedAt == o.now && HoldsColumns(r, o)
  }

  /** Whatever the stream, a row of the history is one observation, as it was made. */
  lemma {:induction false} RowsAreObservations(obs: seq<Sighting>, i: nat)
    requires i < |Fold(EMPTY, obs).history|
    ensures exists k :: 0 <= k < |obs| && CapturedFrom(Fold(EMPTY, obs).history[i], obs[k])
  {
    hide Upsert, CapturedFrom;
    var n := |obs| - 1;
    var h, o := Fold(EMPTY, obs[..n]).history, obs[n];
    UpsertAppendsTheRow(Fold(EMPTY, obs[..n]), o);
    if i < |h| {
      RowsAreObservations(obs[..n], i);
      var k :| 0 <= k < n && CapturedFrom(h[i], obs[..n][k]);
      assert CapturedFrom(Fold(EMPTY, obs).history[i], obs[k]);
    } else {
      assert CapturedFrom(Fold(EMPTY, obs).history[i], obs[n]);
    }
  }

  lemma {:induction false} UpsertAppendsTheRow(c: Curated, o: Sighting)
    ensures var h, h' := c.history, Upsert(c, o).history;
            h' == h || (|h'| == |h| + 1 && h'[..|h|] == h && CapturedFrom(h'[|h|], o))
  {
    hide ChangedFields, Latest, HasRow, UpsertedRow;
  }

  /** Where a field stands in the comparison, and so in the list of a row. */
  function Place(f: Field): nat {
    match f
    case LikeCount => 0
    case CommentsCount => 1
    case Rank => 2
    case Caption => 3
    case Permalink => 4
    case Kind => 5
  }

  predicate InOrder(fields: seq<Field>) {
    forall a, b :: 0 <= a < b < |fields| ==> Place(fields[a]) < Place(fields[b])
  }

  /** A row names each changed field once, in the order the fields are compared in. */
  lemma {:induction false} FieldsAreInOrder(obs: seq<Sighting>, i: nat)
    requires i < |Fold(EMPTY, obs).history|
    ensures InOrder(Fold(EMPTY, obs).history[i].changedFields)
  {
    hide Newest, InOrder;
    var n := |obs| - 1;
    var h, o := Fold(EMPTY, obs[..n]).history, obs[n];
    ComparedInOrder(Latest(h, o.media.id), StateOf(o));
    if i < |h| { FieldsAreInOrder(obs[..n], i); }
  }

  lemma {:induction false} ComparedInOrder(previous: Option<Tracked>, current: Tracked)
    ensures InOrder(ChangedFields(previous, current))
  {
    hide InOrder;
    OneInOrder();
    if previous.Some? {
      var p := previous.value;
      var first := if p.likeCount != current.likeCount then [LikeCount] else [];
      var second := OneMoreInOrder(first, p.commentsCount != current.commentsCount, CommentsCount);
      var third := OneMoreInOrder(second, p.rank != current.rank, Rank);
      var fourth := OneMoreInOrder(third, p.caption != current.caption, Caption);
      var fifth := OneMoreInOrder(fourth, p.permalink != current.permalink, Permalink);
      var sixth := OneMoreInOrder(fifth, p.mediaType != current.mediaType, Kind);
    }
  }

  lemma OneInOrder()
    ensures InOrder([]) && InOrder([LikeCount])
    ensures InOrder([LikeCount, CommentsCount, Rank, Caption, Permalink, Kind])
  {
  }

  lemma OneMoreInOrder(fields: seq<Field>, differs: bool, f: Field) returns (more: seq<Field>)
    requires InOrder(fields) && forall g :: g in fields ==> Place(g) < Place(f)
    ensures more == fields + (if differs then [f] else [])
    ensures InOrder(more) && forall g :: g in more ==> Place(g) < Place(f) + 1
  {
    more := fields + if differs then [f] else [];
  }
}
