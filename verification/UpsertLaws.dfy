/**
 * Closed form of the curated row: which observation each column comes from after any stream of
 * upserts, and when the flags an upsert reports can be believed.
 */
module UpsertLaws {
  import opened MetaTypes
  import opened MediaRepository
  import opened HistoryLaws

  /** f is the first, l the last accepted observation of the post. */
  ghost predicate FirstAndLast(obs: seq<Sighting>, id: string, f: nat, l: nat) {
    && f <= l < |obs| && Sees(obs[f], id) && Sees(obs[l], id)
    && (forall j :: 0 <= j < f ==> !Sees(obs[j], id))
    && (forall j :: l < j < |obs| ==> !Sees(obs[j], id))
  }

  /** The post was observed on this edge at this rank. */
  ghost predicate SightedAt(obs: seq<Sighting>, id: string, source: Source, rank: nat) {
    exists k :: 0 <= k < |obs| && Sees(obs[k], id) && obs[k].source == source && obs[k].rank == rank
  }

  ghost predicate SeenOn(obs: seq<Sighting>, id: string, source: Source) {
    exists r :: SightedAt(obs, id, source, r)
  }

  ghost predicate Observed(obs: seq<Sighting>, id: string) {
    exists k :: 0 <= k < |obs| && Sees(obs[k], id)
  }

  lemma SightedAtPrefix(obs: seq<Sighting>, id: string, source: Source, rank: nat)
    requires obs != []
    ensures var o := obs[|obs| - 1];
            SightedAt(obs, id, source, rank) <==>
            SightedAt(obs[..|obs| - 1], id, source, rank) || (Sees(o, id) && o.source == source && o.rank == rank)
  {
    var before := obs[..|obs| - 1];
    if SightedAt(before, id, source, rank) {
      var k :| 0 <= k < |before| && Sees(before[k], id) && before[k].source == source && before[k].rank == rank;
      assert obs[k] == before[k];
    }
    if SightedAt(obs, id, source, rank) {
      var k :| 0 <= k < |obs| && Sees(obs[k], id) && obs[k].source == source && obs[k].rank == rank;
      if k < |before| { assert before[k] == obs[k]; }
    }
  }

  lemma SeenOnPrefix(obs: seq<Sighting>, id: string, source: Source)
    requires obs != []
    ensures var o := obs[|obs| - 1];
            SeenOn(obs, id, source) <==> SeenOn(obs[..|obs| - 1], id, source) || (Sees(o, id) && o.source == source)
  {
    forall r { SightedAtPrefix(obs, id, source, r); }
    if SeenOn(obs[..|obs| - 1], id, source) {
      var r :| SightedAt(obs[..|obs| - 1], id, source, r);
      assert SightedAt(obs, id, source, r);
    }
    var o := obs[|obs| - 1];
    if Sees(o, id) && o.source == source { assert SightedAt(obs, id, source, o.rank); }
  }

  lemma SightedIsObserved(obs: seq<Sighting>, id: string, source: Source, rank: nat)
    ensures SightedAt(obs, id, source, rank) ==> Observed(obs, id)
  {
  }

  /** One row per post that was ever accepted, and no other. */
  lemma {:induction false} OneRowPerPost(obs: seq<Sighting>, id: string)
    ensures id in Fold(EMPTY, obs).posts <==> Observed(obs, id)
    ensures id in Fold(EMPTY, obs).posts ==> Fold(EMPTY, obs).posts[id].igMediaId == id
  {
    if obs != [] {
      var before := obs[..|obs| - 1];
      OneRowPerPost(before, id);
      if Observed(before, id) {
        var k :| 0 <= k < |before| && Sees(before[k], id);
        assert Sees(obs[k], id);
      }
      if Observed(obs, id) && !Sees(obs[|obs| - 1], id) {
        var k :| 0 <= k < |obs| && Sees(obs[k], id);
        assert Sees(before[k], id);
      }
    }
  }

  ghost predicate FrozenFrom(p: Post, o: Sighting) {
    && Accepted(o) && p.id == o.newId && p.igMediaId == o.media.id && p.hashtagId == o.hashtagId
    && p.mediaType == o.media.mediaType && p.permalink == o.media.permalink
    && p.takenAt == o.media.takenAt.value && p.firstSeenAt == o.now && p.firstSeenVia == o.source
  }

  ghost predicate WrittenBy(p: Post, o: Sighting) {
    && p.caption == o.media.caption && p.sourceMediaUrl == o.media.mediaUrl
    && p.likeCount == o.media.likeCount && p.commentsCount == o.media.commentsCount
    && p.metricsUpdatedAt == o.now && p.lastSeenAt == o.now && !p.isStale
  }

  ghost predicate StickyFrom(p: Post, obs: seq<Sighting>) {
    && (p.seenInTop <==> SeenOn(obs, p.igMediaId, Top))
    && (p.seenInRecent <==> SeenOn(obs, p.igMediaId, Recent))
    && (p.bestTopRank.Some? ==> SightedAt(obs, p.igMediaId, Top, p.bestTopRank.value))
    && (forall r :: SightedAt(obs, p.igMediaId, Top, r) ==> p.bestTopRank.Some? && p.bestTopRank.value <= r)
  }

  lemma {:induction false} FrozenColumns(obs: seq<Sighting>, id: string, f: nat)
    requires f < |obs| && Sees(obs[f], id) && forall j :: 0 <= j < f ==> !Sees(obs[j], id)
    ensures id in Fold(EMPTY, obs).posts && FrozenFrom(Fold(EMPTY, obs).posts[id], obs[f])
  {
    var before := obs[..|obs| - 1];
    if f < |before| { FrozenColumns(before, id, f); } else { OneRowPerPost(before, id); }
  }

  lemma {:induction false} LastWriterColumns(obs: seq<Sighting>, id: string, l: nat)
    requires l < |obs| && Sees(obs[l], id) && forall j :: l < j < |obs| ==> !Sees(obs[j], id)
    ensures id in Fold(EMPTY, obs).posts && WrittenBy(Fold(EMPTY, obs).posts[id], obs[l])
  {
    if l < |obs| - 1 { LastWriterColumns(obs[..|obs| - 1], id, l); }
  }

  lemma {:induction false} StickyColumns(obs: seq<Sighting>, id: string)
    requires id in Fold(EMPTY, obs).posts
    ensures StickyFrom(Fold(EMPTY, obs).posts[id], obs)
  {
    var before, o := obs[..|obs| - 1], obs[|obs| - 1];
    OneRowPerPost(obs, id);
    forall s, r { SightedAtPrefix(obs, id, s, r); }
    SeenOnPrefix(obs, id, Top);
    SeenOnPrefix(obs, id, Recent);
    if id in Fold(EMPTY, before).posts {
      StickyColumns(before, id);
      OneRowPerPost(before, id);
    } else {
      OneRowPerPost(before, id);
      forall s, r { SightedIsObserved(before, id, s, r); }
      assert SightedAt(obs, id, o.source, o.rank);
    }
  }

  /**
   * After any stream: identity, permalink, type and publication time are the first observation's,
   * caption, counters and URL the last one's, the flags and best rank those of all of them.
   */
  lemma UpsertClosedForm(obs: seq<Sighting>, id: string, f: nat, l: nat)
    requires FirstAndLast(obs, id, f, l)
    ensures id in Fold(EMPTY, obs).posts
    ensures var p := Fold(EMPTY, obs).posts[id];
            FrozenFrom(p, obs[f]) && WrittenBy(p, obs[l]) && StickyFrom(p, obs)
  {
    FrozenColumns(obs, id, f);
    LastWriterColumns(obs, id, l);
    StickyColumns(obs, id);
  }

  /** Reordering or repeating observations cannot move the sticky columns. */
  lemma StickyIgnoresOrderAndRepeats(obs: seq<Sighting>, obs': seq<Sighting>, id: string)
    requires forall s, r :: SightedAt(obs, id, s, r) <==> SightedAt(obs', id, s, r)
    requires id in Fold(EMPTY, obs).posts
    ensures id in Fold(EMPTY, obs').posts
    ensures var p, p' := Fold(EMPTY, obs).posts[id], Fold(EMPTY, obs').posts[id];
            p.seenInTop == p'.seenInTop && p.seenInRecent == p'.seenInRecent && p.bestTopRank == p'.bestTopRank
  {
    OneRowPerPost(obs, id);
    var k :| 0 <= k < |obs| && Sees(obs[k], id);
    assert SightedAt(obs, id, obs[k].source, obs[k].rank);
    var j :| 0 <= j < |obs'| && Sees(obs'[j], id) && obs'[j].source == obs[k].source && obs'[j].rank == obs[k].rank;
    assert Observed(obs', id);
    OneRowPerPost(obs', id);
    StickyColumns(obs, id);
    StickyColumns(obs', id);
    var p, p' := Fold(EMPTY, obs).posts[id], Fold(EMPTY, obs').posts[id];
    if p.bestTopRank.Some? { assert SightedAt(obs', id, Top, p.bestTopRank.value); }
    if p'.bestTopRank.Some? { assert SightedAt(obs, id, Top, p'.bestTopRank.value); }
  }

  // ---------------------------------------------------------------- flags read off timestamps

  lemma {:induction false} TimestampsBounded(obs: seq<Sighting>, id: string, t: int)
    requires Increasing(obs)
    requires obs != [] ==> obs[|obs| - 1].now <= t
    requires id in Fold(EMPTY, obs).posts
    ensures var p := Fold(EMPTY, obs).posts[id];
            p.firstSeenAt <= t && (p.contentUpdatedAt.Some? ==> p.contentUpdatedAt.value <= t)
  {
    var before := obs[..|obs| - 1];
    assert before != [] ==> before[|before| - 1] == obs[|obs| - 2];
    if id in Fold(EMPTY, before).posts { TimestampsBounded(before, id, t); }
  }

  /** `isNew` is true of the first observation of a post and of no later one. */
  lemma IsNewExactlyOnce(obs: seq<Sighting>, k: nat)
    requires Increasing(obs) && k < |obs| && Accepted(obs[k])
    ensures Report(Fold(EMPTY, obs[..k]), obs[k]).isNew <==> forall j :: 0 <= j < k ==> !Sees(obs[j], obs[k].media.id)
  {
    var before, id := obs[..k], obs[k].media.id;
    OneRowPerPost(before, id);
    if id in Fold(EMPTY, before).posts {
      TimestampsBounded(before, id, before[|before| - 1].now);
      var j :| 0 <= j < |before| && Sees(before[j], id);
      assert Sees(obs[j], id);
    } else {
      forall j | 0 <= j < k ensures !Sees(obs[j], id) { assert obs[j] == before[j]; }
    }
  }

  /**
   * It rests on the clock: in any stream, ordered or not, an observation that repeats the instant of
   * the post's first one reports it new again, and no other later one does.
   */
  lemma {:induction false} IsNewIsSameInstant(obs: seq<Sighting>, f: nat, k: nat)
    requires f < k < |obs| && Sees(obs[f], obs[k].media.id) && Accepted(obs[k])
    requires forall j :: 0 <= j < f ==> !Sees(obs[j], obs[k].media.id)
    ensures Report(Fold(EMPTY, obs[..k]), obs[k]).isNew <==> obs[f].now == obs[k].now
  {
    FrozenColumns(obs[..k], obs[k].media.id, f);
  }

  /** The durable content really moved between two consecutive observations. */
  predicate ContentMoved(a: Media, b: Media) {
    a.caption != b.caption || a.permalink != b.permalink || a.mediaType != b.mediaType
  }

  /**
   * `contentChanged` compares permalink and type with the stored row, which keeps the first
   * observed ones. So it answers "did it change since last time" for every next observation
   * exactly while the last observation still had the permalink and type of the first.
   */
  lemma ContentChangedExactness(obs: seq<Sighting>, id: string, f: nat, l: nat)
    requires Increasing(obs) && FirstAndLast(obs, id, f, l)
    ensures (forall o :: Sees(o, id) && o.now > obs[|obs| - 1].now ==>
               (Report(Fold(EMPTY, obs), o).contentChanged <==> ContentMoved(obs[l].media, o.media)))
            <==> obs[f].media.permalink == obs[l].media.permalink && obs[f].media.mediaType == obs[l].media.mediaType
  {
    UpsertClosedForm(obs, id, f, l);
    var c, t := Fold(EMPTY, obs), obs[|obs| - 1].now;
    TimestampsBounded(obs, id, t);
    forall o | Sees(o, id) && o.now > t
      ensures Report(c, o).contentChanged <==> ContentDiffers(c.posts[id], o.media)
    {
    }
    var again := obs[l].(now := t + 1);
    assert Sees(again, id) && !ContentMoved(obs[l].media, again.media);
  }
}
