/**
 * What the change-only history is for: reading it back must give every observation ever made.
 * It does exactly when no run sees a post change twice, because UNIQUE (media_id, sync_run_id)
 * silently drops the second change of a run.
 */
module HistoryLaws {
  import opened MetaTypes
  import opened MediaRepository

  ghost predicate Increasing(obs: seq<Sighting>) {
    forall i, j :: 0 <= i < j < |obs| ==> obs[i].now < obs[j].now
  }

  /** The state of the last accepted observation of one post. */
  function LastSeen(obs: seq<Sighting>, id: string): Option<Tracked> {
    if obs == [] then None
    else if Sees(obs[|obs| - 1], id) then Some(StateOf(obs[|obs| - 1]))
    else LastSeen(obs[..|obs| - 1], id)
  }

  /** Observation k is the first of its post, or differs from the one before it. */
  ghost predicate IsChange(obs: seq<Sighting>, k: nat)
    requires k < |obs|
  {
    Accepted(obs[k]) && LastSeen(obs[..k], obs[k].media.id) != Some(StateOf(obs[k]))
  }

  ghost predicate SamePostAndRun(a: Sighting, b: Sighting) {
    a.media.id == b.media.id && a.syncRunId == b.syncRunId
  }

  /** No run sees the same post change twice. */
  ghost predicate OneChangePerRun(obs: seq<Sighting>) {
    forall i, j :: 0 <= i < j < |obs| && IsChange(obs, i) && IsChange(obs, j) ==> !SamePostAndRun(obs[i], obs[j])
  }

  /** Looking the history up at the time of an observation gives that observation back. */
  ghost predicate Recalls(h: seq<HistoryRow>, o: Sighting) {
    Accepted(o) ==> AsOf(h, o.media.id, o.now) == Some(StateOf(o))
  }

  ghost predicate Lossless(h: seq<HistoryRow>, obs: seq<Sighting>) {
    forall k :: 0 <= k < |obs| ==> Recalls(h, obs[k])
  }

  ghost predicate CapturedBy(h: seq<HistoryRow>, t: int) {
    forall i :: 0 <= i < |h| ==> h[i].capturedAt <= t
  }

  lemma ChangedFieldsEmpty(a: Tracked, b: Tracked)
    ensures ChangedFields(Some(a), b) == [] <==> a == b
  {
    if a != b {
      var differ := ChangedFields(Some(a), b);
      if a.likeCount != b.likeCount { assert LikeCount in differ; }
      else if a.commentsCount != b.commentsCount { assert CommentsCount in differ; }
      else if a.rank != b.rank { assert Rank in differ; }
      else if a.caption != b.caption { assert Caption in differ; }
      else if a.permalink != b.permalink { assert Permalink in differ; }
      else { assert Kind in differ; }
    }
  }

  /** An upsert appends at most one row, and does so exactly on an unrecorded change. */
  lemma AppendedIff(h: seq<HistoryRow>, o: Sighting)
    ensures Latest(h, o.media.id) == Some(StateOf(o)) || HasRow(h, o.media.id, o.syncRunId) ==> Appended(h, o) == h
    ensures Latest(h, o.media.id) != Some(StateOf(o)) && !HasRow(h, o.media.id, o.syncRunId) ==>
              exists changed :: Appended(h, o) == h + [RowFor(o, changed)]
  {
    var latest := Latest(h, o.media.id);
    if latest.Some? { ChangedFieldsEmpty(latest.value, StateOf(o)); }
    if latest != Some(StateOf(o)) && !HasRow(h, o.media.id, o.syncRunId) {
      assert Appended(h, o) == h + [RowFor(o, ChangedFields(latest, StateOf(o)))];
    }
  }

  lemma {:induction false} NewestIsRow(h: seq<HistoryRow>, id: string, upTo: Option<int>)
    ensures Newest(h, id, upTo).Some? ==>
              exists i :: 0 <= i < |h| && h[i] == Newest(h, id, upTo).value && h[i].igMediaId == id
  {
    if h != [] {
      var rest := h[..|h| - 1];
      NewestIsRow(rest, id, upTo);
      if Newest(h, id, upTo) == Newest(rest, id, upTo) && Newest(h, id, upTo).Some? {
        var i :| 0 <= i < |rest| && rest[i] == Newest(rest, id, upTo).value && rest[i].igMediaId == id;
        assert h[i] == rest[i];
      } else if Newest(h, id, upTo).Some? {
        assert h[|h| - 1] == Newest(h, id, upTo).value;
      }
    }
  }

  lemma {:induction false} UnboundedIsAsOf(h: seq<HistoryRow>, id: string, t: int)
    requires CapturedBy(h, t)
    ensures Newest(h, id, Some(t)) == Newest(h, id, None)
  {
    if h != [] {
      UnboundedIsAsOf(h[..|h| - 1], id, t);
    }
  }

  lemma NewestOnAppend(h: seq<HistoryRow>, r: HistoryRow, id: string, upTo: Option<int>)
    requires CapturedBy(h, r.capturedAt)
    ensures Newest(h + [r], id, upTo) ==
            if r.igMediaId == id && (upTo.None? || r.capturedAt <= upTo.value) then Some(r) else Newest(h, id, upTo)
  {
    assert (h + [r])[..|h|] == h;
    NewestIsRow(h, id, upTo);
  }

  /** Rows are appended in clock order, so no row is newer than the last observation. */
  lemma {:induction false} FoldCapturedBy(obs: seq<Sighting>, t: int)
    requires Increasing(obs)
    requires obs != [] ==> obs[|obs| - 1].now <= t
    ensures CapturedBy(Fold(EMPTY, obs).history, t)
  {
    if obs != [] {
      var before, o := obs[..|obs| - 1], obs[|obs| - 1];
      assert before != [] ==> before[|before| - 1] == obs[|obs| - 2];
      FoldCapturedBy(before, t);
      AppendedIff(Fold(EMPTY, before).history, o);
    }
  }

  lemma IsChangePrefix(obs: seq<Sighting>, i: nat)
    requires i < |obs| - 1
    ensures IsChange(obs, i) == IsChange(obs[..|obs| - 1], i)
  {
    assert obs[..i] == obs[..|obs| - 1][..i];
  }

  ghost predicate ChangedIn(obs: seq<Sighting>, id: string, run: nat) {
    exists i :: 0 <= i < |obs| && IsChange(obs, i) && obs[i].media.id == id && obs[i].syncRunId == run
  }

  /** While no run repeats a change, the tables track the stream exactly. */
  ghost predicate InStep(h: seq<HistoryRow>, obs: seq<Sighting>) {
    && (forall id :: Latest(h, id) == LastSeen(obs, id))
    && (forall id, run :: HasRow(h, id, run) <==> ChangedIn(obs, id, run))
  }

  lemma ChangedInPrefix(obs: seq<Sighting>, id: string, run: nat)
    requires obs != []
    ensures ChangedIn(obs, id, run) <==>
            ChangedIn(obs[..|obs| - 1], id, run)
            || (IsChange(obs, |obs| - 1) && obs[|obs| - 1].media.id == id && obs[|obs| - 1].syncRunId == run)
  {
    var before := obs[..|obs| - 1];
    if ChangedIn(obs, id, run) {
      var i :| 0 <= i < |obs| && IsChange(obs, i) && obs[i].media.id == id && obs[i].syncRunId == run;
      if i < |before| { IsChangePrefix(obs, i); assert before[i] == obs[i]; }
    }
    if ChangedIn(before, id, run) {
      var i :| 0 <= i < |before| && IsChange(before, i) && before[i].media.id == id && before[i].syncRunId == run;
      IsChangePrefix(obs, i);
      assert obs[i] == before[i];
    }
  }

  lemma OneChangePrefix(obs: seq<Sighting>)
    requires obs != []
    ensures var before, o := obs[..|obs| - 1], obs[|obs| - 1];
            OneChangePerRun(obs) <==>
            OneChangePerRun(before) && !(IsChange(obs, |obs| - 1) && ChangedIn(before, o.media.id, o.syncRunId))
  {
    var before, o, n := obs[..|obs| - 1], obs[|obs| - 1], |obs| - 1;
    forall i | 0 <= i < n ensures IsChange(obs, i) == IsChange(before, i) && obs[i] == before[i] {
      IsChangePrefix(obs, i);
    }
    if OneChangePerRun(before) && !(IsChange(obs, n) && ChangedIn(before, o.media.id, o.syncRunId)) {
      forall i, j | 0 <= i < j < |obs| && IsChange(obs, i) && IsChange(obs, j)
        ensures !SamePostAndRun(obs[i], obs[j])
      {
        assert IsChange(before, i);
        if j < n { assert IsChange(before, j); }
      }
    }
    if OneChangePerRun(obs) {
      forall i, j | 0 <= i < j < |before| && IsChange(before, i) && IsChange(before, j)
        ensures !SamePostAndRun(before[i], before[j])
      {
        assert IsChange(obs, i) && IsChange(obs, j);
      }
    }
    if IsChange(obs, n) && ChangedIn(before, o.media.id, o.syncRunId) {
      var i :| 0 <= i < |before| && IsChange(before, i)
               && before[i].media.id == o.media.id && before[i].syncRunId == o.syncRunId;
      assert IsChange(obs, i) && SamePostAndRun(obs[i], obs[n]);
    }
  }

  /** Appending never disturbs a lookup at an earlier time. */
  lemma EarlierLookupsStand(h: seq<HistoryRow>, o: Sighting, before: seq<Sighting>)
    requires CapturedBy(h, o.now)
    requires forall k :: 0 <= k < |before| ==> before[k].now < o.now
    ensures Lossless(Appended(h, o), before) <==> Lossless(h, before)
  {
    AppendedIff(h, o);
    if Appended(h, o) != h {
      var changed :| Appended(h, o) == h + [RowFor(o, changed)];
      forall k | 0 <= k < |before|
        ensures Recalls(Appended(h, o), before[k]) <==> Recalls(h, before[k])
      {
        NewestOnAppend(h, RowFor(o, changed), before[k].media.id, Some(before[k].now));
      }
    }
  }

  lemma LosslessPrefix(h: seq<HistoryRow>, obs: seq<Sighting>)
    requires obs != []
    ensures Lossless(h, obs) <==> Lossless(h, obs[..|obs| - 1]) && Recalls(h, obs[|obs| - 1])
  {
    var before := obs[..|obs| - 1];
    if Lossless(h, obs) {
      forall k | 0 <= k < |before| ensures Recalls(h, before[k]) { assert before[k] == obs[k]; }
    }
    if Lossless(h, before) && Recalls(h, obs[|obs| - 1]) {
      forall k | 0 <= k < |obs| ensures Recalls(h, obs[k]) { if k < |before| { assert before[k] == obs[k]; } }
    }
  }

  /** One observation recorded on top of tables that are in step with the stream so far. */
  lemma StepInStep(h: seq<HistoryRow>, obs: seq<Sighting>)
    requires obs != [] && InStep(h, obs[..|obs| - 1])
    requires CapturedBy(h, obs[|obs| - 1].now)
    requires Accepted(obs[|obs| - 1])
    ensures var before, o := obs[..|obs| - 1], obs[|obs| - 1];
            var repeated := IsChange(obs, |obs| - 1) && ChangedIn(before, o.media.id, o.syncRunId);
            && (Recalls(Appended(h, o), o) <==> !repeated)
            && (!repeated ==> InStep(Appended(h, o), obs))
  {
    var before, o, n := obs[..|obs| - 1], obs[|obs| - 1], |obs| - 1;
    var id, h' := o.media.id, Appended(h, o);
    AppendedIff(h, o);
    assert IsChange(obs, n) <==> Latest(h, id) != Some(StateOf(o));
    if Appended(h, o) == h {
      UnboundedIsAsOf(h, id, o.now);
    } else {
      var changed :| h' == h + [RowFor(o, changed)];
      forall id' { NewestOnAppend(h, RowFor(o, changed), id', None); }
      NewestOnAppend(h, RowFor(o, changed), id, Some(o.now));
    }
    if !(IsChange(obs, n) && ChangedIn(before, id, o.syncRunId)) {
      forall id', run ensures HasRow(h', id', run) <==> ChangedIn(obs, id', run) {
        ChangedInPrefix(obs, id', run);
        assert HasRow(h, id', run) <==> ChangedIn(before, id', run);
        if h' != h {
          var changed :| h' == h + [RowFor(o, changed)];
          HasRowOnAppend(h, RowFor(o, changed), id', run);
        }
      }
    }
  }

  lemma HasRowOnAppend(h: seq<HistoryRow>, r: HistoryRow, id: string, run: nat)
    ensures HasRow(h + [r], id, run) <==> HasRow(h, id, run) || (r.igMediaId == id && r.syncRunId == run)
  {
    if HasRow(h, id, run) {
      var i :| 0 <= i < |h| && h[i].igMediaId == id && h[i].syncRunId == run;
      assert (h + [r])[i] == h[i];
    }
    assert (h + [r])[|h|] == r;
  }

  lemma {:induction false} HistoryCore(obs: seq<Sighting>)
    requires Increasing(obs)
    ensures Lossless(Fold(EMPTY, obs).history, obs) <==> OneChangePerRun(obs)
    ensures OneChangePerRun(obs) ==> InStep(Fold(EMPTY, obs).history, obs)
  {
    if obs == [] {
    } else {
      var before, o := obs[..|obs| - 1], obs[|obs| - 1];
      var h := Fold(EMPTY, before).history;
      HistoryCore(before);
      FoldCapturedBy(before, o.now);
      OneChangePrefix(obs);
      LosslessPrefix(Fold(EMPTY, obs).history, obs);
      if Accepted(o) {
        EarlierLookupsStand(h, o, before);
        if OneChangePerRun(before) { StepInStep(h, obs); }
      } else {
        forall id, run { ChangedInPrefix(obs, id, run); }
      }
    }
  }

  /**
   * The history gives back every observation, at its own time, exactly when no run saw the
   * same post change twice.
   */
  lemma HistoryLossless(obs: seq<Sighting>)
    requires Increasing(obs)
    ensures Lossless(Fold(EMPTY, obs).history, obs) <==> OneChangePerRun(obs)
  {
    HistoryCore(obs);
  }

  /** A run that meets each post at most once can never lose anything. */
  lemma OncePerRunIsLossless(obs: seq<Sighting>)
    requires Increasing(obs)
    requires forall i, j :: 0 <= i < j < |obs| && Accepted(obs[i]) && Accepted(obs[j]) ==>
        !SamePostAndRun(obs[i], obs[j])
    ensures Lossless(Fold(EMPTY, obs).history, obs)
  {
    HistoryCore(obs);
  }

  /** The states the history holds of one post, in order. */
  function RowStates(h: seq<HistoryRow>, id: string): seq<Tracked> {
    if h == [] then [] else
    RowStates(h[..|h| - 1], id) + if h[|h| - 1].igMediaId == id then [h[|h| - 1].state] else []
  }

  /** The states one post was observed in, each repeat of the previous one dropped. */
  function ObservedStates(obs: seq<Sighting>, id: string): seq<Tracked> {
    if obs == [] then [] else
    var before, o := obs[..|obs| - 1], obs[|obs| - 1];
    ObservedStates(before, id) + if Sees(o, id) && LastSeen(before, id) != Some(StateOf(o)) then [StateOf(o)] else []
  }

  /**
   * Expanding the history of a post rebuilds its distinct successive states, none missing and none
   * extra, when no run saw it change twice.
   */
  lemma {:induction false} HistoryIsTheStates(obs: seq<Sighting>, id: string)
    requires Increasing(obs) && OneChangePerRun(obs)
    ensures RowStates(Fold(EMPTY, obs).history, id) == ObservedStates(obs, id)
  {
    if obs != [] {
      var before, o, n := obs[..|obs| - 1], obs[|obs| - 1], |obs| - 1;
      var h := Fold(EMPTY, before).history;
      OneChangePrefix(obs);
      HistoryIsTheStates(before, id);
      HistoryCore(before);
      if Accepted(o) {
        AppendedIff(h, o);
        assert LastSeen(before, o.media.id) == Latest(h, o.media.id);
        assert HasRow(h, o.media.id, o.syncRunId) <==> ChangedIn(before, o.media.id, o.syncRunId);
        if Appended(h, o) != h {
          var changed :| Appended(h, o) == h + [RowFor(o, changed)];
          assert (h + [RowFor(o, changed)])[..|h|] == h;
        }
      }
    }
  }

  /** One post, one run, two different like counts: the second is gone. */
  lemma SecondChangeOfARunIsDropped(a: Sighting, b: Sighting)
    requires Accepted(a) && Accepted(b) && SamePostAndRun(a, b)
    requires a.now < b.now && StateOf(a) != StateOf(b)
    ensures AsOf(Fold(EMPTY, [a, b]).history, b.media.id, b.now) == Some(StateOf(a))
  {
    assert [a, b][..1] == [a] && [a][..0] == [];
    var h1 := Fold(EMPTY, [a]).history;
    AppendedIff([], a);
    assert Fold(EMPTY, [a]) == Upsert(EMPTY, a);
    assert h1 == [RowFor(a, ChangedFields(None, StateOf(a)))];
    HasRowOnAppend([], h1[0], a.media.id, a.syncRunId);
    assert Fold(EMPTY, [a, b]).history == h1;
    assert h1 == [] + [h1[0]];
    NewestOnAppend([], h1[0], b.media.id, Some(b.now));
  }

  /** Each row names exactly the fields in which it differs from the row before it. */
  ghost predicate Diffed(h: seq<HistoryRow>) {
    forall i :: 0 <= i < |h| ==>
      h[i].changedFields != [] && h[i].changedFields == ChangedFields(Latest(h[..i], h[i].igMediaId), h[i].state)
  }

  predicate DiffersIn(f: Field, a: Tracked, b: Tracked) {
    match f
    case LikeCount => a.likeCount != b.likeCount
    case CommentsCount => a.commentsCount != b.commentsCount
    case Rank => a.rank != b.rank
    case Caption => a.caption != b.caption
    case Permalink => a.permalink != b.permalink
    case Kind => a.mediaType != b.mediaType
  }

  /** Whatever the clocks and runs, consecutive rows of a post differ in exactly `changedFields`. */
  lemma {:induction false} RowsNameTheirChanges(obs: seq<Sighting>)
    ensures var h := Fold(EMPTY, obs).history;
            && Diffed(h)
            && forall i, f :: 0 <= i < |h| ==>
                 (f in h[i].changedFields <==>
                  Latest(h[..i], h[i].igMediaId).None?
                  || DiffersIn(f, Latest(h[..i], h[i].igMediaId).value, h[i].state))
  {
    if obs != [] {
      var before, o := obs[..|obs| - 1], obs[|obs| - 1];
      RowsNameTheirChanges(before);
      var h, h' := Fold(EMPTY, before).history, Fold(EMPTY, obs).history;
      if h' != h {
        forall i | 0 <= i < |h'| ensures h'[..i] == if i < |h| then h[..i] else h {
        }
        forall i, f | 0 <= i < |h'|
          ensures f in h'[i].changedFields <==>
                  Latest(h'[..i], h'[i].igMediaId).None?
                  || DiffersIn(f, Latest(h'[..i], h'[i].igMediaId).value, h'[i].state)
        {
          if i < |h| { assert h'[i] == h[i]; }
          else { MembersAreDiffering(Latest(h, o.media.id), StateOf(o), f); }
        }
      }
    }
  }

  lemma MembersAreDiffering(previous: Option<Tracked>, current: Tracked, f: Field)
    ensures f in ChangedFields(previous, current) <==> previous.None? || DiffersIn(f, previous.value, current)
  {
    if previous.None? {
      assert f in [LikeCount, CommentsCount, Rank, Caption, Permalink, Kind] by {
        match f
        case LikeCount => assert [LikeCount, CommentsCount, Rank, Caption, Permalink, Kind][0] == f;
        case CommentsCount => assert [LikeCount, CommentsCount, Rank, Caption, Permalink, Kind][1] == f;
        case Rank => assert [LikeCount, CommentsCount, Rank, Caption, Permalink, Kind][2] == f;
        case Caption => assert [LikeCount, CommentsCount, Rank, Caption, Permalink, Kind][3] == f;
        case Permalink => assert [LikeCount, CommentsCount, Rank, Caption, Permalink, Kind][4] == f;
        case Kind => assert [LikeCount, CommentsCount, Rank, Caption, Permalink, Kind][5] == f;
      }
    }
  }
}
