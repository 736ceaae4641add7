/**
 * What a sync does for the files: which posts of the edge end with a pending asset row and a queued
 * download job, over every schedule of crashes, resumes and throws.
 */
module SyncDownloads {
  import opened MetaTypes
  import opened SyncProtocol
  import opened SyncProofs
  import opened HashtagSync

  /** Position q is where the post first occurs on the edge. */
  ghost predicate FirstAt(u: Setup, id: string, q: nat) {
    q < |u.edge.items| && u.edge.items[q].id == id && forall r: nat :: r < q ==> u.edge.items[r].id != id
  }

  /** No download worker touched the post's row. */
  predicate Untouched(acts: seq<Action>, id: string) {
    forall k :: 0 <= k < |acts| && acts[k].WorkerMoves? ==> acts[k].id != id
  }

  /** The row was made by the post's first occurrence: pending if that came with a URL, else skipped. */
  ghost predicate RowFitsFirst(u: Setup, db: Db, id: string, q: nat)
    requires q < |u.edge.items|
  {
    id in db.assets ==>
      db.assets[id].status
      == if u.edge.items[q].mediaUrl.Some? && u.edge.items[q].mediaUrl.value != "" then Pending else Skipped
  }

  ghost predicate OfferedTo(u: Setup, db: Db, n: nat) {
    n <= |u.edge.items| && forall p: nat :: p < n ==> u.edge.items[p].id in db.assets
  }

  ghost predicate RowsInv(u: Setup, s: State, id: string, q: nat) {
    FirstAt(u, id, q) && RowFitsFirst(u, s.db, id, q)
    && ((Inv(u, s) && OfferedTo(u, s.db, Settled(s))) || OfferedTo(u, s.db, |u.edge.items|))
  }

  /** Rows are only ever added, by the attach step, for the item in hand. */
  lemma {:induction false} RowsGrow(u: Setup, s: State, a: Action, p: nat)
    requires p < |u.edge.items| && u.edge.items[p].id in s.db.assets && Apply(u, s, a).Some?
    ensures u.edge.items[p].id in Apply(u, s, a).value.db.assets
  {
    hide RawRows;
  }

  lemma {:induction false} FitStays(u: Setup, s: State, a: Action, id: string, q: nat)
    requires q < |u.edge.items| && RowFitsFirst(u, s.db, id, q) && Apply(u, s, a).Some?
    requires id in s.db.assets && (a.WorkerMoves? ==> a.id != id)
    ensures RowFitsFirst(u, Apply(u, s, a).value.db, id, q)
  {
    hide RawRows;
  }

  /** While the row is missing, only the first occurrence can be the item in hand. */
  lemma {:induction false} FirstRowFits(u: Setup, s: State, a: Action, id: string, q: nat)
    requires RowsInv(u, s, id, q) && Apply(u, s, a).Some? && id !in s.db.assets
    requires RunInv(u, s)
    ensures RowFitsFirst(u, Apply(u, s, a).value.db, id, q)
  {
    hide RawRows, WalkInv, RawInv, JobInv;
    if a.EnsureAsset? {
      var item := s.proc.page.items[s.proc.index];
      assert item == u.edge.items[s.proc.seen + s.proc.index];
    }
  }

  lemma {:induction false} SettledIsOffered(u: Setup, s: State, a: Action)
    requires RunInv(u, s) && JobInv(u, s) && OfferedTo(u, s.db, Settled(s)) && Apply(u, s, a).Some?
    requires Settled(Apply(u, s, a).value) <= |u.edge.items|
    ensures OfferedTo(u, Apply(u, s, a).value.db, Settled(Apply(u, s, a).value))
  {
    hide RawRows;
    var s' := Apply(u, s, a).value;
    SettledAdvances(u, s, a);
    forall p: nat | p < Settled(s') ensures u.edge.items[p].id in s'.db.assets {
      if p < Settled(s) { RowsGrow(u, s, a, p); }
    }
  }

  /** A step settles at most the item in hand, and then its row is there. */
  lemma {:induction false} SettledAdvances(u: Setup, s: State, a: Action)
    requires RunInv(u, s) && JobInv(u, s) && Apply(u, s, a).Some?
    ensures var s' := Apply(u, s, a).value;
            Settled(s') <= Settled(s) + 1
            && (Settled(s') == Settled(s) + 1 ==>
                  Settled(s) < |u.edge.items| && u.edge.items[Settled(s)].id in s'.db.assets)
  {
    hide RawRows;
  }

  /** A pickup in the window comes after every item was offered. */
  lemma {:induction false} WindowIsOffered(u: Setup, s: State)
    requires RunInv(u, s) && s.proc.Down? && Overcounts(u, s.db.run) && OfferedTo(u, s.db, Settled(s))
    ensures OfferedTo(u, s.db, |u.edge.items|)
  {
  }

  lemma {:induction false} AllStayOffered(u: Setup, s: State, a: Action)
    requires OfferedTo(u, s.db, |u.edge.items|) && Apply(u, s, a).Some?
    ensures OfferedTo(u, Apply(u, s, a).value.db, |u.edge.items|)
  {
    hide Apply;
    forall p: nat | p < |u.edge.items| ensures u.edge.items[p].id in Apply(u, s, a).value.db.assets {
      RowsGrow(u, s, a, p);
    }
  }

  lemma {:induction false} OfferedStep(u: Setup, s: State, a: Action)
    requires ValidSetup(u) && Inv(u, s) && OfferedTo(u, s.db, Settled(s)) && Apply(u, s, a).Some?
    ensures var s' := Apply(u, s, a).value;
            (Inv(u, s') && OfferedTo(u, s'.db, Settled(s'))) || OfferedTo(u, s'.db, |u.edge.items|)
  {
    hide Apply, RunInv, WalkInv, RawInv, OfferedTo, Overcounts, Settled;
    if Careful(u, s, a) {
      Step(u, s, a);
      SettledIsOffered(u, s, a);
    } else {
      PickupFindsItDown(u, s);
      WindowIsOffered(u, s);
      AllStayOffered(u, s, a);
    }
  }

  lemma {:induction false} RowsStep(u: Setup, s: State, a: Action, id: string, q: nat)
    requires ValidSetup(u) && RowsInv(u, s, id, q) && Apply(u, s, a).Some? && (a.WorkerMoves? ==> a.id != id)
    ensures RowsInv(u, Apply(u, s, a).value, id, q)
  {
    hide Apply, RunInv, WalkInv, RawInv, JobInv, Settled, RowFitsFirst;
    if id in s.db.assets { FitStays(u, s, a, id, q); } else { FirstRowFits(u, s, a, id, q); }
    if OfferedTo(u, s.db, |u.edge.items|) { AllStayOffered(u, s, a); } else { OfferedStep(u, s, a); }
  }

  lemma {:induction false} RowsHold(u: Setup, acts: seq<Action>, id: string, q: nat)
    requires ValidSetup(u) && After(u, acts).Some? && id !in u.assets && FirstAt(u, id, q) && Untouched(acts, id)
    ensures RowsInv(u, After(u, acts).value, id, q)
  {
    if acts == [] {
      hide WalkInv, RawInv, RunInv, JobInv;
      EverySafeScheduleKeepsInv(u, acts);
    } else {
      hide RowsInv, Apply, FirstAt;
      var n := |acts| - 1;
      assert forall k :: 0 <= k < n ==> acts[..n][k] == acts[k];
      RowsHold(u, acts[..n], id, q);
      RowsStep(u, After(u, acts[..n]).value, acts[n], id, q);
    }
  }

  /** Pending with its job enqueued if the item came with a URL, and skipped without a job if not. */
  ghost predicate AsFirstSeen(db: Db, first: Media) {
    first.id in db.assets
    && (if first.mediaUrl.Some? && first.mediaUrl.value != ""
        then db.assets[first.id].status == Pending && first.id in db.jobs
        else db.assets[first.id].status == Skipped && first.id !in db.jobs)
  }

  /**
   * What a run leaves for the files, at any point of any schedule. A counted post that had no row
   * has one now, and as long as no worker touched it, it is what the post's first occurrence on the
   * edge made it: with a URL the row is pending and the download job was enqueued, without one it
   * is skipped.
   */
  lemma {:induction false} NewPostsAreQueued(u: Setup, acts: seq<Action>, p: nat, q: nat)
    requires ValidSetup(u) && After(u, acts).Some?
    requires p < After(u, acts).value.db.run.itemsSeen && p < |u.edge.items|
    requires var id := u.edge.items[p].id; id !in u.assets && Untouched(acts, id) && FirstAt(u, id, q)
    ensures AsFirstSeen(After(u, acts).value.db, u.edge.items[q])
  {
    JobsAreWarranted(u, acts, u.edge.items[q].id);
    hide RunInv, WalkInv, RawInv, JobInv, Settled, After;
    var s, id := After(u, acts).value, u.edge.items[p].id;
    RowsHold(u, acts, id, q);
    if !OfferedTo(u, s.db, |u.edge.items|) { CountedIsSettled(u, s); }
    NoLostDownload(u, acts, q);
  }

  lemma {:induction false} CallMovesNoRow(before: seq<Action>, acts: seq<Action>, id: string)
    requires Untouched(before, id) && OneCall(acts)
    ensures Untouched(before + acts, id)
  {
  }

  /**
   * The same for one call of RunSync, which leaves the tables of such steps: after any schedule, and
   * whatever the call itself runs into.
   */
  lemma {:induction false} CallQueuesNewPosts(u: Setup, before: seq<Action>, acts: seq<Action>, p: nat, q: nat)
    requires ValidSetup(u) && After(u, before).Some?
    requires OneCall(acts) && Steps(u, After(u, before).value, acts).Some?
    requires p < Steps(u, After(u, before).value, acts).value.db.run.itemsSeen && p < |u.edge.items|
    requires var id := u.edge.items[p].id; id !in u.assets && Untouched(before, id) && FirstAt(u, id, q)
    ensures AsFirstSeen(Steps(u, After(u, before).value, acts).value.db, u.edge.items[q])
  {
    hide After, Steps, FirstAt, AsFirstSeen;
    AfterSteps(u, before, acts);
    CallMovesNoRow(before, acts, u.edge.items[p].id);
    NewPostsAreQueued(u, before + acts, p, q);
  }

  // ---------------------------------------------------------------- the URLs

  /** The items whose row was written by this run, the one waiting for its job included. */
  function Attached(s: State): nat {
    if s.proc.Queueing? then Settled(s) + 1 else Settled(s)
  }

  /** The row has the URL of an occurrence of the post at position r, which is q or later. */
  ghost predicate UrlFrom(u: Setup, db: Db, q: nat, r: nat)
    requires q < |u.edge.items|
  {
    var id := u.edge.items[q].id;
    q <= r < Target(u) && u.edge.items[r].id == id && id in db.assets
    && db.assets[id].fetchedFromUrl == u.edge.items[r].mediaUrl
  }

  ghost predicate UrlKept(u: Setup, db: Db, q: nat)
    requires q < |u.edge.items|
  {
    exists r: nat :: UrlFrom(u, db, q, r)
  }

  ghost predicate UrlInv(u: Setup, s: State) {
    Attached(s) <= |u.edge.items| && forall q: nat :: q < Attached(s) ==> UrlKept(u, s.db, q)
  }

  lemma {:induction false} AttachWritesTheUrl(u: Setup, s: State)
    requires RunInv(u, s) && UrlInv(u, s) && EnsureAssetRow(s).Some?
    ensures UrlInv(u, EnsureAssetRow(s).value)
  {
    var s', at, item := EnsureAssetRow(s).value, s.proc.seen + s.proc.index, s.proc.page.items[s.proc.index];
    assert item == u.edge.items[at];
    forall q: nat | q < Attached(s') ensures UrlKept(u, s'.db, q) {
      if u.edge.items[q].id == item.id {
        assert UrlFrom(u, s'.db, q, at);
      } else {
        assert UrlKept(u, s.db, q);
        var r: nat :| UrlFrom(u, s.db, q, r);
        assert UrlFrom(u, s'.db, q, r);
      }
    }
  }

  /** No other step writes a URL or claims another row written. */
  lemma {:induction false} OnlyAttachWritesUrls(u: Setup, s: State, a: Action, id: string)
    requires RunInv(u, s) && Apply(u, s, a).Some? && !a.EnsureAsset?
    ensures var s' := Apply(u, s, a).value;
            Attached(s') <= Attached(s)
            && (id in s.db.assets ==>
                  id in s'.db.assets && s'.db.assets[id].fetchedFromUrl == s.db.assets[id].fetchedFromUrl)
  {
    hide RawRows;
  }

  lemma {:induction false} UrlStep(u: Setup, s: State, a: Action)
    requires RunInv(u, s) && UrlInv(u, s) && Apply(u, s, a).Some?
    ensures UrlInv(u, Apply(u, s, a).value)
  {
    if a.EnsureAsset? {
      AttachWritesTheUrl(u, s);
    } else {
      hide Apply, RunInv, Attached;
      var s' := Apply(u, s, a).value;
      OnlyAttachWritesUrls(u, s, a, "");
      forall q: nat | q < Attached(s') ensures UrlKept(u, s'.db, q) {
        assert UrlKept(u, s.db, q);
        var r: nat :| UrlFrom(u, s.db, q, r);
        OnlyAttachWritesUrls(u, s, a, u.edge.items[q].id);
        assert UrlFrom(u, s'.db, q, r);
      }
    }
  }

  lemma {:induction false} UrlsHold(u: Setup, acts: seq<Action>)
    requires ValidSetup(u) && AvoidsWindow(u, acts) && After(u, acts).Some?
    ensures UrlInv(u, After(u, acts).value)
  {
    if acts != [] {
      hide UrlInv, Apply, RunInv, WalkInv, RawInv, JobInv;
      var n := |acts| - 1;
      forall k | 0 <= k < n ensures acts[..n][..k] == acts[..k] && acts[..n][k] == acts[k] {}
      UrlsHold(u, acts[..n]);
      EverySafeScheduleKeepsInv(u, acts[..n]);
      UrlStep(u, After(u, acts[..n]).value, acts[n]);
    }
  }

  /**
   * However often it is resumed, a run that ends succeeded leaves on each row the URL that came with
   * the last occurrence of the post, which need not be the one its status was decided by.
   */
  lemma {:induction false} RowsHaveTheLastUrl(u: Setup, acts: seq<Action>, q: nat)
    requires ValidSetup(u) && AvoidsWindow(u, acts) && After(u, acts).Some?
    requires After(u, acts).value.db.run.status == Succeeded
    requires q < |u.edge.items| && q < u.maxItems
    requires forall r: nat :: q < r < |u.edge.items| && r < u.maxItems ==> u.edge.items[r].id != u.edge.items[q].id
    ensures var db, last := After(u, acts).value.db, u.edge.items[q];
            last.id in db.assets && db.assets[last.id].fetchedFromUrl == last.mediaUrl
  {
    hide WalkInv, RawInv, JobInv, After;
    EverySafeScheduleKeepsInv(u, acts);
    UrlsHold(u, acts);
    assert UrlKept(u, After(u, acts).value.db, q);
    var r: nat :| UrlFrom(u, After(u, acts).value.db, q, r);
    assert r == q;
  }

  // ---------------------------------------------------------------- rows that were there before

  /**
   * A row that was there before the run keeps its status unless a worker moves it, and is not
   * touched at all when the post is not on the edge.
   */
  lemma {:induction false} OldRowsKeepTheirStatus(u: Setup, acts: seq<Action>, id: string)
    requires After(u, acts).Some? && id in u.assets && Untouched(acts, id)
    ensures var assets := After(u, acts).value.db.assets;
            id in assets && assets[id].status == u.assets[id].status
            && ((forall r: nat :: r < |u.edge.items| ==> u.edge.items[r].id != id) ==> assets[id] == u.assets[id])
    ensures FromTheEdge(u, After(u, acts).value)
  {
    if acts != [] {
      hide Apply, FromTheEdge;
      var n := |acts| - 1;
      assert forall k :: 0 <= k < n ==> acts[..n][k] == acts[k];
      OldRowsKeepTheirStatus(u, acts[..n], id);
      OldRowStep(u, After(u, acts[..n]).value, acts[n], id);
    }
  }

  /** The page in hand holds items of the edge. */
  ghost predicate FromTheEdge(u: Setup, s: State) {
    s.proc.Landing? || s.proc.Curating? || s.proc.Attaching? || s.proc.Queueing? ==>
      forall i :: 0 <= i < |s.proc.page.items| ==> s.proc.page.items[i] in u.edge.items
  }

  lemma {:induction false} OldRowStep(u: Setup, s: State, a: Action, id: string)
    requires FromTheEdge(u, s) && Apply(u, s, a).Some? && id in s.db.assets && (a.WorkerMoves? ==> a.id != id)
    ensures var s' := Apply(u, s, a).value;
            FromTheEdge(u, s') && id in s'.db.assets && s'.db.assets[id].status == s.db.assets[id].status
            && ((forall r: nat :: r < |u.edge.items| ==> u.edge.items[r].id != id) ==>
                  s'.db.assets[id] == s.db.assets[id])
  {
    hide RawRows;
  }

  // ---------------------------------------------------------------- no job without a reason

  /** The post came with a URL somewhere on the edge. */
  ghost predicate CameWithUrl(u: Setup, id: string) {
    exists item :: item in u.edge.items && item.id == id && item.mediaUrl.Some? && item.mediaUrl.value != ""
  }

  /** A job that was logged, or is about to be, is for a pending row and a post that came with a URL. */
  ghost predicate Warranted(u: Setup, s: State, id: string) {
    FromTheEdge(u, s)
    && (id in s.db.jobs || AboutToQueue(s, id) ==>
          CameWithUrl(u, id) && id in s.db.assets && s.db.assets[id].status == Pending)
  }

  predicate AboutToQueue(s: State, id: string) {
    s.proc.Queueing? && s.proc.index < |s.proc.page.items| && s.proc.page.items[s.proc.index].id == id
  }

  lemma {:induction false} WarrantedStep(u: Setup, s: State, a: Action, id: string)
    requires Warranted(u, s, id) && Apply(u, s, a).Some? && (a.WorkerMoves? ==> a.id != id)
    ensures Warranted(u, Apply(u, s, a).value, id)
  {
    hide RawRows, CameWithUrl;
    if a.EnsureAsset? {
      var item := s.proc.page.items[s.proc.index];
      assert item in u.edge.items;
      if item.mediaUrl.Some? && item.mediaUrl.value != "" { ItCameWithUrl(u, item); }
    }
  }

  lemma {:induction false} ItCameWithUrl(u: Setup, item: Media)
    requires item in u.edge.items && item.mediaUrl.Some? && item.mediaUrl.value != ""
    ensures CameWithUrl(u, item.id)
  {
  }

  /**
   * The other half: a download job is only ever logged for a post that came with a URL and whose row
   * is pending, and stays so unless a worker moves it. A post skipped at its first occurrence thus
   * gets no job, even when a later occurrence brings the URL.
   */
  lemma {:induction false} JobsAreWarranted(u: Setup, acts: seq<Action>, id: string)
    requires After(u, acts).Some? && Untouched(acts, id)
    ensures Warranted(u, After(u, acts).value, id)
  {
    if acts != [] {
      hide Apply, Warranted;
      var n := |acts| - 1;
      assert forall k :: 0 <= k < n ==> acts[..n][k] == acts[k];
      JobsAreWarranted(u, acts[..n], id);
      WarrantedStep(u, After(u, acts[..n]).value, acts[n], id);
    }
  }
}
