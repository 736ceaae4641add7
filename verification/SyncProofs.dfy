/** What every schedule of crashes, exceptions and resumes keeps, and what a succeeded run leaves. */
module SyncProofs {
  import opened MetaTypes
  import opened MediaRepository
  import opened HistoryLaws
  import opened EdgeWalk
  import opened SyncProtocol

  // ---------------------------------------------------------------- the invariant

  /** Items of the edge the process has finished writing posts for, counting from the run's start. */
  function Written(s: State): nat {
    match s.proc
    case Down => s.db.run.itemsSeen
    case Curating(seen, _, index) => seen + index
    case Attaching(seen, _, index) => seen + index + 1
    case Queueing(seen, _, index) => seen + index + 1
    case _ => s.proc.seen
  }

  /** Items whose asset row and job are settled too. */
  function Settled(s: State): nat {
    match s.proc
    case Down => s.db.run.itemsSeen
    case Curating(seen, _, index) => seen + index
    case Attaching(seen, _, index) => seen + index
    case Queueing(seen, _, index) => seen + index
    case _ => s.proc.seen
  }

  /** How far raw rows are promised: to the end of the page in hand once it has landed. */
  function Covered(s: State): nat {
    if s.proc.Curating? || s.proc.Attaching? || s.proc.Queueing? then s.proc.seen + |s.proc.page.items| else Written(s)
  }

  /** The page in hand is the stretch of the edge right after the items counted so far. */
  ghost predicate PageAt(u: Setup, page: MediaPage, start: nat) {
    && start + |page.items| <= Target(u)
    && (forall i :: 0 <= i < |page.items| ==> page.items[i] == u.edge.items[start + i])
    && (page.nextCursor.Some? ==> page.nextCursor.value == start + |page.items|)
    && (page.nextCursor.None? ==> start + |page.items| == |u.edge.items|)
    && (page.items == [] ==> start == |u.edge.items|)
  }

  ghost predicate ProcInv(u: Setup, s: State) {
    var run := s.db.run;
    match s.proc
    case Down => true
    case Fetching(seen, cursor, _) => run.status == Running && seen == cursor == run.itemsSeen && seen < u.maxItems
    case Landing(seen, page) => run.status == Running && seen == run.itemsSeen && PageAt(u, page, seen)
    case Curating(seen, page, index) =>
      run.status == Running && seen == run.itemsSeen && PageAt(u, page, seen) && index <= |page.items|
    case Attaching(seen, page, index) =>
      run.status == Running && seen == run.itemsSeen && PageAt(u, page, seen) && index < |page.items|
    case Queueing(seen, page, index) =>
      run.status == Running && seen == run.itemsSeen && PageAt(u, page, seen) && index < |page.items|
    case Progressing(seen, page) =>
      run.status == Running && seen == run.itemsSeen + |page.items| && PageAt(u, page, run.itemsSeen)
    case Counted(seen, page) =>
      run.status == Running && seen == run.itemsSeen && s.base < u.maxItems
      && (page.nextCursor.Some? ==> page.nextCursor.value == seen)
      && (page.nextCursor.None? || page.items == [] ==> seen == |u.edge.items|)
    case Closing(seen, hit) =>
      run.status == Running && seen == run.itemsSeen == Target(u)
          && (hit <==> seen >= u.maxItems && s.base < u.maxItems)
    case Marking(seen, hit) =>
      run.status == Succeeded && seen == run.itemsSeen == Target(u)
          && (hit <==> seen >= u.maxItems && s.base < u.maxItems)
  }

  /** The stored cursor is the number of items counted, except behind a final page. */
  ghost predicate RunInv(u: Setup, s: State) {
    var run := s.db.run;
    && Position(run.lastCursor) <= run.itemsSeen <= Target(u)
    && (Position(run.lastCursor) == run.itemsSeen || run.itemsSeen == |u.edge.items|)
    && (!s.proc.Down? && !s.proc.Closing? && !s.proc.Marking? ==> s.base < u.maxItems)
    && (run.status == Succeeded ==>
          run.itemsSeen == Target(u) && (run.hitItemCap <==> Target(u) >= u.maxItems && s.base < u.maxItems))
    && ProcInv(u, s)
  }

  /** The curated tables are those of a walk over the edge that skips nothing. */
  ghost predicate WalkInv(u: Setup, s: State) {
    && Walk(u.curated.history, u.edge, s.visits)
    && s.db.curated == Walked(u.curated, u.edge, s.visits)
    && CapturedBy(u.curated.history, s.clock)
    && (s.visits != [] ==> s.visits[|s.visits| - 1].now <= s.clock)
    && HighWater(s.visits) <= Target(u)
    && Written(s) <= Reach(s.visits)
  }

  ghost predicate Landed(raw: seq<DataPoint>, p: nat) {
    exists i :: 0 <= i < |raw| && raw[i].positionOverall == p
  }

  /** Every raw row holds the item of its position; all counted positions are there. */
  ghost predicate RawInv(u: Setup, s: State) {
    && (forall i :: 0 <= i < |s.db.raw| ==>
          s.db.raw[i].positionOverall < Target(u) && s.db.raw[i].payload == u.edge.items[s.db.raw[i].positionOverall])
    && (forall p: nat :: p < Covered(s) ==> Landed(s.db.raw, p))
  }

  /** A post that was offered with a URL is not left pending without a download job. */
  ghost predicate JobSafe(u: Setup, db: Db, p: nat)
    requires p < |u.edge.items|
  {
    var item := u.edge.items[p];
    Usable(item.mediaUrl) ==> item.id in db.assets && (db.assets[item.id].status == Pending ==> item.id in db.jobs)
  }

  ghost predicate JobInv(u: Setup, s: State) {
    && Settled(s) <= |u.edge.items|
    && (forall p: nat :: p < Settled(s) ==> JobSafe(u, s.db, p))
    && (s.proc.Queueing? && s.proc.index < |s.proc.page.items| ==> s.proc.page.items[s.proc.index].id in s.db.assets)
  }

  ghost predicate Inv(u: Setup, s: State) {
    RunInv(u, s) && WalkInv(u, s) && RawInv(u, s) && JobInv(u, s)
  }

  // ---------------------------------------------------------------- one step

  /** The step is not a pickup inside the window. */
  ghost predicate Careful(u: Setup, s: State, a: Action) {
    a == Pickup ==> !Overcounts(u, s.db.run)
  }

  lemma RunStep(u: Setup, s: State, a: Action)
    requires RunInv(u, s) && Careful(u, s, a) && Apply(u, s, a).Some?
    ensures RunInv(u, Apply(u, s, a).value)
  {
    hide Upsert;
    hide RawRows;
    hide EnsurePending;
    if a.Fetch? { FetchStep(u, s, a.count, a.more); }
  }

  lemma FetchStep(u: Setup, s: State, n: nat, more: bool)
    requires RunInv(u, s) && FetchPage(u, s, n, more).Some?
    ensures RunInv(u, FetchPage(u, s, n, more).value)
  {
  }

  /** Outside the window, the rank an item gets is its position in the edge plus one. */
  lemma UpsertIsAVisit(u: Setup, s: State, now: int, newId: nat)
    requires RunInv(u, s) && UpsertNext(u, s, now, newId).Some?
    ensures var v, s' := Visit(s.proc.seen + s.proc.index, now, newId), UpsertNext(u, s, now, newId).value;
            && v.pos < Target(u) && Written(s) == v.pos && Written(s') == v.pos + 1
            && Accepted(SightingAt(u.edge, v)) && s.clock < now
            && s'.visits == s.visits + [v] && s'.clock == now
            && s'.db.curated == Upsert(s.db.curated, SightingAt(u.edge, v))
  {
    assert s.proc.page.items[s.proc.index] == u.edge.items[s.proc.seen + s.proc.index];
  }

  lemma VisitStep(u: Setup, s: State, s': State, v: Visit)
    requires WalkInv(u, s) && v.pos < Target(u) && Written(s) == v.pos && Written(s') == v.pos + 1
    requires Accepted(SightingAt(u.edge, v)) && s.clock < v.now == s'.clock
    requires s'.visits == s.visits + [v]
    requires s'.db.curated == Upsert(s.db.curated, SightingAt(u.edge, v))
    ensures WalkInv(u, s')
  {
    hide Upsert;
    hide Walked;
    hide HighWater;
    Push(u.curated, u.edge, s.visits, v);
  }

  lemma WalkFrame(u: Setup, s: State, s': State)
    requires WalkInv(u, s) && s'.visits == s.visits && s'.db.curated == s.db.curated && s'.clock == s.clock
    requires Written(s') <= Written(s)
    ensures WalkInv(u, s')
  {
  }

  /** Only the upsert touches posts and history, and no other step claims more of them written. */
  lemma OnlyUpsertWritesPosts(u: Setup, s: State, a: Action)
    requires RunInv(u, s) && Apply(u, s, a).Some? && !a.UpsertItem?
    ensures var s' := Apply(u, s, a).value;
            s'.visits == s.visits && s'.db.curated == s.db.curated && s'.clock == s.clock && Written(s') <= Written(s)
  {
  }

  lemma WalkStep(u: Setup, s: State, a: Action)
    requires ValidSetup(u) && Inv(u, s) && Apply(u, s, a).Some?
    ensures WalkInv(u, Apply(u, s, a).value)
  {
    if a.UpsertItem? {
      UpsertIsAVisit(u, s, a.now, a.newId);
      VisitStep(u, s, Apply(u, s, a).value, Visit(s.proc.seen + s.proc.index, a.now, a.newId));
    }
    else {
      OnlyUpsertWritesPosts(u, s, a);
      WalkFrame(u, s, Apply(u, s, a).value);
    }
  }

  lemma LandStep(u: Setup, s: State)
    requires RunInv(u, s) && RawInv(u, s) && Apply(u, s, LandRaw).Some?
    ensures RawInv(u, Apply(u, s, LandRaw).value)
  {
    var s' := Apply(u, s, LandRaw).value;
    var raw, rows, page, seen := s.db.raw, RawRows(s.proc.page, s.proc.seen), s.proc.page, s.proc.seen;
    forall i | 0 <= i < |rows|
      ensures rows[i].positionOverall == seen + i && rows[i].payload == u.edge.items[seen + i]
    {
    }
    forall p: nat | p < seen + |page.items| ensures Landed(s'.db.raw, p) {
      if p < seen { LandedGrows(raw, rows, p); }
      else { assert s'.db.raw[|raw| + p - seen] == rows[p - seen]; }
    }
  }

  lemma LandedGrows(raw: seq<DataPoint>, more: seq<DataPoint>, p: nat)
    requires Landed(raw, p)
    ensures Landed(raw + more, p)
  {
    var i :| 0 <= i < |raw| && raw[i].positionOverall == p;
    assert (raw + more)[i] == raw[i];
  }

  lemma OnlyLandingWritesRaw(u: Setup, s: State, a: Action)
    requires RunInv(u, s) && Apply(u, s, a).Some? && !a.LandRaw?
    ensures var s' := Apply(u, s, a).value; s'.db.raw == s.db.raw && Covered(s') <= Covered(s)
  {
  }

  lemma RawStep(u: Setup, s: State, a: Action)
    requires Inv(u, s) && Apply(u, s, a).Some?
    ensures RawInv(u, Apply(u, s, a).value)
  {
    if a.LandRaw? { LandStep(u, s); } else { OnlyLandingWritesRaw(u, s, a); }
  }

  lemma AttachStep(u: Setup, s: State)
    requires RunInv(u, s) && JobInv(u, s) && EnsureAssetRow(s).Some?
    ensures JobInv(u, EnsureAssetRow(s).value)
  {
    var s' := EnsureAssetRow(s).value;
    assert s.proc.page.items[s.proc.index] == u.edge.items[s.proc.seen + s.proc.index];
    forall p: nat | p < Settled(s') ensures JobSafe(u, s'.db, p) {
      if p < Settled(s) { assert JobSafe(u, s.db, p); }
    }
  }

  lemma EnqueueStep(u: Setup, s: State)
    requires RunInv(u, s) && JobInv(u, s) && EnqueueDownload(s).Some?
    ensures JobInv(u, EnqueueDownload(s).value)
  {
    var s' := EnqueueDownload(s).value;
    assert s.proc.page.items[s.proc.index] == u.edge.items[s.proc.seen + s.proc.index];
    assert s'.db.jobs[|s.db.jobs|] == s.proc.page.items[s.proc.index].id;
    forall p: nat | p < Settled(s') ensures JobSafe(u, s'.db, p) {
      if p < Settled(s) { assert JobSafe(u, s.db, p); }
    }
  }

  lemma WorkerStep(u: Setup, s: State, id: string, status: AssetStatus)
    requires RunInv(u, s) && JobInv(u, s) && MoveAsset(s, id, status).Some?
    ensures JobInv(u, MoveAsset(s, id, status).value)
  {
    var s' := MoveAsset(s, id, status).value;
    forall p: nat | p < Settled(s') ensures JobSafe(u, s'.db, p) { assert JobSafe(u, s.db, p); }
  }

  lemma OthersLeaveJobsAlone(u: Setup, s: State, a: Action)
    requires RunInv(u, s) && Apply(u, s, a).Some? && !a.EnsureAsset? && !a.Enqueue? && !a.WorkerMoves?
    ensures var s' := Apply(u, s, a).value;
            s'.db.assets == s.db.assets && s'.db.jobs == s.db.jobs && Settled(s') <= Settled(s) && !s'.proc.Queueing?
  {
  }

  lemma JobStep(u: Setup, s: State, a: Action)
    requires Inv(u, s) && Apply(u, s, a).Some?
    ensures JobInv(u, Apply(u, s, a).value)
  {
    if a.EnsureAsset? { AttachStep(u, s); }
    else if a.Enqueue? { EnqueueStep(u, s); }
    else if a.WorkerMoves? { WorkerStep(u, s, a.id, a.status); }
    else {
      OthersLeaveJobsAlone(u, s, a);
      JobFrame(u, s, Apply(u, s, a).value);
    }
  }

  lemma JobFrame(u: Setup, s: State, s': State)
    requires JobInv(u, s) && s'.db.assets == s.db.assets && s'.db.jobs == s.db.jobs
    requires Settled(s') <= Settled(s) && !s'.proc.Queueing?
    ensures JobInv(u, s')
  {
    forall p: nat | p < Settled(s') ensures JobSafe(u, s'.db, p) { assert JobSafe(u, s.db, p); }
  }

  lemma Step(u: Setup, s: State, a: Action)
    requires ValidSetup(u) && Inv(u, s) && Careful(u, s, a) && Apply(u, s, a).Some?
    ensures Inv(u, Apply(u, s, a).value)
  {
    RunStep(u, s, a);
    WalkStep(u, s, a);
    RawStep(u, s, a);
    JobStep(u, s, a);
  }

  lemma {:induction false} EverySafeScheduleKeepsInv(u: Setup, acts: seq<Action>)
    requires ValidSetup(u) && AvoidsWindow(u, acts) && After(u, acts).Some?
    ensures Inv(u, After(u, acts).value)
  {
    if acts != [] {
      var n := |acts| - 1;
      forall k | 0 <= k < n ensures acts[..n][..k] == acts[..k] && acts[..n][k] == acts[k] {}
      EverySafeScheduleKeepsInv(u, acts[..n]);
      Step(u, After(u, acts[..n]).value, acts[n]);
    }
  }

  // ---------------------------------------------------------------- what a schedule leaves behind

  /** The upserts of a run that nothing interrupts: each position once, in order. */
  function Uninterrupted(u: Setup): seq<Visit> {
    OnceThrough(Target(u), u.clock + 1)
  }

  ghost predicate RawFaithful(u: Setup, raw: seq<DataPoint>) {
    forall i :: 0 <= i < |raw| ==>
      raw[i].positionOverall < Target(u) && raw[i].payload == u.edge.items[raw[i].positionOverall]
  }

  lemma UninterruptedIsAWalk(u: Setup, w: seq<Visit>)
    requires ValidSetup(u) && Walk(u.curated.history, u.edge, w) && HighWater(w) == Target(u)
    ensures Walk(u.curated.history, u.edge, Uninterrupted(u)) && Straight(Uninterrupted(u))
  {
    forall p: nat | p < Target(u) ensures u.edge.items[p].takenAt.Some? {
      NothingSkipped(u.curated.history, u.edge, w, p);
    }
    OnceThroughIsAWalk(u.curated.history, u.edge, Target(u), u.clock + 1);
  }

  /**
   * Crash transparency. However often the process dies and is resumed, a run that ends succeeded
   * has counted every item up to the cap, holds the right raw row at every position, and leaves
   * the posts and the history of a run that was never interrupted.
   */
  lemma CrashTransparency(u: Setup, acts: seq<Action>)
    requires ValidSetup(u) && AvoidsWindow(u, acts)
    requires After(u, acts).Some? && After(u, acts).value.db.run.status == Succeeded
    ensures var db := After(u, acts).value.db;
            && db.run.itemsSeen == Target(u)
            && RawFaithful(u, db.raw)
            && (forall p: nat :: p < Target(u) ==> Landed(db.raw, p))
            && Walk(u.curated.history, u.edge, Uninterrupted(u)) && Straight(Uninterrupted(u))
            && Same(db.curated, Walked(u.curated, u.edge, Uninterrupted(u)))
  {
    EverySafeScheduleKeepsInv(u, acts);
    var s := After(u, acts).value;
    assert Written(s) == Target(u);
    WalkBounds(u.curated.history, u.edge, s.visits);
    UninterruptedIsAWalk(u, s.visits);
    WalkTransparent(u.curated, u.edge, s.visits, Uninterrupted(u));
  }

  /** Every item of the edge has been offered and is safe. */
  ghost predicate AllSafe(u: Setup, db: Db) {
    forall p: nat :: p < |u.edge.items| ==> JobSafe(u, db, p)
  }

  /** No step of any kind takes a row or a job away. */
  lemma {:induction false} SafeStaysSafe(u: Setup, s: State, a: Action, p: nat)
    requires p < |u.edge.items| && JobSafe(u, s.db, p) && Apply(u, s, a).Some?
    ensures JobSafe(u, Apply(u, s, a).value.db, p)
  {
    hide Upsert, RawRows;
  }

  /** A pickup inside the window comes after the whole edge was counted. */
  lemma WindowIsSafe(u: Setup, s: State)
    requires RunInv(u, s) && JobInv(u, s) && s.proc.Down? && Overcounts(u, s.db.run)
    ensures AllSafe(u, s.db)
  {
  }

  lemma {:induction false} InStepOrSafe(u: Setup, acts: seq<Action>)
    requires ValidSetup(u) && After(u, acts).Some?
    ensures Inv(u, After(u, acts).value) || AllSafe(u, After(u, acts).value.db)
  {
    if acts != [] {
      hide RunInv, WalkInv, RawInv, JobInv, JobSafe, Apply, Overcounts;
      var s, a := After(u, acts[..|acts| - 1]).value, acts[|acts| - 1];
      InStepOrSafe(u, acts[..|acts| - 1]);
      if Inv(u, s) {
        if Careful(u, s, a) {
          Step(u, s, a);
        } else {
          PickupFindsItDown(u, s);
          WindowIsSafe(u, s);
        }
      }
      if AllSafe(u, s.db) {
        forall p: nat | p < |u.edge.items| ensures JobSafe(u, Apply(u, s, a).value.db, p) {
          SafeStaysSafe(u, s, a, p);
        }
      }
    }
  }

  lemma PickupFindsItDown(u: Setup, s: State)
    requires Apply(u, s, Pickup).Some?
    ensures s.proc.Down?
  {
  }

  /**
   * No lost download, at any point of any schedule, pickups in the window included: a post counted
   * in itemsSeen that came with a URL has an asset row, and if the row is still pending its download
   * job was enqueued.
   */
  lemma {:induction false} NoLostDownload(u: Setup, acts: seq<Action>, p: nat)
    requires ValidSetup(u) && After(u, acts).Some?
    requires p < After(u, acts).value.db.run.itemsSeen && p < |u.edge.items|
    ensures JobSafe(u, After(u, acts).value.db, p)
  {
    hide JobSafe, WalkInv, RawInv;
    InStepOrSafe(u, acts);
    if Inv(u, After(u, acts).value) { CountedIsSettled(u, After(u, acts).value); }
  }

  lemma CountedIsSettled(u: Setup, s: State)
    requires RunInv(u, s)
    ensures s.db.run.itemsSeen <= Settled(s)
  {
  }

  /** `hitItemCap` is right exactly when the last pickup still had something to fetch. */
  lemma CapFlagExactness(u: Setup, acts: seq<Action>)
    requires ValidSetup(u) && AvoidsWindow(u, acts)
    requires After(u, acts).Some? && After(u, acts).value.db.run.status == Succeeded
    ensures var s := After(u, acts).value;
            (s.db.run.hitItemCap <==> |u.edge.items| >= u.maxItems) <==>
            (|u.edge.items| >= u.maxItems ==> s.base < u.maxItems)
  {
    EverySafeScheduleKeepsInv(u, acts);
  }

  /**
   * The window is exact: from a run that crashed while running, resuming can file an item under
   * a wrong position if and only if the stored cursor is behind itemsSeen and the cap is not met.
   */
  lemma WindowIsExact(u: Setup, acts: seq<Action>)
    requires ValidSetup(u) && AvoidsWindow(u, acts) && After(u, acts).Some?
    requires After(u, acts).value.proc.Down? && After(u, acts).value.db.run.status == Running
    ensures Overcounts(u, After(u, acts).value.db.run) <==>
            exists n, more :: var end := After(u, acts + [Pickup, Fetch(n, more), LandRaw]);
                              end.Some? && !RawFaithful(u, end.value.db.raw)
  {
    hide After;
    EverySafeScheduleKeepsInv(u, acts);
    var s := After(u, acts).value;
    if Overcounts(u, s.db.run) {
      AfterThree(u, acts, Pickup, Fetch(1, true), LandRaw);
      var end := After(u, acts + [Pickup, Fetch(1, true), LandRaw]).value;
      assert end.db.raw[|s.db.raw|].positionOverall == |u.edge.items|;
      assert !RawFaithful(u, end.db.raw);
    } else {
      forall n: nat, more: bool | After(u, acts + [Pickup, Fetch(n, more), LandRaw]).Some?
        ensures RawFaithful(u, After(u, acts + [Pickup, Fetch(n, more), LandRaw]).value.db.raw)
      {
        AfterThree(u, acts, Pickup, Fetch(n, more), LandRaw);
        var s1 := Apply(u, s, Pickup).value;
        Step(u, s, Pickup);
        Step(u, s1, Fetch(n, more));
        Step(u, Apply(u, s1, Fetch(n, more)).value, LandRaw);
      }
    }
  }

  function Then(u: Setup, s: Option<State>, a: Action): Option<State> {
    if s.None? then None else Apply(u, s.value, a)
  }

  lemma AfterOne(u: Setup, acts: seq<Action>, a: Action)
    ensures After(u, acts + [a]) == Then(u, After(u, acts), a)
  {
    assert (acts + [a])[..|acts|] == acts;
  }

  lemma AfterThree(u: Setup, acts: seq<Action>, a: Action, b: Action, c: Action)
    ensures After(u, acts + [a, b, c]) == Then(u, Then(u, Then(u, After(u, acts), a), b), c)
  {
    hide After;
    hide Apply;
    AfterOne(u, acts, a);
    AfterOne(u, acts + [a], b);
    AfterOne(u, acts + [a, b], c);
    assert acts + [a] + [b] == acts + [a, b];
    assert acts + [a, b] + [c] == acts + [a, b, c];
  }

  // ---------------------------------------------------------------- the exceptions are real

  lemma {:induction false} Extend(u: Setup, acts: seq<Action>, s: State, a: Action, s': State)
    requires After(u, acts) == Some(s) && AvoidsWindow(u, acts)
    requires Careful(u, s, a) && Apply(u, s, a) == Some(s')
    ensures After(u, acts + [a]) == Some(s') && AvoidsWindow(u, acts + [a])
  {
    hide Apply, Overcounts, After;
    AfterOne(u, acts, a);
    var more := acts + [a];
    forall k | 0 <= k < |more| && more[k] == Pickup && After(u, more[..k]).Some?
      ensures !Overcounts(u, After(u, more[..k]).value.db.run)
    {
      if k < |acts| { assert more[..k] == acts[..k]; } else { assert more[..k] == acts; }
    }
  }

  /** A setup whose edge is one parseable item without a file. */
  predicate OneItem(u: Setup) {
    |u.edge.items| == 1 && u.edge.items[0].takenAt.Some? && u.edge.items[0].mediaUrl.None? && u.maxItems >= 1
  }

  /** Its only page is fetched and persisted up to the cursor write. */
  lemma {:induction false} OneItemPersisted(u: Setup) returns (acts: seq<Action>, s: State)
    requires OneItem(u)
    ensures After(u, acts) == Some(s) && AvoidsWindow(u, acts)
    ensures s.proc == Curating(0, MediaPage(u.edge.items, None, 1), 1) && s.db.run == Run(Running, 0, 0, None, false)
  {
    hide Upsert, EnsurePending, RawRows;
    acts, s := [], Init(u);
    assert u.edge.items[0..1] == u.edge.items;
    s := TakeStep(u, acts, s, Pickup);
    acts := acts + [Pickup];
    s := TakeStep(u, acts, s, Fetch(1, false));
    acts := acts + [Fetch(1, false)];
    s := TakeStep(u, acts, s, LandRaw);
    acts := acts + [LandRaw];
    s := TakeStep(u, acts, s, UpsertItem(s.clock + 1, 0));
    acts := acts + [UpsertItem(s.clock, 0)];
    s := TakeStep(u, acts, s, EnsureAsset);
    acts := acts + [EnsureAsset];
  }

  lemma {:induction false} TakeStep(u: Setup, acts: seq<Action>, s: State, a: Action) returns (s': State)
    requires After(u, acts) == Some(s) && AvoidsWindow(u, acts) && Careful(u, s, a) && Apply(u, s, a).Some?
    ensures Some(s') == Apply(u, s, a) && After(u, acts + [a]) == Some(s') && AvoidsWindow(u, acts + [a])
  {
    hide Apply, Overcounts, After, AvoidsWindow;
    s' := Apply(u, s, a).value;
    Extend(u, acts, s, a, s');
  }

  /** The page is counted, and then the process dies. */
  lemma {:induction false} OneItemCounted(u: Setup) returns (acts: seq<Action>, s: State)
    requires OneItem(u)
    ensures After(u, acts) == Some(s) && AvoidsWindow(u, acts)
    ensures s.proc.Down? && s.db.run == Run(Running, 1, 1, None, false)
  {
    acts, s := OneItemPersisted(u);
    s := TakeStep(u, acts, s, EndPage);
    acts := acts + [EndPage];
    s := TakeStep(u, acts, s, RecordProgress);
    acts := acts + [RecordProgress];
    s := TakeStep(u, acts, s, Crash);
    acts := acts + [Crash];
  }

  /** The window is reached: a crash after the last page was counted and below the cap. */
  lemma {:induction false} WindowIsReachable(u: Setup)
    requires OneItem(u) && u.maxItems > 1
    ensures exists acts :: AvoidsWindow(u, acts) && After(u, acts).Some? && After(u, acts).value.proc.Down?
                           && Overcounts(u, After(u, acts).value.db.run)
  {
    hide After, AvoidsWindow;
    var acts, s := OneItemCounted(u);
  }

  /** The wrong flag is reached: a crash after the cap was met, and a resume that only finishes. */
  lemma {:induction false} WrongCapFlagIsReachable(u: Setup)
    requires OneItem(u) && u.maxItems == 1
    ensures exists acts :: AvoidsWindow(u, acts) && After(u, acts).Some?
                           && After(u, acts).value.db.run.status == Succeeded
                           && !After(u, acts).value.db.run.hitItemCap && |u.edge.items| >= u.maxItems
  {
    hide After, AvoidsWindow;
    var acts, s := OneItemCounted(u);
    s := TakeStep(u, acts, s, Pickup);
    acts := acts + [Pickup];
    s := TakeStep(u, acts, s, Finish);
    acts := acts + [Finish];
  }

  // ---------------------------------------------------------------- terminal runs

  ghost predicate Quiet(s: State) {
    s.db.run.status != Running ==> s.proc.Down? || s.proc.Marking?
  }

  lemma {:induction false} TerminalRunsAreQuiet(u: Setup, acts: seq<Action>)
    requires After(u, acts).Some?
    ensures Quiet(After(u, acts).value)
  {
    if acts != [] { TerminalRunsAreQuiet(u, acts[..|acts| - 1]); }
  }

  /**
   * A run that left `running`, whichever way, is never running again and no process picks it up,
   * a partial one included. The one thing that can still change is that a succeeded run is
   * marked partial or failed when the step after finishRun throws.
   */
  lemma {:induction false} TerminalNeverReopened(u: Setup, acts: seq<Action>, more: seq<Action>)
    requires After(u, acts).Some? && After(u, acts + more).Some?
    requires After(u, acts).value.db.run.status != Running
    ensures var run, end := After(u, acts).value.db.run, After(u, acts + more).value;
            && end.db.run.status != Running
            && Apply(u, end, Pickup).None?
            && end.db.run.(status := run.status, hitItemCap := run.hitItemCap) == run
            && (end.db.run.status == run.status || After(u, acts).value.proc.Marking?)
  {
    TerminalRunsAreQuiet(u, acts);
    if more == [] {
      assert acts + more == acts;
    } else {
      var n := |more| - 1;
      assert (acts + more)[..|acts + more| - 1] == acts + more[..n];
      TerminalNeverReopened(u, acts, more[..n]);
      TerminalRunsAreQuiet(u, acts + more[..n]);
      if After(u, acts).value.proc.Down? { DownStaysDown(u, acts, more); }
    }
  }

  lemma {:induction false} DownStaysDown(u: Setup, acts: seq<Action>, more: seq<Action>)
    requires After(u, acts).Some? && After(u, acts + more).Some?
    requires After(u, acts).value.db.run.status != Running && After(u, acts).value.proc.Down?
    ensures After(u, acts + more).value.proc.Down? && After(u, acts + more).value.db.run == After(u, acts).value.db.run
  {
    if more == [] {
      assert acts + more == acts;
    } else {
      assert (acts + more)[..|acts + more| - 1] == acts + more[..|more| - 1];
      DownStaysDown(u, acts, more[..|more| - 1]);
    }
  }
}
