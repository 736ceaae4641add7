/** One call of runSync, as the code runs it: the page loop over the tables, and its catch block. */
module HashtagSync {
  import opened MetaTypes
  import opened MediaRepository
  import opened HistoryLaws
  import opened EdgeWalk
  import opened SyncProtocol
  import opened SyncProofs
  import MetaGraphClient

  /** What the paginator gets for one request: so many items, and whether a next cursor came with them. */
  datatype Reply = Reply(count: nat, more: bool)

  /** The machine's steps from any state. */
  function Steps(u: Setup, s: State, acts: seq<Action>): Option<State> {
    if acts == [] then Some(s) else Then(u, Steps(u, s, acts[..|acts| - 1]), acts[|acts| - 1])
  }

  lemma StepsPush(u: Setup, s: State, acts: seq<Action>, a: Action)
    ensures Steps(u, s, acts + [a]) == Then(u, Steps(u, s, acts), a)
  {
    assert (acts + [a])[..|acts|] == acts;
  }

  lemma {:induction false} AfterSteps(u: Setup, before: seq<Action>, acts: seq<Action>)
    requires After(u, before).Some?
    ensures After(u, before + acts) == Steps(u, After(u, before).value, acts)
  {
    hide Apply;
    if acts == [] {
      assert before + acts == before;
    } else {
      var n := |acts| - 1;
      assert (before + acts)[..|before + acts| - 1] == before + acts[..n];
      AfterSteps(u, before, acts[..n]);
    }
  }

  /** The writes of one call. A page is named by its number in the call, an item by its index on it. */
  datatype Write =
    | RawWrite(page: nat)
    | PostWrite(page: nat, index: nat)
    | AssetWrite(page: nat, index: nat)
    | JobWrite(page: nat, index: nat)
    | ProgressWrite(page: nat)
    | FinishWrite
    | MarkWrite
    | CatchWrite

  /** How a write ends: done, a throw that left nothing, or a throw after it was committed. */
  datatype Fault = NoFault | LostWrite | LateThrow

  /** Why a call failed. */
  datatype Cause = WriteThrew(w: Write) | BadTimestamp(pos: nat) | NoPage

  /** The replies make up a whole walk: possible pages up to the cap, the last page, or an empty one. */
  predicate EnoughPages(u: Setup, seen: nat, cursor: nat, replies: seq<Reply>)
    decreases |replies|
  {
    seen >= u.maxItems
    || (replies != []
        && var r := replies[0];
           PossiblePage(u, seen, cursor, r.count, r.more)
           && (!r.more || r.count == 0 || EnoughPages(u, seen + r.count, cursor + r.count, replies[1..])))
  }

  /** The cause is real: a write that threw, an unparseable timestamp, or a walk that broke off. */
  predicate Happened(u: Setup, replies: seq<Reply>, world: Write -> Fault, seen: nat, cursor: nat, cause: Cause) {
    match cause
    case WriteThrew(w) => !world(w).NoFault?
    case BadTimestamp(pos) => pos < |u.edge.items| && u.edge.items[pos].takenAt.None?
    case NoPage => !EnoughPages(u, seen, cursor, replies)
  }

  /** The call got to the end of its walk: what threw is finishRun or the step after it. */
  predicate AfterTheWalk(cause: Cause) {
    cause == WriteThrew(FinishWrite) || cause == WriteThrew(MarkWrite)
  }

  predicate AllParse(u: Setup) {
    forall pos :: 0 <= pos < |u.edge.items| ==> u.edge.items[pos].takenAt.Some?
  }

  /** Nothing goes wrong: no write throws, every timestamp parses, and the replies are a whole walk. */
  ghost predicate NothingToBlame(u: Setup, replies: seq<Reply>, world: Write -> Fault, seen: nat, cursor: nat) {
    (forall w :: world(w).NoFault?) && AllParse(u) && EnoughPages(u, seen, cursor, replies)
  }

  /** One pickup, at the start: what a process does on its own, its death included and no worker's step. */
  predicate OneCall(acts: seq<Action>) {
    acts != [] && acts[0] == Pickup && forall k :: 1 <= k < |acts| ==> acts[k] != Pickup && !acts[k].WorkerMoves?
  }

  predicate HasUrl(item: Media) {
    item.mediaUrl.Some? && item.mediaUrl.value != ""
  }

  /**
   * What the attach step makes of its item's row: the URL refreshed, the status kept if there was a
   * row and otherwise decided by whether there is a URL. No other row changes.
   */
  ghost predicate RowWritten(before: map<string, Asset>, after: map<string, Asset>, item: Media) {
    item.id in after && after[item.id].fetchedFromUrl == item.mediaUrl
    && (item.id in before ==> after[item.id].status == before[item.id].status)
    && (item.id !in before && HasUrl(item) ==> after[item.id].status == Pending)
    && (item.id !in before && !HasUrl(item) ==> after[item.id].status == Skipped)
    && OthersKept(before, after, item.id)
  }

  ghost predicate OthersKept(before: map<string, Asset>, after: map<string, Asset>, except: string) {
    forall id :: id != except ==> (id in after <==> id in before) && (id in after ==> after[id] == before[id])
  }

  /** A job is logged exactly when the row is pending and the item has a URL. */
  predicate JobLogged(assets: map<string, Asset>, queued: seq<string>, jobs: seq<string>, item: Media) {
    jobs == queued + if item.id in assets && assets[item.id].status == Pending && HasUrl(item) then [item.id] else []
  }

  /**
   * The same for the items of a page, one after another: a post without a row gets one from its
   * first occurrence on the page, rows of other posts stay, and every pending row whose item came
   * with a URL has its job.
   */
  ghost predicate PageAttached(
    before: map<string, Asset>, after: map<string, Asset>, queued: seq<string>, jobs: seq<string>, items: seq<Media>)
  {
    (forall i :: 0 <= i < |items| ==> ItemAttached(before, after, jobs, items, i))
    && (forall id :: (forall i :: 0 <= i < |items| ==> items[i].id != id) ==>
          (id in after <==> id in before) && (id in after ==> after[id] == before[id]))
    && queued <= jobs
  }

  ghost predicate ItemAttached(
    before: map<string, Asset>, after: map<string, Asset>, jobs: seq<string>, items: seq<Media>, i: nat)
    requires i < |items|
  {
    var item := items[i];
    item.id in after
    && (item.id in before ==> after[item.id].status == before[item.id].status)
    && (item.id !in before && (forall j :: 0 <= j < i ==> items[j].id != item.id) ==>
          after[item.id].status == if HasUrl(item) then Pending else Skipped)
    && (HasUrl(item) && after[item.id].status == Pending ==> item.id in jobs)
  }

  lemma {:induction false} OneMoreAttached(
    before: map<string, Asset>, mid: map<string, Asset>, after: map<string, Asset>,
    queued: seq<string>, midJobs: seq<string>, jobs: seq<string>, items: seq<Media>, item: Media)
    requires PageAttached(before, mid, queued, midJobs, items)
    requires RowWritten(mid, after, item) && JobLogged(after, midJobs, jobs, item)
    ensures PageAttached(before, after, queued, jobs, items + [item])
  {
    var more := items + [item];
    forall i | 0 <= i < |more| ensures ItemAttached(before, after, jobs, more, i) {
      assert forall j :: 0 <= j < |items| ==> more[j] == items[j];
      if i < |items| {
        assert ItemAttached(before, mid, midJobs, items, i);
      } else if j :| 0 <= j < |items| && items[j].id == item.id {
        assert ItemAttached(before, mid, midJobs, items, j) && more[j].id == more[i].id;
      } else {
        assert item.id in mid <==> item.id in before;
      }
    }
    forall id | forall i :: 0 <= i < |more| ==> more[i].id != id
      ensures (id in after <==> id in before) && (id in after ==> after[id] == before[id])
    {
      assert more[|items|] == item;
      assert forall i :: 0 <= i < |items| ==> more[i] == items[i];
    }
  }

  lemma NoneAttached(assets: map<string, Asset>, jobs: seq<string>)
    ensures PageAttached(assets, assets, jobs, jobs, [])
  {
  }

  lemma EnsureWritesOneRow(assets: map<string, Asset>, item: Media)
    ensures RowWritten(assets, EnsurePending(assets, item.id, item.mediaUrl), item)
  {
  }

  class HashtagSyncService {
    var run: Run
    var raw: seq<DataPoint>
    const media: MediaTable
    var assets: map<string, Asset>
    var jobs: seq<string>
    var clock: int
    /** The machine's state and the steps taken since the call began. */
    ghost var machine: State
    ghost var acts: seq<Action>

    ghost function Contents(): Db
      reads this, media
    {
      Db(run, raw, media.Contents(), assets, jobs)
    }

    /** The tables are those of the machine after the steps recorded. */
    ghost predicate InStep(u: Setup, start: State)
      reads this, media
    {
      Steps(u, start, acts) == Some(machine) && machine.db == Contents() && machine.clock == clock && OneCall(acts)
    }

    constructor (table: MediaTable, clock: int)
      ensures media == table && run == Run(Running, 0, 0, None, false)
    {
      run, raw, assets, jobs := Run(Running, 0, 0, None, false), [], map[], [];
      media, this.clock := table, clock;
    }

    /** Records that the tables now are what one step of the machine makes them. */
    ghost method Take(u: Setup, start: State, a: Action, next: State)
      requires Steps(u, start, acts) == Some(machine) && OneCall(acts + [a])
      requires Apply(u, machine, a) == Some(next) && next.db == Contents() && next.clock == clock
      modifies this`machine, this`acts
      ensures machine == next && acts == old(acts) + [a] && InStep(u, start)
    {
      hide Apply;
      StepsPush(u, start, acts, a);
      machine, acts := next, acts + [a];
    }

    /** Step 2: the curated row. */
    method UpsertOne(u: Setup, ghost start: State, seen: nat, page: MediaPage, index: nat, newId: nat, fault: Fault)
      returns (ok: bool)
      requires InStep(u, start) && index < |page.items| && machine.proc == Curating(seen, page, index)
      modifies this`clock, this`machine, this`acts, media
      ensures InStep(u, start) && machine.base == old(machine.base)
      ensures if ok then machine.proc == Attaching(seen, page, index) else Stopped(seen, page)
      ensures ok == (fault.NoFault? && page.items[index].takenAt.Some?)
    {
      hide Upsert, Report, RowAdded, Steps, OneCall;
      hide PickupRun, FetchPage, RecordRaw, EnsureAssetRow, EnqueueDownload, CountPage, RecordPageProgress, CheckCap;
      hide FinishRun, CatchError, MoveAsset;
      if fault.LostWrite? { return false; }
      var item := page.items[index];
      var rank := seen + index + 1;
      var sighting := Sighting(item, u.edge.hashtagId, u.edge.syncRunId, u.edge.source, rank, clock + 1, newId);
      var result := media.UpsertMedia(sighting);
      RejectedChangesNothing(machine.db.curated, sighting);
      if result.None? { return false; }
      clock := clock + 1;
      OneMore(acts, UpsertItem(clock, newId));
      Take(u, start, UpsertItem(clock, newId),
           machine.(db := machine.db.(curated := Upsert(machine.db.curated, sighting)),
                    proc := Attaching(seen, page, index),
                    clock := clock, visits := machine.visits + [Visit(seen + index, clock, newId)]));
      return fault.NoFault?;
    }

    /** Step 3, the asset row, and whether a download is wanted. */
    method AttachRow(u: Setup, ghost start: State, seen: nat, page: MediaPage, index: nat, fault: Fault)
      returns (ok: bool, wanted: bool)
      requires InStep(u, start) && index < |page.items| && machine.proc == Attaching(seen, page, index)
      modifies this`assets, this`machine, this`acts
      ensures InStep(u, start) && machine.base == old(machine.base)
      ensures !ok ==> Stopped(seen, page)
      ensures ok ==> machine.proc == if wanted then Queueing(seen, page, index) else Curating(seen, page, index + 1)
      ensures ok == fault.NoFault?
      ensures ok ==> page.items[index].id in assets && RowWritten(old(assets), assets, page.items[index])
                     && wanted == (assets[page.items[index].id].status == Pending && HasUrl(page.items[index]))
    {
      hide EnsurePending, Steps, OneCall, RowWritten, OthersKept, ItemAttached, PageAttached;
      hide PickupRun, FetchPage, RecordRaw, UpsertNext, EnqueueDownload, CountPage, RecordPageProgress, CheckCap;
      hide FinishRun, CatchError, MoveAsset;
      if fault.LostWrite? { return false, false; }
      var item := page.items[index];
      EnsureWritesOneRow(assets, item);
      assets := EnsurePending(assets, item.id, item.mediaUrl);
      wanted := assets[item.id].status == Pending && Usable(item.mediaUrl);
      OneMore(acts, EnsureAsset);
      Take(u, start, EnsureAsset,
           machine.(db := machine.db.(assets := assets),
                    proc := if wanted then Queueing(seen, page, index) else Curating(seen, page, index + 1)));
      ok := fault.NoFault?;
    }

    /** Step 3: the asset row, and a download job when one is wanted. */
    method AttachOne(u: Setup, ghost start: State, seen: nat, page: MediaPage, index: nat, assetFault: Fault,
        jobFault: Fault)
      returns (ok: bool)
      requires InStep(u, start) && index < |page.items| && machine.proc == Attaching(seen, page, index)
      modifies this`assets, this`jobs, this`machine, this`acts
      ensures InStep(u, start) && machine.base == old(machine.base)
      ensures if ok then machine.proc == Curating(seen, page, index + 1) else Stopped(seen, page)
      ensures !ok ==> !assetFault.NoFault? || !jobFault.NoFault?
      ensures ok ==> RowWritten(old(assets), assets, page.items[index])
                     && JobLogged(assets, old(jobs), jobs, page.items[index])
    {
      hide EnsurePending, Steps, OneCall, RowWritten, HasUrl, OthersKept, ItemAttached, PageAttached;
      hide PickupRun, FetchPage, RecordRaw, UpsertNext, EnsureAssetRow, CountPage, RecordPageProgress, CheckCap;
      hide FinishRun, CatchError, MoveAsset;
      var wanted;
      ok, wanted := AttachRow(u, start, seen, page, index, assetFault);
      if !ok || !wanted { return; }
      if jobFault.LostWrite? { return false; }
      var item := page.items[index];
      jobs := jobs + [item.id];
      OneMore(acts, Enqueue);
      Take(u, start, Enqueue, machine.(db := machine.db.(jobs := jobs), proc := Curating(seen, page, index + 1)));
      return jobFault.NoFault?;
    }

    /** Step 1: the raw rows. */
    method LandPage(u: Setup, ghost start: State, seen: nat, page: MediaPage, fault: Fault) returns (ok: bool)
      requires InStep(u, start) && machine.proc == Landing(seen, page)
      modifies this`raw, this`machine, this`acts
      ensures InStep(u, start) && machine.base == old(machine.base)
      ensures if ok then machine.proc == Curating(seen, page, 0) else Stopped(seen, page)
      ensures ok == fault.NoFault?
    {
      hide Steps, OneCall, RawRows;
      if fault.LostWrite? { return false; }
      raw := raw + RawRows(page, seen);
      OneMore(acts, LandRaw);
      Take(u, start, LandRaw, machine.(db := machine.db.(raw := raw), proc := Curating(seen, page, 0)));
      return fault.NoFault?;
    }

    /** A throw while the page is being persisted: nothing after it was written, and nothing counted. */
    ghost predicate Stopped(seen: nat, page: MediaPage)
      reads this`machine
    {
      var p := machine.proc;
      (p.Landing? || p.Curating? || p.Attaching? || p.Queueing?) && p.seen == seen && p.page == page
    }

    /** Steps 1 to 3 for a page that starts at position `at` of the edge, and why they stopped short. */
    method PersistPage(u: Setup, ghost start: State, seen: nat, page: MediaPage, at: nat, newIds: nat -> nat,
        world: Write -> Fault)
      returns (cause: Option<Cause>)
      requires InStep(u, start) && machine.proc == Landing(seen, page)
      requires at + |page.items| <= |u.edge.items| && page.items == u.edge.items[at..at + |page.items|]
      modifies this`raw, this`assets, this`jobs, this`clock, this`machine, this`acts, media
      ensures InStep(u, start) && machine.base == old(machine.base)
      ensures if cause.None? then machine.proc == Curating(seen, page, |page.items|) else Stopped(seen, page)
      ensures cause.None? ==> PageAttached(old(assets), assets, old(jobs), jobs, page.items)
      ensures cause.Some? ==> !cause.value.NoPage? && Happened(u, [], world, 0, 0, cause.value)
      ensures cause.Some? ==> !AfterTheWalk(cause.value)
    {
      hide InStep, RowWritten, JobLogged, PageAttached;
      var n := page.pageNumber;
      var ok := LandPage(u, start, seen, page, world(RawWrite(n)));
      if !ok { return Some(WriteThrew(RawWrite(n))); }
      NoneAttached(assets, jobs);
      for index := 0 to |page.items|
        invariant InStep(u, start) && machine.base == old(machine.base) && machine.proc == Curating(seen, page, index)
        invariant PageAttached(old(assets), assets, old(jobs), jobs, page.items[..index])
      {
        ghost var mid, midJobs := assets, jobs;
        ok := UpsertOne(u, start, seen, page, index, newIds(seen + index), world(PostWrite(n, index)));
        if !ok {
          return Some(if world(PostWrite(n, index)).NoFault? then BadTimestamp(at + index)
                      else WriteThrew(PostWrite(n, index)));
        }
        ok := AttachOne(u, start, seen, page, index, world(AssetWrite(n, index)), world(JobWrite(n, index)));
        if !ok {
          return Some(WriteThrew(if world(AssetWrite(n, index)).NoFault? then JobWrite(n, index)
                                 else AssetWrite(n, index)));
        }
        OneMoreAttached(old(assets), mid, assets, old(jobs), midJobs, jobs, page.items[..index], page.items[index]);
        assert page.items[..index] + [page.items[index]] == page.items[..index + 1];
      }
      assert page.items[..|page.items|] == page.items;
      return None;
    }

    /** Step 4: counters and cursor, in one write, after everything else of the page. */
    method RecordProgress(u: Setup, ghost start: State, seen: nat, page: MediaPage, fault: Fault) returns (ok: bool)
      requires InStep(u, start) && machine.proc == Curating(seen, page, |page.items|)
      modifies this`run, this`machine, this`acts
      ensures InStep(u, start) && machine.base == old(machine.base)
      ensures machine.proc == if fault.LostWrite? then Progressing(seen + |page.items|, page)
                              else Counted(seen + |page.items|, page)
      ensures run.itemsSeen == old(run.itemsSeen) + if fault.LostWrite? then 0 else |page.items|
      ensures run.pagesFetched == old(run.pagesFetched) + if fault.LostWrite? then 0 else 1
      ensures if fault.LostWrite? || page.nextCursor.None? then run.lastCursor == old(run.lastCursor)
              else run.lastCursor == page.nextCursor
      ensures run.status == old(run.status) && ok == fault.NoFault?
    {
      hide Steps, OneCall;
      hide PickupRun, FetchPage, RecordRaw, UpsertNext, EnsureAssetRow, EnqueueDownload, CheckCap;
      hide FinishRun, CatchError, MoveAsset;
      OneMore(acts, EndPage);
      Take(u, start, EndPage, machine.(proc := Progressing(seen + |page.items|, page)));
      if fault.LostWrite? { return false; }
      run := run.(pagesFetched := run.pagesFetched + 1, itemsSeen := run.itemsSeen + |page.items|);
      if page.nextCursor.Some? { run := run.(lastCursor := page.nextCursor); }
      OneMore(acts, SyncProtocol.RecordProgress);
      Take(u, start, SyncProtocol.RecordProgress,
           machine.(db := machine.db.(run := run), proc := Counted(seen + |page.items|, page)));
      return fault.NoFault?;
    }

    /** A page from its raw rows to its count. `counted` is the local count afterwards. */
    method TakePage(u: Setup, ghost start: State, seen: nat, page: MediaPage, at: nat, newIds: nat -> nat,
        world: Write -> Fault)
      returns (cause: Option<Cause>, counted: nat)
      requires InStep(u, start) && machine.proc == Landing(seen, page)
      requires at + |page.items| <= |u.edge.items| && page.items == u.edge.items[at..at + |page.items|]
      modifies this`run, this`raw, this`assets, this`jobs, this`clock, this`machine, this`acts, media
      ensures InStep(u, start) && machine.base == old(machine.base) && run.status == old(run.status)
      ensures cause.None? ==> machine.proc == Counted(counted, page) && counted == seen + |page.items|
                              && run.itemsSeen == old(run.itemsSeen) + |page.items|
      ensures cause.Some? ==> !AfterTheWalk(cause.value)
      ensures cause.Some? ==> !cause.value.NoPage? && Happened(u, [], world, 0, 0, cause.value)
                              && !machine.proc.Down? && !machine.proc.Closing? && !machine.proc.Marking?
                              && machine.proc.seen == counted
      ensures seen <= counted && old(run.itemsSeen) <= run.itemsSeen <= old(run.itemsSeen) + (counted - seen)
      ensures run.itemsSeen < old(run.itemsSeen) + (counted - seen) ==> world(ProgressWrite(page.pageNumber)).LostWrite?
    {
      hide InStep;
      cause := PersistPage(u, start, seen, page, at, newIds, world);
      if cause.Some? { return cause, seen; }
      counted := seen + |page.items|;
      var stored := RecordProgress(u, start, seen, page, world(ProgressWrite(page.pageNumber)));
      if !stored { cause := Some(WriteThrew(ProgressWrite(page.pageNumber))); }
    }

    /** The cap ends the loop, and so does a page that is empty or has no next cursor. */
    method WantsMore(u: Setup, ghost start: State, seen: nat, page: MediaPage) returns (going: bool, hitCap: bool)
      requires InStep(u, start) && machine.proc == Counted(seen, page)
      modifies this`machine, this`acts
      ensures InStep(u, start) && machine.base == old(machine.base)
      ensures going == (seen < u.maxItems && page.nextCursor.Some? && page.items != [])
      ensures hitCap == (seen >= u.maxItems)
      ensures going ==> page.nextCursor.Some? && machine.proc == Fetching(seen, page.nextCursor.value, page.pageNumber)
      ensures !going ==> machine.proc == Closing(seen, hitCap)
    {
      hide Steps, OneCall;
      hitCap := seen >= u.maxItems;
      going := !hitCap && page.nextCursor.Some? && page.items != [];
      OneMore(acts, SyncProtocol.NextPage);
      Take(u, start, SyncProtocol.NextPage,
           machine.(proc := if going then Fetching(seen, page.nextCursor.value, page.pageNumber)
                            else Closing(seen, hitCap)));
    }

    /** A page the paginator could yield here, if the reply is one. */
    method NextPage(u: Setup, ghost start: State, seen: nat, cursor: nat, number: nat, reply: Reply)
      returns (page: Option<MediaPage>)
      requires InStep(u, start) && machine.proc == Fetching(seen, cursor, number)
      modifies this`machine, this`acts
      ensures InStep(u, start) && machine.base == old(machine.base)
      ensures page.None? ==> machine == old(machine)
      ensures page.Some? ==> machine.proc == Landing(seen, page.value) && page.value.pageNumber == number + 1
      ensures page.Some? <==> PossiblePage(u, seen, cursor, reply.count, reply.more)
      ensures page.Some? ==> |page.value.items| == reply.count
                             && page.value.items == u.edge.items[cursor..cursor + reply.count]
                             && page.value.nextCursor == if reply.more then Some(cursor + reply.count) else None
    {
      hide Steps, OneCall;
      if !PossiblePage(u, seen, cursor, reply.count, reply.more) { return None; }
      var got := MediaPage(u.edge.items[cursor..cursor + reply.count],
                      if reply.more then Some(cursor + reply.count) else None, number + 1);
      OneMore(acts, Fetch(reply.count, reply.more));
      Take(u, start, Fetch(reply.count, reply.more), machine.(proc := Landing(seen, got)));
      return Some(got);
    }

    /** What the catch block makes of the run, unless its own write is lost too. */
    static function Caught(before: Run, seen: nat, base: nat, hitCap: bool, fault: Fault): Run {
      if fault.LostWrite? then before
      else before.(status := if seen > base then Partial else Failed, hitItemCap := hitCap)
    }

    /** The catch block. When its write is lost the process ends as if it had crashed. */
    method Catch(u: Setup, ghost start: State, seen: nat, base: nat, hitCap: bool, fault: Fault)
      requires InStep(u, start) && !machine.proc.Down? && machine.proc.seen == seen && machine.base == base
      requires hitCap == ((machine.proc.Closing? || machine.proc.Marking?) && machine.proc.hitCap)
      modifies this`run, this`machine, this`acts
      ensures InStep(u, start) && machine.proc.Down?
      ensures run == Caught(old(run), seen, base, hitCap, fault) && run.itemsSeen == old(run.itemsSeen)
      ensures run.status == if fault.LostWrite? then old(run.status) else if seen > base then Partial else Failed
      ensures !fault.LostWrite? ==> run.hitItemCap == hitCap
    {
      hide Steps, OneCall;
      if fault.LostWrite? {
        OneMore(acts, Crash);
        Take(u, start, Crash, machine.(proc := Down));
        return;
      }
      run := run.(status := if seen > base then Partial else Failed, hitItemCap := hitCap);
      OneMore(acts, Throw);
      Take(u, start, Throw, machine.(db := machine.db.(run := run), proc := Down));
    }

    /** Resumes the run where its row says; the resumed state is `start`. */
    method Resume(u: Setup, ghost start: State) returns (seen: nat, cursor: nat)
      requires start.db == Contents() && start.clock == clock && start.proc.Down? && run.status.Running?
      modifies this`machine, this`acts
      ensures InStep(u, start) && seen == run.itemsSeen == machine.base && cursor == Position(run.lastCursor)
      ensures machine.proc == if seen < u.maxItems then Fetching(seen, cursor, 0) else Closing(seen, false)
    {
      hide Steps;
      seen, cursor := run.itemsSeen, Position(run.lastCursor);
      machine, acts := start, [];
      StartsHere(u, start);
      Take(u, start, Pickup, start.(base := seen,
           proc := if seen < u.maxItems then Fetching(seen, cursor, 0) else Closing(seen, false)));
    }

    /** finishRun and then markSyncSucceeded, which stands inside the same try. */
    method Succeed(u: Setup, ghost start: State, seen: nat, base: nat, hitCap: bool, world: Write -> Fault)
      returns (ok: bool)
      requires InStep(u, start) && machine.proc == Closing(seen, hitCap) && machine.base == base
      modifies this`run, this`machine, this`acts
      ensures InStep(u, start) && machine.proc.Down?
      ensures ok == (world(FinishWrite).NoFault? && world(MarkWrite).NoFault?)
      ensures var finished := if world(FinishWrite).LostWrite? then old(run)
                              else old(run).(status := Succeeded, hitItemCap := hitCap);
              run == if ok then finished else Caught(finished, seen, base, hitCap, world(CatchWrite))
      ensures run.itemsSeen == old(run.itemsSeen) && (ok ==> run.status.Succeeded? && run.hitItemCap == hitCap)
      ensures !ok && !world(CatchWrite).LostWrite? ==>
                run.status == (if seen > base then Partial else Failed) && run.hitItemCap == hitCap
      ensures !ok && world(CatchWrite).LostWrite? ==> run.status == old(run.status) || run.status.Succeeded?
    {
      hide Steps, OneCall;
      hide PickupRun, FetchPage, RecordRaw, UpsertNext, EnsureAssetRow, EnqueueDownload, CountPage, CheckCap;
      hide RecordPageProgress, CatchError, MoveAsset;
      if !world(FinishWrite).LostWrite? {
        run := run.(status := Succeeded, hitItemCap := hitCap);
        OneMore(acts, Finish);
        Take(u, start, Finish, machine.(db := machine.db.(run := run), proc := Marking(seen, hitCap)));
      }
      if !world(FinishWrite).NoFault? || !world(MarkWrite).NoFault? {
        Catch(u, start, seen, base, hitCap, world(CatchWrite));
        return false;
      }
      OneMore(acts, MarkHashtag);
      Take(u, start, MarkHashtag, machine.(proc := Down));
      return true;
    }

    /**
     * One call of runSync on a running run, against whatever the paginator yields (it throws when
     * `replies` has no possible page left) and whatever write throws, before or after it was
     * committed. The tables end as one schedule of the machine leaves them, so everything proved of
     * all schedules holds of this loop. `seen` is the local count the catch block goes by. A call
     * fails only for a cause that is real, so one that nothing goes wrong in succeeds.
     */
    method RunSync(u: Setup, replies: seq<Reply>, newIds: nat -> nat, world: Write -> Fault, ghost start: State)
      returns (cause: Option<Cause>, seen: nat)
      requires start.db == Contents() && start.clock == clock && start.proc.Down? && run.status.Running?
      modifies this, media
      ensures InStep(u, start) && machine.proc.Down?
      ensures cause.None? ==> run.status.Succeeded? && seen == run.itemsSeen
                              && (run.hitItemCap <==> run.itemsSeen >= u.maxItems && old(run.itemsSeen) < u.maxItems)
      ensures cause.Some? && !world(CatchWrite).LostWrite? ==>
                run.status == if seen > old(run.itemsSeen) then Partial else Failed
      ensures cause.Some? && !world(CatchWrite).LostWrite? ==>
                (run.hitItemCap <==>
                   AfterTheWalk(cause.value) && run.itemsSeen >= u.maxItems && old(run.itemsSeen) < u.maxItems)
      ensures cause.Some? && world(CatchWrite).LostWrite? ==> run.status.Running? || run.status.Succeeded?
      ensures old(run.itemsSeen) <= run.itemsSeen <= seen
      ensures run.itemsSeen < seen ==> exists page :: world(ProgressWrite(page)).LostWrite?
      ensures cause.Some? ==>
                Happened(u, replies, world, old(run.itemsSeen), old(Position(run.lastCursor)), cause.value)
      ensures NothingToBlame(u, replies, world, old(run.itemsSeen), old(Position(run.lastCursor))) ==> cause.None?
    {
      hide InStep, PossiblePage, EnoughPages, Happened, NothingToBlame, Position, Stopped, OneCall;
      hide HashtagSyncService.Contents, HashtagSyncService.Caught, Steps, AllParse;
      var cursor: nat;
      seen, cursor := Resume(u, start);
      ghost var at := Position(run.lastCursor);
      var base: nat, number: nat, hitCap, i := seen, 0, false, 0;
      cause := None;
      var going := seen < u.maxItems;
      while going
        invariant InStep(u, start) && machine.base == base && i <= |replies|
        invariant old(run.itemsSeen) == base <= seen == run.itemsSeen && run.status.Running?
        invariant cause.None? && (hitCap || going ==> base < u.maxItems)
        invariant !going ==> hitCap == (seen >= u.maxItems && base < u.maxItems)
        invariant going ==> machine.proc == Fetching(seen, cursor, number) && !hitCap && seen < u.maxItems
        invariant !going ==> machine.proc == Closing(seen, hitCap)
        invariant going && EnoughPages(u, base, at, replies) ==> EnoughPages(u, seen, cursor, replies[i..])
        decreases |replies| - i, going
      {
        NextIsNeeded(u, seen, cursor, replies[i..]);
        var page := None;
        if i < |replies| { page := NextPage(u, start, seen, cursor, number, replies[i]); }
        if page.None? {
          WalkBrokeOff(u, replies, world, base, at);
          cause := Some(NoPage);
          break;
        }
        assert replies[i..][1..] == replies[i + 1..];
        i := i + 1;
        CutsThePage(u, seen, cursor, replies[i - 1]);
        cause, seen := TakePage(u, start, seen, page.value, cursor, newIds, world);
        if cause.Some? {
          CausesCarryOver(u, replies, world, base, at, cause.value);
          break;
        }
        number := page.value.pageNumber;
        going, hitCap := WantsMore(u, start, seen, page.value);
        if going { cursor := page.value.nextCursor.value; }
      }
      if cause.Some? {
        Catch(u, start, seen, base, false, world(CatchWrite));
        return;
      }
      var ok := Succeed(u, start, seen, base, hitCap, world);
      if !ok {
        cause := Some(WriteThrew(if world(FinishWrite).NoFault? then MarkWrite else FinishWrite));
        WriteIsACause(u, replies, world, base, at, cause.value.w);
      }
    }
  }

  /** Below the cap, a whole walk needs a possible page next, and the rest of it after that page. */
  lemma NextIsNeeded(u: Setup, seen: nat, cursor: nat, replies: seq<Reply>)
    requires seen < u.maxItems
    ensures EnoughPages(u, seen, cursor, replies) ==>
              replies != [] && PossiblePage(u, seen, cursor, replies[0].count, replies[0].more)
              && (replies[0].more && replies[0].count > 0 ==>
                    EnoughPages(u, seen + replies[0].count, cursor + replies[0].count, replies[1..]))
  {
  }

  lemma WalkBrokeOff(u: Setup, replies: seq<Reply>, world: Write -> Fault, seen: nat, cursor: nat)
    requires !EnoughPages(u, seen, cursor, replies)
    ensures Happened(u, replies, world, seen, cursor, NoPage)
    ensures !NothingToBlame(u, replies, world, seen, cursor)
  {
  }

  /** A cause that is not the walk's is one whatever the walk. */
  lemma CausesCarryOver(u: Setup, replies: seq<Reply>, world: Write -> Fault, seen: nat, cursor: nat, cause: Cause)
    requires !cause.NoPage? && Happened(u, [], world, 0, 0, cause)
    ensures Happened(u, replies, world, seen, cursor, cause)
    ensures !NothingToBlame(u, replies, world, seen, cursor)
  {
  }

  lemma WriteIsACause(u: Setup, replies: seq<Reply>, world: Write -> Fault, seen: nat, cursor: nat, w: Write)
    requires !world(w).NoFault?
    ensures Happened(u, replies, world, seen, cursor, WriteThrew(w))
    ensures !NothingToBlame(u, replies, world, seen, cursor)
  {
  }

  lemma CutsThePage(u: Setup, seen: nat, cursor: nat, reply: Reply)
    requires PossiblePage(u, seen, cursor, reply.count, reply.more)
    ensures cursor + reply.count <= |u.edge.items|
  {
  }

  lemma StartsHere(u: Setup, start: State)
    ensures Steps(u, start, []) == Some(start)
  {
  }

  lemma OneMore(acts: seq<Action>, a: Action)
    requires OneCall(acts) && a != Pickup && !a.WorkerMoves?
    ensures OneCall(acts + [a])
  {
  }

  /**
   * What RunSync leaves is covered by the theorems on schedules: after any schedule that avoided
   * the window, one call outside it extends that schedule to another.
   */
  lemma {:induction false} CallExtendsSchedule(u: Setup, before: seq<Action>, acts: seq<Action>)
    requires AvoidsWindow(u, before) && After(u, before).Some? && !Overcounts(u, After(u, before).value.db.run)
    requires OneCall(acts) && Steps(u, After(u, before).value, acts).Some?
    ensures AvoidsWindow(u, before + acts)
    ensures After(u, before + acts) == Steps(u, After(u, before).value, acts)
  {
    hide After, Overcounts, Steps;
    var all := before + acts;
    AfterSteps(u, before, acts);
    forall k | 0 <= k < |all| && all[k] == Pickup && After(u, all[..k]).Some?
      ensures !Overcounts(u, After(u, all[..k]).value.db.run)
    {
      if k < |before| {
        assert all[..k] == before[..k];
      } else {
        assert all[k] == acts[k - |before|];
        assert all[..k] == before;
      }
    }
  }

  /**
   * The client keeps the protocol's side of the bargain: every page of a walk it delivers from the
   * run's cursor, unless cut short by an empty page, is one that the protocol's fetch step can take.
   */
  lemma {:induction false} WalkedPagesArePossible(
    u: Setup, s: State, pages: seq<MediaPage>, complete: bool, seen: nat, cursor: nat, k: nat)
    requires seen <= u.maxItems && cursor <= |u.edge.items| && k < |pages|
    requires MetaGraphClient.Delivers(pages, complete, u.edge.items, cursor, u.maxItems - seen)
    requires !MetaGraphClient.CutShort(pages, u.edge.items, cursor)
    requires s.proc == Fetching(seen + MetaGraphClient.TotalItems(pages[..k]),
                                cursor + MetaGraphClient.TotalItems(pages[..k]), k)
    ensures var step := Fetch(|pages[k].items|, pages[k].nextCursor.Some?);
            Apply(u, s, step) == Some(s.(proc := Landing(seen + MetaGraphClient.TotalItems(pages[..k]),
                                                         MediaPage(pages[k].items, pages[k].nextCursor, k + 1))))
  {
    hide MetaGraphClient.TotalItems, MetaGraphClient.Follow;
    MetaGraphClient.FollowPlaces(pages, u.edge.items, cursor, k);
  }
}
