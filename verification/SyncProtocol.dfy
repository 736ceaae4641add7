/**
 * One sync run as small steps, with a crash or an exception possible between any two. Each page is
 * written in a fixed order: raw rows, then per item the curated row, the asset row and its download
 * job, and the cursor last. Meta's edge is a fixed sequence and a cursor is a position in it.
 */
module SyncProtocol {
  import opened MetaTypes
  import opened MediaRepository
  import opened HistoryLaws
  import opened EdgeWalk

  datatype Run = Run(
    status: RunStatus, pagesFetched: nat, itemsSeen: nat, lastCursor: Option<nat>, hitItemCap: bool)

  datatype DataPoint = DataPoint(positionOverall: nat, pageNumber: nat, positionInPage: nat, payload: Media)

  datatype Asset = Asset(status: AssetStatus, fetchedFromUrl: Option<string>)

  /** The tables a run writes. `assets` has one row per post; `jobs` logs the downloads enqueued. */
  datatype Db = Db(run: Run, raw: seq<DataPoint>, curated: Curated, assets: map<string, Asset>, jobs: seq<string>)

  /** Where the process is. `seen` is its local itemsSeen. */
  datatype Proc =
    | Down
    | Fetching(seen: nat, cursor: nat, number: nat)
    | Landing(seen: nat, page: MediaPage)
    | Curating(seen: nat, page: MediaPage, index: nat)
    | Attaching(seen: nat, page: MediaPage, index: nat)
    | Queueing(seen: nat, page: MediaPage, index: nat)
    | Progressing(seen: nat, page: MediaPage)
    | Counted(seen: nat, page: MediaPage)
    | Closing(seen: nat, hitCap: bool)
    | Marking(seen: nat, hitCap: bool)

  /** `base` is itemsSeen when the process picked the run up; `visits` records the upserts made. */
  datatype State = State(db: Db, proc: Proc, base: nat, clock: int, visits: seq<Visit>)

  datatype Setup = Setup(edge: Edge, maxItems: nat, curated: Curated, assets: map<string, Asset>, clock: int)

  datatype Action =
    | Pickup
    | Fetch(count: nat, more: bool)
    | LandRaw
    | UpsertItem(now: int, newId: nat)
    | EnsureAsset
    | Enqueue
    | EndPage
    | RecordProgress
    | NextPage
    | Finish
    | MarkHashtag
    | Throw
    | Crash
    | WorkerMoves(id: string, status: AssetStatus)

  function Init(u: Setup): State {
    State(Db(Run(Running, 0, 0, None, false), [], u.curated, u.assets, []), Down, 0, u.clock, [])
  }

  /** The rows recordPage inserts for a page that starts `offset` items into the run. */
  function RawRows(page: MediaPage, offset: nat): seq<DataPoint> {
    seq(|page.items|, i requires 0 <= i < |page.items| => DataPoint(offset + i, page.pageNumber, i, page.items[i]))
  }

  /** INSERT ... ON CONFLICT (media_id) DO UPDATE SET fetched_from_url: the status is kept. */
  function EnsurePending(assets: map<string, Asset>, id: string, url: Option<string>): (r: map<string, Asset>)
    ensures r.Keys == assets.Keys + {id}
  {
    assets[id := if id in assets then assets[id].(fetchedFromUrl := url)
                 else Asset(if Usable(url) then Pending else Skipped, url)]
  }

  function ItemSighting(u: Setup, p: Proc, now: int, newId: nat): Sighting
    requires p.Curating? && p.index < |p.page.items|
  {
    Sighting(p.page.items[p.index], u.edge.hashtagId, u.edge.syncRunId, u.edge.source, p.seen + p.index + 1, now, newId)
  }

  /** Resumes the running run where its row says, or closes it when the cap is already met. */
  function PickupRun(u: Setup, s: State): Option<State> {
    var run := s.db.run;
    if s.proc.Down? && run.status == Running then
      Some(s.(base := run.itemsSeen,
              proc := if run.itemsSeen < u.maxItems then Fetching(run.itemsSeen, Position(run.lastCursor), 0)
                      else Closing(run.itemsSeen, false)))
    else None
  }

  /**
   * Any page the paginator can yield: at most what is still wanted or there is, empty only at the
   * end of the edge, and with a cursor unless the end is reached.
   */
  predicate PossiblePage(u: Setup, seen: nat, cursor: nat, count: nat, more: bool) {
    cursor + count <= |u.edge.items| && seen + count <= u.maxItems
    && (count == 0 ==> cursor == |u.edge.items|) && (cursor + count < |u.edge.items| ==> more)
  }

  function FetchPage(u: Setup, s: State, n: nat, more: bool): Option<State> {
    var p := s.proc;
    if p.Fetching? && PossiblePage(u, p.seen, p.cursor, n, more) then
      Some(s.(proc := Landing(p.seen, MediaPage(u.edge.items[p.cursor..p.cursor + n],
                                                if more then Some(p.cursor + n) else None, p.number + 1))))
    else None
  }

  function RecordRaw(s: State): Option<State> {
    var p := s.proc;
    if p.Landing? then
      Some(s.(db := s.db.(raw := s.db.raw + RawRows(p.page, p.seen)), proc := Curating(p.seen, p.page, 0)))
    else None
  }

  function UpsertNext(u: Setup, s: State, now: int, newId: nat): Option<State> {
    var p := s.proc;
    if p.Curating? && p.index < |p.page.items| && Accepted(ItemSighting(u, p, now, newId)) && s.clock < now then
      Some(s.(db := s.db.(curated := Upsert(s.db.curated, ItemSighting(u, p, now, newId))),
              proc := Attaching(p.seen, p.page, p.index),
              clock := now,
              visits := s.visits + [Visit(p.seen + p.index, now, newId)]))
    else None
  }

  /** A download is wanted when the row is pending after the insert and the item carries a URL. */
  function EnsureAssetRow(s: State): Option<State> {
    var p := s.proc;
    if p.Attaching? && p.index < |p.page.items| then
      var item := p.page.items[p.index];
      var assets := EnsurePending(s.db.assets, item.id, item.mediaUrl);
      Some(s.(db := s.db.(assets := assets),
              proc := if assets[item.id].status == Pending && Usable(item.mediaUrl)
                      then Queueing(p.seen, p.page, p.index)
                      else Curating(p.seen, p.page, p.index + 1)))
    else None
  }

  function EnqueueDownload(s: State): Option<State> {
    var p := s.proc;
    if p.Queueing? && p.index < |p.page.items| then
      Some(s.(db := s.db.(jobs := s.db.jobs + [p.page.items[p.index].id]),
              proc := Curating(p.seen, p.page, p.index + 1)))
    else None
  }

  function CountPage(s: State): Option<State> {
    var p := s.proc;
    if p.Curating? && p.index == |p.page.items| then Some(s.(proc := Progressing(p.seen + |p.page.items|, p.page)))
    else None
  }

  /** A missing next cursor leaves the stored one as it was. */
  function RecordPageProgress(s: State): Option<State> {
    var p, run := s.proc, s.db.run;
    if p.Progressing? then
      Some(s.(db := s.db.(run := run.(
                pagesFetched := run.pagesFetched + 1,
                itemsSeen := run.itemsSeen + |p.page.items|,
                lastCursor := if p.page.nextCursor.Some? then p.page.nextCursor else run.lastCursor)),
              proc := Counted(p.seen, p.page)))
    else None
  }

  function CheckCap(u: Setup, s: State): Option<State> {
    var p := s.proc;
    if p.Counted? then
      Some(s.(proc := if p.seen >= u.maxItems then Closing(p.seen, true)
                      else if p.page.nextCursor.None? || p.page.items == [] then Closing(p.seen, false)
                      else Fetching(p.seen, p.page.nextCursor.value, p.page.pageNumber)))
    else None
  }

  function FinishRun(s: State): Option<State> {
    var p := s.proc;
    if p.Closing? then
      Some(s.(db := s.db.(run := s.db.run.(status := Succeeded, hitItemCap := p.hitCap)),
          proc := Marking(p.seen, p.hitCap)))
    else None
  }

  /** The catch block, which runs whatever threw: markSyncSucceeded, after finishRun, included. */
  function CatchError(s: State): Option<State> {
    var p := s.proc;
    if p.Down? then None
    else
      Some(s.(db := s.db.(run := s.db.run.(
                status := if p.seen > s.base then Partial else Failed,
                hitItemCap := (p.Closing? || p.Marking?) && p.hitCap)),
              proc := Down))
  }

  /** A worker moves an asset row on; nothing ever moves one back to pending. */
  function MoveAsset(s: State, id: string, status: AssetStatus): Option<State> {
    if id in s.db.assets && status != Pending then
      Some(s.(db := s.db.(assets := s.db.assets[id := s.db.assets[id].(status := status)])))
    else None
  }

  /** One step, or None when it is not possible here. */
  function Apply(u: Setup, s: State, a: Action): Option<State> {
    match a
    case Pickup => PickupRun(u, s)
    case Fetch(n, more) => FetchPage(u, s, n, more)
    case LandRaw => RecordRaw(s)
    case UpsertItem(now, newId) => UpsertNext(u, s, now, newId)
    case EnsureAsset => EnsureAssetRow(s)
    case Enqueue => EnqueueDownload(s)
    case EndPage => CountPage(s)
    case RecordProgress => RecordPageProgress(s)
    case NextPage => CheckCap(u, s)
    case Finish => FinishRun(s)
    case MarkHashtag => if s.proc.Marking? then Some(s.(proc := Down)) else None
    case Throw => CatchError(s)
    case Crash => if s.proc.Down? then None else Some(s.(proc := Down))
    case WorkerMoves(id, status) => MoveAsset(s, id, status)
  }

  /** The state after a schedule, or None if some step of it was not possible. */
  function After(u: Setup, acts: seq<Action>): Option<State> {
    if acts == [] then Some(Init(u))
    else
      var before := After(u, acts[..|acts| - 1]);
      if before.None? then None else Apply(u, before.value, acts[|acts| - 1])
  }

  /**
   * The window the write order does not cover: the last page has no next cursor, so once it is
   * counted the stored cursor is behind itemsSeen, and a pickup before the cap would fetch it again.
   */
  predicate Overcounts(u: Setup, run: Run) {
    run.status == Running && Position(run.lastCursor) != run.itemsSeen && run.itemsSeen < u.maxItems
  }

  /** No pickup of this schedule happens in that window. */
  ghost predicate AvoidsWindow(u: Setup, acts: seq<Action>) {
    forall k :: 0 <= k < |acts| && acts[k] == Pickup && After(u, acts[..k]).Some? ==>
      !Overcounts(u, After(u, acts[..k]).value.db.run)
  }

  function Target(u: Setup): nat {
    if u.maxItems < |u.edge.items| then u.maxItems else |u.edge.items|
  }

  ghost predicate ValidSetup(u: Setup) {
    Ascending(u.curated.history) && CapturedBy(u.curated.history, u.clock)
  }
}
