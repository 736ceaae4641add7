# Verification of the hashtag ingestion pipeline

A Dafny model of an at-least-once ingestion pipeline and proofs about it. A worker walks Meta's hashtag
edges page by page, lands the raw responses, merges them into curated tables, and downloads each media file
once; a read API pages through the result while syncs keep writing. What is hard about it is state that must
stay right across crashes, redelivery and concurrent processes, and that is what is proved.

Check everything with `dafny verify dfyconfig.toml`.

| file | what it models |
|---|---|
| `MetaTypes.dfy` | the shared value types |
| `MediaRepository.dfy` | `upsertMedia` and `markStaleBefore` as methods over two tables, and the merge as functions |
| `HistoryLaws.dfy`, `UpsertLaws.dfy` | what any stream of upserts leaves in the history and in the post rows |
| `HistoryColumns.dfy` | the history laws column by column |
| `EdgeWalk.dfy` | a run's upserts as a walk over a stable edge that may jump back but never skips |
| `SyncProtocol.dfy`, `SyncProofs.dfy` | one sync run as small steps with crashes and throws between any two, and its invariant |
| `SyncLimits.dfy` | what that protocol does not protect against, with exact conditions |
| `SyncRows.dfy`, `SyncDownloads.dfy` | what a sync leaves in the raw rows, the posts, the asset rows and the job log, column by column |
| `HashtagSync.dfy` | the imperative `runSync` page loop, proved to follow that protocol |
| `SyncLock.dfy` | many sync calls, the advisory lock and the run table |
| `Replay.dfy` | the replay command and its fidelity to the live run |
| `MetaGraphClient.dfy` | the retry loop and the page-size negotiation of the Graph client |
| `InMemoryQueue.dfy`, `QueueColumns.dfy` | the local queue driver: in-place scan, receipt handles, redrive ceiling; what a pass does to each message |
| `JobRunner.dfy` | the bounded concurrent worker over that queue, and the heartbeat |
| `Drain.dfy` | the interactive drain loop over the queue |
| `HashtagMedia.dfy`, `MediaColumns.dfy` | keyset pagination, static and under concurrent writes; which rows it returns |
| `Storage.dfy`, `AssetStore.dfy` | content-addressed keys; concurrent downloads over asset rows and the object store |
| `DownloadColumns.dfy` | what each verdict of a download says about the row, the store and the response |
| `LocalDiskStorage.dfy` | the local storage driver's write-to-temp-and-rename |
| `CaptionParser.dfy` | hashtags and mentions of a caption |

Conventions. Tables are maps and sequences, a transaction is one atomic step, the database is otherwise
shared step by step. Modules named `…Columns` restate the laws of a component on single columns, without the
functions that compute them. Meta's edge is a fixed sequence of items and a cursor is a position in it. Clocks, uuids,
the answers of Meta, of the CDN and of failing calls are parameters. A concurrent component is a state machine
`Apply` over actions with `After` for whole schedules; a component that is a loop in the source is a method
with that loop, proved equal to such functions.

## Where the code and its comments differ

The model follows the code. Each point below is a lemma.

- `contentChanged` and `contentUpdatedAt` are described as firing only when durable content changed, but they
  compare with the stored permalink and type, which are never refreshed. They are right for every next
  observation exactly while the last observed permalink and type equal the first (`ContentChangedExactness`).
- The history keeps one row per (post, run), so it loses the second change of a post within one run. It is
  lossless if and only if no run sees a post change twice (`HistoryLossless`, `LosslessInColumns`).
- `isNew` is read off timestamps: two upserts of one new post in the same millisecond both report it new
  (`IsNewIsSameInstant`).
- A partial run is called resumable, but only a `running` row is ever resumed (`TerminalNeverReopened`).
  A throw after `finishRun` can still turn a succeeded run into a partial or failed one.
- The final page carries no next cursor, so the stored cursor stays behind. A crash after that page was counted
  and before `finishRun` makes the resumed run file items under wrong positions: exactly when the stored cursor
  is behind `itemsSeen` and the cap is not met (`WindowIsExact`, `WindowIsReachable`). Crash transparency excludes a
  pickup in that window. Posts come out right even then; on the top edge the history can gain rows with wrong ranks
  (`WindowEffects`).
- `hitItemCap` is false on a run that crashed right after meeting its cap (`CapFlagExactness`,
  `WrongCapFlagIsReachable`).
- The remembered page size is `pageSize`, not the limit Meta accepted. It overstates the ceiling exactly when
  the walk wanted at most the ceiling and started above it (`LearnedSizeOverstates`).
- The heartbeat is said to survive one missed extension. It does not, for any timeout
  (`OneMissedBeatExposes`); with every extension landing it is safe exactly for timeouts above 30 s (`HeartbeatSafety`).
- The drain is said to hand other consumers' jobs back. It nacks them until they are dead letters
  (`DrainAssetJobs`, through `Drained`).
- The total beside a page ignores the date filters (`TotalIsExact`).
- `stored` is treated as final. It is exactly while no other download of the post is past its look at the row
  (`StoredIsFinalExactly`, `StoredWhileInFlight`).
- The local driver's temp file is named by key and pid, which does not tell two downloads of one worker apart.
  Two overlapping puts of identical bytes can publish a truncated object (`SharedTempFilePublishesTruncated`).
  Every schedule is safe exactly when no two puts of one process to one key have something to write
  (`PutsAreSafeExactly`); a schedule is also safe while no two open puts share a temp name (`PublishedFilesAreWhole`).
- The lock is not always released when the call ends. A failed unlock leaves it with the pooled connection, and so
  does an acquire query that rejects after it was granted. A lock is left behind exactly when one of the two happened
  and the session has not been closed since (`LockLeaksExactly`), and until then it shuts out every other connection
  (`StrandedLockBlocksOthers`); mutual exclusion itself survives (`SingleActiveRun`).
- Items are upserted one by one so that a malformed one cannot lose the page. A timestamp that does not parse still
  throws out of the loop, and a run of the edge can succeed exactly when every timestamp below the cap parses
  (`SucceedsExactly`).
- The sync refreshes the URL of an asset row whatever its status. A post first seen without a URL is `skipped`, and
  when a later run, or a later occurrence in the same run, brings the URL no download is enqueued
  (`SkippedStaysUndownloaded`, `JobsAreWarranted`).

## Model

| member | source | states |
|---|---|---|
| `MediaRepository.MediaTable.UpsertMedia` | src/api/repositories/MediaRepository.ts:47-224 | one transaction takes both tables to the merged row and the extended history and reports the flags; a history row is added exactly when reported, and holds the observation's own post, run, edge, instant and six columns; an unparseable timestamp throws and changes nothing |
| `MediaRepository.MediaTable.MarkStaleBefore` | src/api/repositories/MediaRepository.ts:248-262 | flags exactly the unflagged posts of one hashtag last seen before the threshold, counts them, and leaves every other column |
| `MediaRepository.SweepsCompose` | src/api/repositories/MediaRepository.ts:248-262 | two sweeps of a hashtag are one at the later threshold, so a repeated sweep flags nothing, and sweeps of different hashtags commute |
| `MediaRepository.SeenAgainIsFresh` | src/api/repositories/MediaRepository.ts:117-118 | a post seen again is not stale, and a sweep flags it again if and only if it is of that hashtag with a threshold past the sighting |
| `HistoryLaws.HistoryLossless` | src/api/repositories/MediaRepository.ts:151-220 | on an increasing clock, looking up the history at the time of any observation gives that observation's six tracked fields, if and only if no run sees the same post change twice |
| `HistoryLaws.OncePerRunIsLossless` | src/api/repositories/MediaRepository.ts:151-220 | a stream in which each run meets each post at most once loses nothing |
| `HistoryLaws.HistoryIsTheStates` | src/api/repositories/MediaRepository.ts:151-220 | when no run sees a post change twice, the states of its history rows are its observed states with repeats of the previous one dropped, none missing and none extra |
| `HistoryLaws.SecondChangeOfARunIsDropped` | src/api/repositories/MediaRepository.ts:212-219 | two different observations of a post in one run: the history still answers with the first |
| `HistoryLaws.RowsNameTheirChanges` | src/api/repositories/MediaRepository.ts:185-188 | every row lists exactly the fields in which it differs from the previous row of its post, and at least one |
| `HistoryColumns.LosslessInColumns` | src/api/repositories/MediaRepository.ts:162-220 | on an increasing clock, the newest row of the post at the time of every observation holds its likes, comments, caption, permalink, type and rank (on Top only), if and only if no run sees the same post change twice |
| `HistoryColumns.RowsAreObservations` | src/api/repositories/MediaRepository.ts:193-211 | whatever the stream, every history row is one observation: its post, hashtag, run, edge, instant and six columns |
| `HistoryColumns.FieldsAreInOrder` | src/api/repositories/MediaRepository.ts:186-188 | a row names each changed field once, in the order in which the fields are tracked |
| `UpsertLaws.UpsertClosedForm` | src/api/repositories/MediaRepository.ts:69-140 | after any stream: frozen columns from the first observation, last-writer columns from the last, flags and minimum top rank from all |
| `UpsertLaws.OneRowPerPost` | src/api/repositories/MediaRepository.ts:61-92 | a row exists for an id if and only if some accepted observation had it |
| `UpsertLaws.StickyIgnoresOrderAndRepeats` | src/api/repositories/MediaRepository.ts:105-115 | flags and best rank depend only on the set of (source, rank) sightings, so order and repetition cannot change them |
| `UpsertLaws.IsNewExactlyOnce` | src/api/repositories/MediaRepository.ts:146-148 | on an increasing clock `isNew` holds of the first observation of a post and of no other |
| `UpsertLaws.IsNewIsSameInstant` | src/api/repositories/MediaRepository.ts:146-148 | in any stream, ordered or not, a later observation of a post reports it new if and only if it repeats the instant of the post's first one |
| `UpsertLaws.ContentChangedExactness` | src/api/repositories/MediaRepository.ts:120-149 | `contentChanged` answers "different from last time" for all next observations if and only if permalink and type are still the first ones |
| `EdgeWalk.WalkTransparent` | src/api/services/HashtagSyncService.ts:138-189 | any walk over an edge that may step back but never skips, and ends on the furthest position it reached, leaves the posts and history of going straight through once, clock readings and uuids aside |
| `EdgeWalk.WalksConcatenate` | src/api/services/HashtagSyncService.ts:99-125 | two walks one after the other are one walk |
| `EdgeWalk.NothingSkipped` | src/api/services/HashtagSyncService.ts:152-165 | every position below the furthest one reached was visited, and its timestamp parses |
| `SyncProofs.EverySafeScheduleKeepsInv` | src/api/services/HashtagSyncService.ts:80-262 | every schedule of steps, crashes, throws and resumes that avoids the final-page window keeps the run, walk, raw and job invariants |
| `SyncProofs.CrashTransparency` | src/api/services/HashtagSyncService.ts:99-229 | a run that ends succeeded, however often it crashed, counted every item up to the cap, has the right raw row at every position, and left the posts and history of an uninterrupted run |
| `SyncProofs.NoLostDownload` | src/api/services/HashtagSyncService.ts:175-204 | at any point of any schedule, pickups in the final-page window included, a counted post that came with a URL has an asset row, and if that is pending its job was enqueued |
| `SyncDownloads.NewPostsAreQueued` | src/api/repositories/MediaAssetRepository.ts:14-45 | at any point of any schedule, a counted post that had no asset row and that no worker touched is what its first occurrence on the edge made it: with a URL its row is pending and its job was enqueued, without one it is skipped and has no job |
| `SyncDownloads.CallQueuesNewPosts` | src/api/services/HashtagSyncService.ts:175-189 | the same of the tables one call of `runSync` leaves, after any schedule and whatever the call runs into |
| `SyncDownloads.JobsAreWarranted` | src/api/services/HashtagSyncService.ts:180-189 | over all schedules, a job is only logged for a post that came with a URL and whose row is pending, and stays so unless a worker moves it |
| `SyncDownloads.RowsHaveTheLastUrl` | src/api/repositories/MediaAssetRepository.ts:27-35 | a run that ends succeeded leaves on each asset row the URL of the last occurrence of its post below the cap |
| `SyncDownloads.OldRowsKeepTheirStatus` | src/api/repositories/MediaAssetRepository.ts:27-35 | over all schedules, a row that was there keeps its status unless a worker moves it, and is not touched at all when its post is not on the edge |
| `SyncProofs.WindowIsExact` | src/api/repositories/SyncRunRepository.ts:93-95 | resuming a crashed run can misfile an item if and only if the stored cursor is behind `itemsSeen` and the cap is unmet |
| `SyncProofs.WindowIsReachable` | src/api/repositories/SyncRunRepository.ts:93-95 | a one-item edge below the cap and a crash after its page was counted reach that window |
| `SyncProofs.CapFlagExactness` | src/api/services/HashtagSyncService.ts:219-228 | `hitItemCap` is right if and only if the last pickup still had something to fetch |
| `SyncProofs.WrongCapFlagIsReachable` | src/api/services/HashtagSyncService.ts:219-228 | a crash after the cap was met and a resume that only finishes leave a succeeded run at the cap with the flag false |
| `SyncProofs.TerminalNeverReopened` | src/api/repositories/SyncRunRepository.ts:33-62 | a run that left `running` is never running or picked up again, and only a succeeded run whose marking throws changes status |
| `SyncProofs.TerminalRunsAreQuiet` | src/api/services/HashtagSyncService.ts:228-243 | no process works on a run with an outcome, but for the one step after `finishRun` |
| `SyncRows.RawRowsInColumns` | src/api/repositories/DataPointRepository.ts:15-43 | at any point of any schedule, every raw row is an item of a page that was landed, with the page's number, its place in the page and its absolute position |
| `SyncRows.PagesAreCounted` | src/api/repositories/SyncRunRepository.ts:72-99 | pages are numbered from 1 within a call, and `pagesFetched` is the number of pages recorded over all calls |
| `SyncRows.CursorOnlyAdvances` | src/api/repositories/SyncRunRepository.ts:93-95 | outside the final-page window, no continuation of a schedule moves the stored cursor or the count back, and a final page without a cursor erases nothing |
| `SyncRows.RunLeavesPosts` | src/api/services/HashtagSyncService.ts:152-165 | a run that ends succeeded on empty tables, however often resumed, leaves for every id below the cap a post with the type, permalink and date of its first occurrence, the text, counters and URL of its last, and on Top the rank of its first |
| `SyncLimits.WindowEffects` | src/api/repositories/SyncRunRepository.ts:93-95 | a pickup in the final-page window that fetches the rest again leaves the posts of an uninterrupted run, and adds history rows with wrong ranks if and only if the edge is the top one and some re-fetched post had no row of this run |
| `SyncLimits.WindowMisfiles` | src/api/services/HashtagSyncService.ts:85-121 | the upserts of a call resumed in the window are those of the re-fetched items, ranked past the whole edge |
| `SyncLimits.SucceedsExactly` | src/api/services/HashtagSyncService.ts:113-122 | some schedule of a run succeeds if and only if every timestamp below the cap parses |
| `SyncLimits.SkippedStaysUndownloaded` | src/api/repositories/MediaAssetRepository.ts:14-45 | a post whose asset row is not pending when a run starts gets no download job from it, even when the run brings the URL |
| `HashtagSync.HashtagSyncService.RunSync` | src/api/services/HashtagSyncService.ts:81-262 | the imperative page loop with its catch block, any of whose writes may throw before or after it is committed, ends in the tables of one schedule of the protocol; it fails only for a write that throws, a timestamp that does not parse or a walk that breaks off, and succeeds where there is none; a caught failure is partial exactly when the local count advanced, and the cap flag is exact on success and on failure |
| `HashtagSync.HashtagSyncService.PersistPage` | src/api/services/HashtagSyncService.ts:137-189 | raw rows, then per item the post, the asset row and the job, in protocol order; a page that is done has given each new post a row, pending with a job if its first occurrence on the page had a URL and skipped if not, and kept every other row; it stops in place only at a write that throws or a timestamp that does not parse |
| `HashtagSync.HashtagSyncService.RecordProgress` | src/api/repositories/SyncRunRepository.ts:72-99 | one page and its items more, and the cursor moves only when the page had a next one, as the protocol's last page step, or nothing is written |
| `HashtagSync.CallExtendsSchedule` | src/api/services/HashtagSyncService.ts:99-110 | the steps of one call, appended to a schedule that avoided the window, form such a schedule, so the theorems on schedules cover the loop |
| `HashtagSync.WalkedPagesArePossible` | src/lib/meta/MetaGraphClient.ts:211-233 | every page of a walk the client delivers, unless cut short by an empty page, is one the protocol's fetch step takes, with the same items and cursor |
| `SyncLock.SingleActiveRun` | src/database/advisoryLock.ts:26-59 | over all interleavings of calls, deaths, throws and failed unlocks, at most one row per (kind, hashtag) is running, at most one call is past its lock, and a working call works on that row |
| `SyncLock.HoldersCoincide` | src/database/advisoryLock.ts:30-38 | two holders of one re-entrant session lock are the same call, because a pooled connection has one user |
| `SyncLock.TerminalIsTerminal` | src/api/repositories/SyncRunRepository.ts:101-123 | no continuation of a schedule sets a finished row back to running or moves it to another hashtag |
| `SyncLock.LockLeaksExactly` | src/database/advisoryLock.ts:33-58 | over every schedule, a session holds a lock beyond its calls if and only if an unlock of it failed there, or an acquire query was granted and then rejected, and the session has not been closed since |
| `SyncLock.LeakPersists` | src/database/advisoryLock.ts:49-57 | a leaked lock outlives every continuation that does not close its session |
| `SyncLock.StrandedLockBlocksOthers` | src/database/advisoryLock.ts:36-57 | after a failed unlock or a lost grant, until the session is closed, no call of the scope on another connection is ever past its lock, and every try is refused |
| `SyncLock.FindResumableRun` | src/api/repositories/SyncRunRepository.ts:44-62 | returns the newest running row of the scope if there is one, and None only if there is none |
| `SyncLock.GrantedExactly` | src/database/advisoryLock.ts:36-44 | after any schedule, a call that tries the lock gets it if and only if no other call is past it and no other session was left with it; a refused call touches no lock |
| `SyncLock.UnlockFreesExactly` | src/database/advisoryLock.ts:52-57 | an unlock that succeeds frees the lock unless the session was left with it before, and no other lock |
| `SyncLock.WholeCallRecordsItsOutcome` | src/api/services/HashtagSyncService.ts:62-79 | after any schedule, a call that finds its lock free and is not interrupted records its outcome on the one running row of its scope or on a new one, and leaves the locks and the other calls as before it |
| `Replay.ReplayRun` | commands/replay.ts:38-93 | replays rows in order up to the first throwing timestamp; the tables are the fold of those upserts and the four counters count what they say |
| `Replay.ReplayReproducesTheRun` | commands/replay.ts:56-88 | replaying a succeeded run's raw rows in position order from the tables before the run gives the live result, re-fetched pages included |
| `Replay.ReplayAfterTheRunIsIdempotent` | commands/replay.ts:71-79 | replaying right after the run adds no post and no history row and changes no column but the clocks |
| `Replay.OrderedReachesTheEnd` | src/api/repositories/DataPointRepository.ts:51-57 | raw rows ordered by absolute position, ties in any order, are a walk over the whole edge |
| `Replay.CreationsAreGrowth` | commands/replay.ts:81-84 | on an advancing clock the created counter is the number of posts the table grew by |
| `Replay.ChangesCount` | commands/replay.ts:81-88 | the changed counter is the number of upserts that reported changed content |
| `Replay.UnparsedCounts` | commands/replay.ts:64-69 | the invalid counter is the number of rows that do not validate |
| `MetaGraphClient.Request` | src/lib/meta/MetaGraphClient.ts:275-432 | ends with the first final answer, or with the last error once the attempts are used up, in at most `maxAttempts` fetches |
| `MetaGraphClient.TooLargeIsFinal` | src/lib/meta/MetaGraphClient.ts:372-383 | a "reduce the amount of data" error is never retried unchanged, even on a retryable status |
| `MetaGraphClient.RequestOutcome` | src/lib/meta/MetaGraphClient.ts:275-432 | outcome by outcome in status and content: a valid page on a 2xx is returned as it came after whatever failures passed; each error means its own kind of answer; only answers worth retrying come before the last |
| `MetaGraphClient.NextCursorExactly` | src/lib/meta/MetaGraphClient.ts:214-233 | where Meta links onwards exactly while items are left, a page of a walk has a next cursor if and only if it ends before the edge does, even if a cursor comes with the final page, and no request follows the one that got the final page |
| `MetaGraphClient.Client.PaginateMedia` | src/lib/meta/MetaGraphClient.ts:151-245 | pages are Meta's answers at the cursors it gave, item for item, with a cursor exactly when cursor and next link came; none follows a page that says it is the last, and no request does; on an honest edge they are a contiguous stretch, complete unless cut short by an empty page; an error is that of the last request, a refusal only at limit 1; at most log2 of the start size refusals and maxItems + log2 requests; under a fixed ceiling the learned size and the refusals are the closed forms |
| `MetaGraphClient.SizeAloneNeverThrows` | src/lib/meta/MetaGraphClient.ts:191-205 | at a fixed ceiling of at least one item, a Meta that refuses only by size makes no walk throw |
| `MetaGraphClient.FollowingPagesAreAPrefix` | src/lib/meta/MetaGraphClient.ts:211-233 | the items of pages that follow one another are one slice of the edge |
| `MetaGraphClient.PageSizeIndependence` | src/lib/meta/MetaGraphClient.ts:178-233 | two completed walks from one cursor yield the same items whatever was refused or cut short on the way |
| `MetaGraphClient.LearnedSizeOverstates` | src/lib/meta/MetaGraphClient.ts:207-209 | the remembered size exceeds Meta's ceiling if and only if the walk wanted at most the ceiling and started above it |
| `MetaGraphClient.LearnedSizeSettles` | src/lib/meta/MetaGraphClient.ts:162-173 | at a fixed ceiling, whatever was remembered before, the learned size is at most the ceiling from the first walk on and every later walk is refused at most once; below the configured size it also stays at half the ceiling or more |
| `MetaGraphClient.LearnedSizeRecovers` | src/lib/meta/MetaGraphClient.ts:162-173 | once the ceiling is out of the way each walk doubles the learned size, refused never, up to the configured size |
| `InMemoryQueue.ScanIsSweep` | src/adapters/local/InMemoryQueue.ts:84-117 | splicing with an index step-back does what one sweep over the list does |
| `InMemoryQueue.SweepIsASplit` | src/adapters/local/InMemoryQueue.ts:84-117 | the sweep keeps the invisible, takes the deliverable and kills the exhausted of a scanned prefix, each in order, and stops only when full or at the end |
| `InMemoryQueue.ReceiveKeeps` | src/adapters/local/InMemoryQueue.ts:73-125 | a receive keeps the queue sound, hands out at most what was asked, and comes back empty from an open queue only after the whole wait with nothing visible left |
| `InMemoryQueue.PollKeeps` | src/adapters/local/InMemoryQueue.ts:84-117 | a pass loses and invents no message, revives no handle, and keeps every message in one place under the ceiling |
| `InMemoryQueue.ExhaustedDies` | src/adapters/local/InMemoryQueue.ts:95-104 | a pass with room to spare sends every visible message at the ceiling to the dead letters |
| `InMemoryQueue.EnqueueKeeps` | src/adapters/local/InMemoryQueue.ts:51-67 | enqueue adds one message under an id nobody has |
| `InMemoryQueue.Driver.PollOnce` | src/adapters/local/InMemoryQueue.ts:81-117 | the in-place loop computes the scan |
| `InMemoryQueue.Driver.Receive` | src/adapters/local/InMemoryQueue.ts:73-125 | the long poll computes the sequence of passes that ends it |
| `InMemoryQueue.Driver.Nack` | src/adapters/local/InMemoryQueue.ts:132-144 | a held message goes back to the end of the list, visible at once, with its receive count |
| `InMemoryQueue.Driver.ExtendVisibility` | src/adapters/local/InMemoryQueue.ts:146-151 | a held message gets the new timeout and nothing else of it or of any other message changes |
| `InMemoryQueue.ReceiveLooksInTime` | src/adapters/local/InMemoryQueue.ts:73-125 | a receive looks every 100 ms, ends within one look after its deadline, and comes back empty from an open queue no earlier than that |
| `QueueColumns.PassDecidesEach` | src/adapters/local/InMemoryQueue.ts:84-117 | a pass with room to spare decides each message by itself: one not yet visible stays, a visible one below the ceiling is handed out with its job, one receive more and a new timeout, and one at the ceiling is parked |
| `QueueColumns.ReadyWereVisible` | src/adapters/local/InMemoryQueue.ts:84-117 | every message of any pass was visible and below the ceiling, and is handed out as it was queued |
| `QueueColumns.DelayIsKept` | src/adapters/local/InMemoryQueue.ts:51-67 | an enqueued job is handed out for the first time by a pass with room to spare if and only if its delay is over |
| `QueueColumns.NackedComesBack` | src/adapters/local/InMemoryQueue.ts:132-144 | a nacked message is handed out by the next pass with room to spare, its count one up, or parked once it was received as often as allowed |
| `JobRunner.WorkerSafety` | src/worker/JobRunner.ts:85-208 | over every interleaving: at most `maxConcurrent` tasks, those of a receive in progress included, at most ten messages a receive, in-flight messages are exactly those of unsettled tasks, no handler sees a message more than `maxReceiveCount` times, and nothing is in flight once `start` returned |
| `JobRunner.WorkerLosesNothing` | src/worker/JobRunner.ts:85-208 | a message once produced stays in exactly one of queued, in flight, dead-lettered and acked |
| `JobRunner.OldHandlesStayDead` | src/adapters/local/InMemoryQueue.ts:106-151 | however a run goes on, enqueues and redeliveries included, a receipt handle out of use is a no-op for ack, nack and extension |
| `JobRunner.StopEndsIntake` | src/worker/JobRunner.ts:92-145 | after `stop`, once the receive in progress is over, no continuation starts a handler |
| `JobRunner.StopIsForGood` | src/worker/JobRunner.ts:139-146 | `stop` takes effect whenever it comes, and no continuation undoes it |
| `JobRunner.EveryDeliveryIsStarted` | src/worker/JobRunner.ts:132-136 | every message a receive brings back is started as a task holding that message, even if `stop` came meanwhile, and no other task is touched |
| `JobRunner.AckedIffEnded` | src/worker/JobRunner.ts:148-193 | over every interleaving, a message is acked if and only if some attempt of it finished, could never succeed or had no handler |
| `JobRunner.ThrowingJobDies` | src/worker/JobRunner.ts:195-204 | an enqueued job whose handler throws a retryable error on every attempt is never acked; it is a dead letter exactly when it is neither queued nor in flight, and then its handler was called exactly `maxReceiveCount` times |
| `JobRunner.Process` | src/worker/JobRunner.ts:148-208 | by how the handler of a held message ended: finished, unprocessable or none registered, and it is acked and nowhere else; any other throw, and it is at the end of the list, visible now; it is the worker machine's settle step, for whatever worker holds it |
| `JobRunner.JobsAreOfTheirType` | src/worker/JobRunner.ts:148-149 | a handler is looked up under the type its job was built with |
| `JobRunner.HeartbeatSafety` | src/worker/JobRunner.ts:165-174 | with every extension landing, no handler of any length is exposed if and only if the timeout exceeds 30 s |
| `JobRunner.OneMissedBeatExposes` | src/worker/JobRunner.ts:165-174 | whatever the timeout, one missed extension exposes the message by the time the next is due |
| `Drain.DrainAssetJobs` | commands/_drain.ts:35-94 | the loop ends, not before it started and on an open queue not before as many full waits as empty receives were asked for; download jobs visible by then are run and acked, every other visible message is dead-lettered, the rest is untouched, and the summary counts the ends of exactly the acked downloads |
| `Drain.PollSpends` | src/adapters/local/InMemoryQueue.ts:84-117 | a pass spends receive budget for every message it hands out, which is why nacking forever still ends |
| `Drain.NackProgress` | commands/_drain.ts:61-65 | handing a job back keeps every message of the start accounted for |
| `HashtagMedia.OrderIsUnique` | src/api/repositories/HashtagMediaQueryRepository.ts:42-49 | one sequence only lists a set of rows in descending (taken_at, id) order |
| `HashtagMedia.KeysetSelectsTail` | src/api/repositories/HashtagMediaQueryRepository.ts:75-91 | the keyset predicate on the k-th row of the sorted selection selects exactly the rows after it |
| `HashtagMedia.PageSplits` | src/api/controllers/HashtagController.ts:120-131 | a page is the head of what is left, its next cursor selects the tail, and it is null exactly when everything fitted |
| `HashtagMedia.WalkIsSortFilter` | src/api/repositories/HashtagMediaQueryRepository.ts:50-134 | following the cursor to null concatenates to the whole sorted, filtered table in max(1, ceil(n / limit)) pages, all full but the last |
| `HashtagMedia.WalkUnderWrites` | src/api/repositories/HashtagMediaQueryRepository.ts:50-134 | with upserts and stale sweeps between requests the output is strictly descending, repeats no post, holds only matching rows that are still stored, and misses no row of the start that kept matching, which is every matching one when stale rows are shown or no sweep runs |
| `HashtagMedia.ReturnedIffAhead` | src/api/repositories/HashtagMediaQueryRepository.ts:75-91 | at any point of a completed walk a stored row that keeps matching is still to come if and only if it sorts after the cursor |
| `HashtagMedia.OutputDescends` | src/api/controllers/HashtagController.ts:130 | whatever is written between requests, all later output lies strictly past the cursor |
| `HashtagMedia.TotalIsExact` | src/api/repositories/HashtagMediaQueryRepository.ts:136-159 | the total equals what a full walk returns if and only if no otherwise matching row is outside the dates, and is never below it |
| `MediaColumns.PageInColumns` | src/api/repositories/HashtagMediaQueryRepository.ts:53-133 | a page holds exactly the stored rows of the given hashtag, type, inclusive dates and freshness that come after the cursor and have fewer than `limit` such rows newer than themselves, newest first; a next cursor is that of its last row, and given exactly when rows are left |
| `MediaColumns.WalkInColumns` | src/api/repositories/HashtagMediaQueryRepository.ts:53-134 | a whole walk returns exactly the stored rows of the given hashtag, type, dates and freshness, newest first |
| `MediaColumns.TotalInColumns` | src/api/repositories/HashtagMediaQueryRepository.ts:140-158 | the total is the number of stored rows of the given hashtag, type and freshness, whatever their dates |
| `MediaColumns.WalkUnderWritesInColumns` | src/api/repositories/HashtagMediaQueryRepository.ts:53-134 | under writes, every row was as asked for when it was read, and where no sweep can hide rows every row that was asked for at the start is returned |
| `Storage.KeysAreInjective` | src/ports/Storage.ts:62-67 | two storage keys are equal if and only if hash and extension are |
| `Storage.ExtensionForContentType` | src/ports/Storage.ts:70-90 | the extension is one of the table's or `.bin`, except that it throws exactly on the two normalized names a plain object inherits |
| `Storage.ParametersAreIgnored` | src/ports/Storage.ts:75 | parameters after the media type never change the extension |
| `Storage.ExtensionExactly` | src/ports/Storage.ts:70-90 | a content type gets `.jpg`, `.png`, `.webp`, `.heic`, `.gif`, `.mp4`, `.mov` or `.webm` if and only if it spells a type that has it, in any case, up to the end or a semicolon and with blanks around it |
| `AssetStore.EveryInterleavingKeepsInv` | src/api/services/MediaAssetService.ts:36-178 | after any interleaving of downloads, throws before or after their effect, crashes and syncs, a row with a storage key names a present object whose bytes hash to its sha256, and a stored row has one |
| `AssetStore.ObjectsArePairs` | src/api/services/MediaAssetService.ts:104-142 | the stored objects are in one-to-one correspondence with the (sha256, extension) pairs ever uploaded |
| `AssetStore.SharedHashIsRepost` | src/api/repositories/MediaAssetRepository.ts:122-143 | unless two received bodies collide, recorded sizes are exact and two rows share a sha256 if and only if their objects have the same bytes |
| `AssetStore.StoredIsFinalExactly` | src/api/services/MediaAssetService.ts:45-61 | a stored row stays stored over all schedules if and only if no download of it is past its look at the row |
| `AssetStore.StoredWhileInFlight` | src/api/services/MediaAssetService.ts:45-61 | from empty tables, two overlapping downloads of one post reach a stored row that is not final |
| `AssetStore.SettledForGood` | src/api/services/MediaAssetService.ts:47-52 | such a row keeps its key and hash for ever |
| `AssetStore.SequentiallyStoredAbsorbs` | src/api/services/MediaAssetService.ts:45-178 | with one download of a post at a time, and no throw after a committed markStored, every stored row is settled |
| `AssetStore.MediaAssetService.Download` | src/api/services/MediaAssetService.ts:36-178 | the imperative download with its try and catch leaves the tables, store and verdict of an uninterrupted run of the steps |
| `AssetStore.MediaAssetService.Fetch` | src/api/services/MediaAssetService.ts:72-168 | the try block up to the step that throws |
| `AssetStore.DownloadIsASchedule` | src/api/services/MediaAssetService.ts:36-178 | an uninterrupted download is one schedule of the concurrent machine |
| `DownloadColumns.VerdictsInColumns` | src/api/services/MediaAssetService.ts:36-178 | whatever throws: `gone` means no such post; `skipped` a stored row left alone, or no URL and a skipped row; `stored` and `deduplicated` a response that is a file, lying under its content address, which was free or taken, and a row naming it; a failure of the try block is on the row; no other row changes |
| `DownloadColumns.SteadyVerdict` | src/api/services/MediaAssetService.ts:36-178 | where nothing but the fetch throws, which verdict it is: an if-and-only-if in the tables and the response for each |
| `DownloadColumns.SyncWritesOneRow` | src/api/repositories/MediaAssetRepository.ts:14-45 | as the download sees it, the sync adds a row with nothing stored, pending or skipped by whether there is a URL, or refreshes the URL of an old one, and changes nothing else |
| `LocalDiskStorage.PublishedFilesAreWhole` | src/adapters/local/LocalDiskStorage.ts:44-71 | while no two open puts share a temp file, every file at a key is the whole body of a put to it, over all interleavings of chunks, failures and crashes |
| `LocalDiskStorage.PutsAreSafeExactly` | src/adapters/local/LocalDiskStorage.ts:44-71 | for any set of puts to content-addressed keys, every schedule leaves only whole files if and only if no two puts of one process to one key have something to write |
| `LocalDiskStorage.SharedTempFilePublishesTruncated` | src/adapters/local/LocalDiskStorage.ts:48-57 | two overlapping puts of one process to one key: the first succeeds and the published object is empty |
| `LocalDiskStorage.UndisturbedPut` | src/adapters/local/LocalDiskStorage.ts:44-60 | after any schedule, an undisturbed put that is renamed publishes its body at its key and leaves no temp file, one that fails leaves none and changes no key, and one that is killed leaves what it had written under the temp name |
| `CaptionParser.ParseCaptionEntities` | src/api/services/captionParser.ts:66-116 | the two passes with their shared Set compute, per kind, the first occurrences of the kept matches, tags before mentions |
| `CaptionParser.ParseCaptionArrays` | src/api/services/captionParser.ts:54-64 | filtering the list by kind gives back the two arrays |
| `CaptionParser.ParseDistributes` | src/api/services/captionParser.ts:66-116 | parsing two captions joined by a separator is, per kind, the first-occurrence union of parsing them apart |
| `CaptionParser.RoundTrip` | src/api/services/captionParser.ts:66-116 | distinct normal tags and mentions, printed and separated by spaces, parse back to themselves |
| `CaptionParser.ParsePrint` | src/api/services/captionParser.ts:66-116 | the same for any mixed list with repeats, up to first occurrences |
| `CaptionParser.FoundIsClean` | src/api/services/captionParser.ts:40-45 | nothing repeats, nothing is empty or over 255 long, and no tag is a bare number |
| `CaptionParser.LoneTag` | src/api/services/captionParser.ts:78-95 | a run of word characters after the mark is one tag, lower-cased and cut to 255, or none when that leaves only digits |
| `CaptionParser.LoneMention` | src/api/services/captionParser.ts:97-112 | up to thirty handle characters after the mark are one mention, lower-cased, without the dots that end it; digits alone are one, dots alone are not |
| `CaptionParser.MentionEnds` | src/api/services/captionParser.ts:38 | a mention ends at the first character that is no Latin letter, digit, dot or underscore |
| `CaptionParser.LongMentionIsCut` | src/api/services/captionParser.ts:38 | a longer run of handle characters is cut at thirty, and the rest of it is no mention |
| `CaptionParser.TagsCanTouch` | src/api/services/captionParser.ts:31 | two tags need nothing between them, and a mark alone starts none |
| `CaptionParser.FirstsAreInOrder` | src/api/services/captionParser.ts:75-112 | values are kept in the order of their first occurrences |

## Left out

- MediaRepository: the columns `captionHashtags` and `captionMentions` (functions of the caption, modelled in `CaptionParser`) and `createdAt`, `updatedAt`; a uuid is a number; history rows are found by `igMediaId`, which determines the post.
- CrashTransparency: runs of other hashtags or the other kind interleaved with this one are not in its schedules, and the cap is the same on every pickup; posts are compared without clock readings and uuids, but whether the content ever changed is compared.
- SingleActiveRun: a database connection is assumed to live as long as the work done under its lock; losing it counts as the process dying; lock, run table and calls are values stepped by a machine, because what matters there is their interleaving.
- RunSync: starts at a run already found or started (`SyncLock` does that); hashtag id resolution, `markSyncFailed` and logging are out.
- Request: sleeping, backoff, the abort signal and the rate-limit snapshot; they decide when, not what.
- PaginateMedia: the generator is a method that collects its pages, so a consumer that stops early is modelled by the protocol instead.
- Receive: no time passes within one pass, and passes are exactly 100 ms apart; in the worker's state machine passes of a long poll interleave with everything else.
- InMemoryQueue never makes an in-flight message visible again when its timeout runs out, so the heartbeat lemmas are about a queue that does, as SQS does; the SQS adapter is not part of this model.
- WorkerSafety: the abort signal and the pauses of the polling loop.
- WalkUnderWrites: the hashtag filter is by id rather than by normalised name, the cursor is not encoded, and joined asset columns are absent.
- EveryInterleavingKeepsInv: objects are never deleted, a put to the store is atomic (the local driver's own steps are in `LocalDiskStorage`), sha256 is an arbitrary function, and the temp directory is abstract.
- ParseDistributes: text is a sequence of code points while the program cuts values at 255 UTF-16 units; the word-character class and lower-casing are parameters.
- ExtensionExactly: a content type is a header value, so the blanks and letters that can occur are those of Latin-1.
- The HTTP layer, the schedulers, provisioning, S3, SQS and EventBridge clients, header parsing, and hashtag normalisation: foreign calls or one-branch functions.
