/**
 * Downloads: any number of workers fetch media concurrently, each a chain of database and
 * storage steps, and each step can throw (before or after it took effect) or be the last one
 * before a crash. The asset rows and the object store must agree throughout.
 */
module AssetStore {
  import opened MetaTypes
  import opened Storage

  type Bytes = seq<bv8>

  /** A media_assets row. */
  datatype AssetRow = AssetRow(
    status: AssetStatus,
    fetchedFromUrl: Option<string>,
    sha256: Option<Sha>,
    storageKey: Option<string>,
    contentType: Option<string>,
    sizeBytes: Option<nat>,
    attempts: nat)

  datatype Verdict = WasStored | WasDeduplicated | WasSkipped | HasFailed | MediaGone

  /** What one download holds once it has the file on disk. */
  datatype File = File(body: Bytes, contentType: Option<string>, sha256: Sha, extension: string) {
    function Key(): string {
      ContentAddressedKey(sha256, extension)
    }
  }

  /** Where one download stands: the step it takes next. */
  datatype Phase =
    | FindingMedia
    | FindingAsset(mediaUrl: Option<string>)
    | MarkingSkipped
    | MarkingDownloading(url: string)
    | MakingTempDir(url: string)
    | Fetching(url: string)
    | CheckingStorage(file: File)
    | Putting(file: File)
    | MarkingStored(file: File, deduplicated: bool)
    | MarkingFailed
    | Done(verdict: Verdict)

  datatype Task = Task(mediaId: nat, phase: Phase)

  /** How the outside world answers one step. A late throw follows an effect that did happen. */
  datatype Answer = Fine | Received(body: Bytes, contentType: Option<string>) | Throws(late: bool)

  datatype Action =
    | Begin(task: nat, mediaId: nat)
    | Advance(task: nat, answer: Answer)
    | Crash(task: nat)
    | EnsurePending(mediaId: nat, url: Option<string>)

  /** `put` remembers the (hash, extension) pairs ever uploaded, `fetched` every body received. */
  datatype State = State(
    media: map<nat, Option<string>>,
    rows: map<nat, AssetRow>,
    objects: map<string, Bytes>,
    put: set<(Sha, string)>,
    fetched: set<Bytes>,
    tasks: map<nat, Task>)

  function Or(a: Option<string>, b: Option<string>): Option<string> {
    if a.Some? then a else b
  }

  // ---------------------------------------------------------------- row updates (no row, no effect)

  function MarkDownloading(s: State, m: nat): State {
    if m !in s.rows then s else
    s.(rows := s.rows[m := s.rows[m].(status := Downloading, attempts := s.rows[m].attempts + 1)])
  }

  function MarkStored(s: State, m: nat, file: File): State {
    if m !in s.rows then s else
    s.(rows := s.rows[m := s.rows[m].(status := Stored, sha256 := Some(file.sha256), storageKey := Some(file.Key()),
                                      contentType := file.contentType, sizeBytes := Some(|file.body|))])
  }

  function MarkFailed(s: State, m: nat): State {
    if m !in s.rows then s else s.(rows := s.rows[m := s.rows[m].(status := FailedDownload)])
  }

  function MarkSkipped(s: State, m: nat): State {
    if m !in s.rows then s else s.(rows := s.rows[m := s.rows[m].(status := Skipped)])
  }

  function PutObject(s: State, file: File): State {
    s.(objects := s.objects[file.Key() := file.body], put := s.put + {(file.sha256, file.extension)})
  }

  /** The sync's insert-or-refresh: an existing row only gets the new URL. */
  function AfterEnsurePending(s: State, m: nat, url: Option<string>): State {
    if m in s.rows then s.(rows := s.rows[m := s.rows[m].(fetchedFromUrl := url)])
    else s.(rows := s.rows[m := AssetRow(if Usable(url) then Pending else Skipped, url, None, None, None, None, 0)])
  }

  // ---------------------------------------------------------------- the steps of a download

  function Goto(s: State, t: nat, phase: Phase): State
    requires t in s.tasks
  {
    s.(tasks := s.tasks[t := s.tasks[t].(phase := phase)])
  }

  /** The effect of the step a phase is about to take, on tables and store. */
  function Effect(s: State, m: nat, phase: Phase): State {
    match phase
    case MarkingSkipped => MarkSkipped(s, m)
    case MarkingDownloading(_) => MarkDownloading(s, m)
    case Putting(file) => PutObject(s, file)
    case MarkingStored(file, _) => MarkStored(s, m, file)
    case MarkingFailed => MarkFailed(s, m)
    case _ => s
  }

  /** Where a step that succeeds leads. The body and its type come from the response. */
  function Next(s: State, m: nat, phase: Phase, answer: Answer, hash: Bytes -> Sha): Phase {
    match phase
    case FindingMedia => if m in s.media then FindingAsset(s.media[m]) else Done(MediaGone)
    case FindingAsset(mediaUrl) =>
      if m in s.rows && s.rows[m].status == Stored then Done(WasSkipped) else
      var url := Or(if m in s.rows then s.rows[m].fetchedFromUrl else None, mediaUrl);
      if Usable(url) then MarkingDownloading(url.value) else MarkingSkipped
    case MarkingSkipped => Done(WasSkipped)
    case MarkingDownloading(url) => MakingTempDir(url)
    case MakingTempDir(url) => Fetching(url)
    case Fetching(_) =>
      if !answer.Received? then MarkingFailed else
      var extension := ExtensionForContentType(answer.contentType);
      if extension.None? then MarkingFailed
      else CheckingStorage(File(answer.body, answer.contentType, hash(answer.body), extension.value))
    case CheckingStorage(file) => if file.Key() in s.objects then MarkingStored(file, true) else Putting(file)
    case Putting(file) => MarkingStored(file, false)
    case MarkingStored(_, deduplicated) => Done(if deduplicated then WasDeduplicated else WasStored)
    case MarkingFailed => Done(HasFailed)
    case Done(_) => phase
  }

  /** Inside the try block a throw is recorded on the row; outside it just propagates. */
  predicate Guarded(phase: Phase) {
    phase.Fetching? || phase.CheckingStorage? || phase.Putting? || phase.MarkingStored?
  }

  /** Tables and store after one step. */
  function Worked(s: State, m: nat, phase: Phase, answer: Answer): State {
    var effected := if answer == Throws(false) then s else Effect(s, m, phase);
    if phase.Fetching? && answer.Received? then effected.(fetched := s.fetched + {answer.body}) else effected
  }

  /** Where the download stands after one step. */
  function Outcome(s: State, m: nat, phase: Phase, answer: Answer, hash: Bytes -> Sha): Phase {
    if !answer.Throws? then Next(s, m, phase, answer, hash)
    else if Guarded(phase) then MarkingFailed else Done(HasFailed)
  }

  function Advanced(s: State, t: nat, answer: Answer, hash: Bytes -> Sha): State
    requires t in s.tasks
  {
    var m, phase := s.tasks[t].mediaId, s.tasks[t].phase;
    if phase.Done? then s else Goto(Worked(s, m, phase, answer), t, Outcome(s, m, phase, answer, hash))
  }

  function Apply(s: State, a: Action, hash: Bytes -> Sha): State {
    match a
    case Begin(t, m) => if t in s.tasks then s else s.(tasks := s.tasks[t := Task(m, FindingMedia)])
    case Advance(t, answer) => if t in s.tasks then Advanced(s, t, answer, hash) else s
    case Crash(t) => s.(tasks := s.tasks - {t})
    case EnsurePending(m, url) => AfterEnsurePending(s, m, url)
  }

  function After(s: State, acts: seq<Action>, hash: Bytes -> Sha): State {
    if acts == [] then s else Apply(After(s, acts[..|acts| - 1], hash), acts[|acts| - 1], hash)
  }

  predicate Fresh(s: State) {
    s.rows == map[] && s.objects == map[] && s.put == {} && s.fetched == {} && s.tasks == map[]
  }

  // ---------------------------------------------------------------- the invariant

  /** A body that was received, under the key its own hash and extension spell. */
  predicate Backed(key: string, s: State, hash: Bytes -> Sha) {
    key in s.objects && s.objects[key] in s.fetched
    && exists pair :: pair in s.put && pair.0 == hash(s.objects[key]) && key == ContentAddressedKey(pair.0, pair.1)
  }

  predicate FileOk(file: File, s: State, hash: Bytes -> Sha) {
    file.sha256 == hash(file.body) && file.body in s.fetched && file.extension in EXTENSIONS.Values + {".bin"}
  }

  predicate PhaseOk(phase: Phase, s: State, hash: Bytes -> Sha) {
    match phase
    case CheckingStorage(file) => FileOk(file, s, hash)
    case Putting(file) => FileOk(file, s, hash)
    case MarkingStored(file, _) => FileOk(file, s, hash) && file.Key() in s.objects
    case _ => true
  }

  /** The size on the row is that of a received body with the row's hash. */
  predicate SizeOk(row: AssetRow, s: State, hash: Bytes -> Sha) {
    row.sha256.Some? ==> exists b :: b in s.fetched && hash(b) == row.sha256.value && row.sizeBytes == Some(|b|)
  }

  predicate RowOk(row: AssetRow, s: State, hash: Bytes -> Sha) {
    (row.storageKey.Some? <==> row.sha256.Some?)
    && (row.status == Stored ==> row.storageKey.Some?)
    && (row.storageKey.Some? ==>
          row.storageKey.value in s.objects && row.sha256.value == hash(s.objects[row.storageKey.value]))
    && SizeOk(row, s, hash)
  }

  ghost predicate ObjectsOk(s: State, hash: Bytes -> Sha) {
    forall key :: key in s.objects ==> Backed(key, s, hash)
  }

  ghost predicate PutOk(s: State, hash: Bytes -> Sha) {
    forall pair :: pair in s.put ==>
      ContentAddressedKey(pair.0, pair.1) in s.objects && pair.1 in EXTENSIONS.Values + {".bin"}
  }

  ghost predicate RowsOk(s: State, hash: Bytes -> Sha) {
    forall m :: m in s.rows ==> RowOk(s.rows[m], s, hash)
  }

  ghost predicate TasksOk(s: State, hash: Bytes -> Sha) {
    forall t :: t in s.tasks ==> PhaseOk(s.tasks[t].phase, s, hash)
  }

  ghost predicate Inv(s: State, hash: Bytes -> Sha) {
    ObjectsOk(s, hash) && PutOk(s, hash) && RowsOk(s, hash) && TasksOk(s, hash)
  }

  /** Storage only grows, and an object's hash never changes. */
  ghost predicate Grows(s: State, t: State, hash: Bytes -> Sha) {
    s.fetched <= t.fetched
    && forall key :: key in s.objects ==> key in t.objects && hash(t.objects[key]) == hash(s.objects[key])
  }

  lemma RowKept(row: AssetRow, s: State, t: State, hash: Bytes -> Sha)
    requires RowOk(row, s, hash) && Grows(s, t, hash)
    ensures RowOk(row, t, hash)
  {
  }

  lemma PhaseKept(phase: Phase, s: State, t: State, hash: Bytes -> Sha)
    requires PhaseOk(phase, s, hash) && Grows(s, t, hash)
    ensures PhaseOk(phase, t, hash)
  {
    hide ContentAddressedKey;
  }

  lemma RowsAndTasksKept(s: State, t: State, hash: Bytes -> Sha)
    requires RowsOk(s, hash) && TasksOk(s, hash) && Grows(s, t, hash)
    requires t.rows == s.rows && t.tasks == s.tasks
    ensures RowsOk(t, hash) && TasksOk(t, hash)
  {
    hide RowOk, PhaseOk, Grows;
    forall m | m in t.rows ensures RowOk(t.rows[m], t, hash) { RowKept(t.rows[m], s, t, hash); }
    forall i | i in t.tasks ensures PhaseOk(t.tasks[i].phase, t, hash) { PhaseKept(t.tasks[i].phase, s, t, hash); }
  }

  lemma {:induction false} PutGrows(s: State, file: File, hash: Bytes -> Sha)
    requires ObjectsOk(s, hash) && FileOk(file, s, hash)
    ensures Grows(s, PutObject(s, file), hash)
  {
    hide ContentAddressedKey, ObjectsOk;
    if file.Key() in s.objects { KeyTellsHash(file, s, hash); }
  }

  lemma {:induction false} PutIsBacked(s: State, file: File, hash: Bytes -> Sha)
    requires ObjectsOk(s, hash) && FileOk(file, s, hash)
    ensures ObjectsOk(PutObject(s, file), hash)
  {
    hide ContentAddressedKey;
    var t := PutObject(s, file);
    forall key | key in t.objects ensures Backed(key, t, hash) {
      if key == file.Key() {
        assert (file.sha256, file.extension) in t.put;
      } else {
        assert Backed(key, s, hash);
      }
    }
  }

  lemma {:induction false} PutKeepsInv(s: State, file: File, hash: Bytes -> Sha)
    requires Inv(s, hash) && FileOk(file, s, hash)
    ensures Inv(PutObject(s, file), hash) && Grows(s, PutObject(s, file), hash)
  {
    hide ContentAddressedKey, ObjectsOk, RowsOk, TasksOk, Grows;
    PutGrows(s, file, hash);
    PutIsBacked(s, file, hash);
    RowsAndTasksKept(s, PutObject(s, file), hash);
  }

  lemma RowUpdateKeepsInv(s: State, m: nat, row: AssetRow, hash: Bytes -> Sha)
    requires Inv(s, hash) && RowOk(row, s, hash)
    ensures Inv(s.(rows := s.rows[m := row]), hash)
  {
    hide ContentAddressedKey;
  }

  /** What one step may write to its row, in every phase but the upload. */
  function Rewritten(row: AssetRow, phase: Phase): AssetRow {
    match phase
    case MarkingSkipped => row.(status := Skipped)
    case MarkingDownloading(_) => row.(status := Downloading, attempts := row.attempts + 1)
    case MarkingStored(file, _) => row.(status := Stored, sha256 := Some(file.sha256), storageKey := Some(file.Key()),
                                        contentType := file.contentType, sizeBytes := Some(|file.body|))
    case MarkingFailed => row.(status := FailedDownload)
    case _ => row
  }

  lemma EffectIsRewrite(s: State, m: nat, phase: Phase)
    requires !phase.Putting?
    ensures Effect(s, m, phase) == if m in s.rows then s.(rows := s.rows[m := Rewritten(s.rows[m], phase)]) else s
  {
    if m in s.rows { assert s.rows[m := s.rows[m]] == s.rows; }
  }

  lemma {:induction false} RewriteIsOk(row: AssetRow, phase: Phase, s: State, hash: Bytes -> Sha)
    requires RowOk(row, s, hash) && PhaseOk(phase, s, hash) && ObjectsOk(s, hash)
    ensures RowOk(Rewritten(row, phase), s, hash)
  {
    hide ContentAddressedKey, ObjectsOk;
    if phase.MarkingStored? {
      KeyTellsHash(phase.file, s, hash);
    }
  }

  /** Whatever lies under a file's key has the file's hash, whoever uploaded it. */
  lemma {:induction false} KeyTellsHash(file: File, s: State, hash: Bytes -> Sha)
    requires ObjectsOk(s, hash) && file.Key() in s.objects
    ensures hash(s.objects[file.Key()]) == file.sha256
  {
    hide ContentAddressedKey;
    assert Backed(file.Key(), s, hash);
    var pair :| pair in s.put && pair.0 == hash(s.objects[file.Key()])
                    && file.Key() == ContentAddressedKey(pair.0, pair.1);
    KeysAreInjective(file.sha256, file.extension, pair.0, pair.1);
  }

  /** Any step's effect on tables and store. */
  lemma {:induction false} EffectKeepsInv(s: State, m: nat, phase: Phase, hash: Bytes -> Sha)
    requires Inv(s, hash) && PhaseOk(phase, s, hash)
    ensures Inv(Effect(s, m, phase), hash) && Grows(s, Effect(s, m, phase), hash)
    ensures Effect(s, m, phase).tasks == s.tasks && Effect(s, m, phase).fetched == s.fetched
  {
    hide ContentAddressedKey, ObjectsOk, PutOk, TasksOk, RowOk, PhaseOk;
    if phase.Putting? {
      PutPhaseIsOk(phase, s, hash);
      PutKeepsInv(s, phase.file, hash);
    } else {
      EffectIsRewrite(s, m, phase);
      if m in s.rows {
        RewriteIsOk(s.rows[m], phase, s, hash);
        RowUpdateKeepsInv(s, m, Rewritten(s.rows[m], phase), hash);
      }
    }
  }

  lemma PutPhaseIsOk(phase: Phase, s: State, hash: Bytes -> Sha)
    requires PhaseOk(phase, s, hash) && phase.Putting?
    ensures FileOk(phase.file, s, hash)
  {
  }

  lemma FetchKeepsInv(s: State, body: Bytes, hash: Bytes -> Sha)
    requires Inv(s, hash)
    ensures Inv(s.(fetched := s.fetched + {body}), hash)
  {
    hide ContentAddressedKey, RowsOk, TasksOk;
    var t := s.(fetched := s.fetched + {body});
    RowsAndTasksKept(s, t, hash);
    forall key | key in t.objects ensures Backed(key, t, hash) {
      assert Backed(key, s, hash);
    }
  }

  lemma GotoKeepsInv(s: State, t: nat, phase: Phase, hash: Bytes -> Sha)
    requires Inv(s, hash) && t in s.tasks && PhaseOk(phase, s, hash)
    ensures Inv(Goto(s, t, phase), hash)
  {
    hide ContentAddressedKey;
  }

  /** The next phase is sound in the state its own step leaves behind. */
  lemma NextIsOk(s: State, u: State, m: nat, phase: Phase, answer: Answer, hash: Bytes -> Sha)
    requires PhaseOk(phase, s, hash)
    requires Grows(Effect(s, m, phase), u, hash) && Grows(s, Effect(s, m, phase), hash)
    requires phase.Fetching? && answer.Received? ==> answer.body in u.fetched
    ensures PhaseOk(Next(s, m, phase, answer, hash), u, hash)
  {
    hide ContentAddressedKey;
  }

  lemma {:induction false} AdvanceKeepsInv(s: State, t: nat, answer: Answer, hash: Bytes -> Sha)
    requires Inv(s, hash) && t in s.tasks
    ensures Inv(Advanced(s, t, answer, hash), hash)
  {
    hide ContentAddressedKey, ObjectsOk, PutOk, RowsOk, PhaseOk, Next, Effect;
    var m, phase := s.tasks[t].mediaId, s.tasks[t].phase;
    if !phase.Done? {
      assert PhaseOk(phase, s, hash);
      EffectKeepsInv(s, m, phase, hash);
      var effected := if answer == Throws(false) then s else Effect(s, m, phase);
      var seen := if phase.Fetching? && answer.Received? then effected.(fetched := s.fetched + {answer.body})
                  else effected;
      if phase.Fetching? && answer.Received? { FetchKeepsInv(effected, answer.body, hash); }
      if answer.Throws? {
        SimplePhaseIsOk(if Guarded(phase) then MarkingFailed else Done(HasFailed), seen, hash);
        GotoKeepsInv(seen, t, if Guarded(phase) then MarkingFailed else Done(HasFailed), hash);
      } else {
        NextIsOk(s, seen, m, phase, answer, hash);
        GotoKeepsInv(seen, t, Next(s, m, phase, answer, hash), hash);
      }
    }
  }

  lemma SimplePhaseIsOk(phase: Phase, s: State, hash: Bytes -> Sha)
    requires phase.MarkingFailed? || phase.Done?
    ensures PhaseOk(phase, s, hash)
  {
  }

  lemma {:induction false} StepKeepsInv(s: State, a: Action, hash: Bytes -> Sha)
    requires Inv(s, hash)
    ensures Inv(Apply(s, a, hash), hash)
  {
    hide Inv, RowOk, Advanced;
    match a
    case Begin(t, m) => TaskSetKeepsInv(s, s.tasks[t := Task(m, FindingMedia)], hash);
    case Advance(t, answer) => if t in s.tasks { AdvanceKeepsInv(s, t, answer, hash); }
    case Crash(t) => TaskSetKeepsInv(s, s.tasks - {t}, hash);
    case EnsurePending(m, url) =>
      EnsuredRowIsOk(s, m, url, hash);
      RowUpdateKeepsInv(s, m, AfterEnsurePending(s, m, url).rows[m], hash);
  }

  lemma TaskSetKeepsInv(s: State, tasks: map<nat, Task>, hash: Bytes -> Sha)
    requires Inv(s, hash)
    requires forall t :: t in tasks ==> (t in s.tasks && tasks[t] == s.tasks[t]) || tasks[t].phase == FindingMedia
    ensures Inv(s.(tasks := tasks), hash)
  {
    hide ContentAddressedKey;
  }

  lemma EnsuredRowIsOk(s: State, m: nat, url: Option<string>, hash: Bytes -> Sha)
    requires Inv(s, hash)
    ensures RowOk(AfterEnsurePending(s, m, url).rows[m], s, hash)
  {
    hide ContentAddressedKey, ObjectsOk, PutOk, TasksOk;
  }

  /**
   * After any interleaving of downloads, throws, crashes and syncs: a row with a storage key names
   * a present object whose bytes hash to the row's sha256, and a stored row has one.
   */
  lemma {:induction false} EveryInterleavingKeepsInv(s: State, acts: seq<Action>, hash: Bytes -> Sha)
    requires Fresh(s)
    ensures Inv(After(s, acts, hash), hash)
  {
    hide Inv, Apply;
    if acts == [] {
      FreshIsOk(s, hash);
    } else {
      EveryInterleavingKeepsInv(s, acts[..|acts| - 1], hash);
      StepKeepsInv(After(s, acts[..|acts| - 1], hash), acts[|acts| - 1], hash);
    }
  }

  lemma FreshIsOk(s: State, hash: Bytes -> Sha)
    requires Fresh(s)
    ensures Inv(s, hash)
  {
  }

  // ---------------------------------------------------------------- objects and addresses

  function KeyOf(pair: (Sha, string)): string {
    ContentAddressedKey(pair.0, pair.1)
  }

  predicate Extended(pairs: set<(Sha, string)>) {
    forall p :: p in pairs ==> p.1 in EXTENSIONS.Values + {".bin"}
  }

  lemma KnownExtensionsAreDotted(e: string)
    requires e in EXTENSIONS.Values + {".bin"}
    ensures Dotted(e) == e
  {
  }

  lemma {:induction false} DistinctPairsDistinctKeys(pairs: set<(Sha, string)>)
    requires Extended(pairs)
    ensures |set p | p in pairs :: KeyOf(p)| == |pairs|
  {
    hide ContentAddressedKey;
    if pairs == {} {
      assert (set p | p in pairs :: KeyOf(p)) == {};
    } else {
      var p :| p in pairs;
      var rest := pairs - {p};
      DistinctPairsDistinctKeys(rest);
      var keys := set q | q in rest :: KeyOf(q);
      forall q | q in rest ensures KeyOf(q) != KeyOf(p) {
        KeysAreInjective(q.0, q.1, p.0, p.1);
        KnownExtensionsAreDotted(q.1);
        KnownExtensionsAreDotted(p.1);
      }
      assert KeyOf(p) !in keys;
      assert (set q | q in pairs :: KeyOf(q)) == keys + {KeyOf(p)};
    }
  }

  /** The stored objects correspond one to one to the (sha256, extension) pairs ever uploaded. */
  lemma {:induction false} ObjectsArePairs(s: State, hash: Bytes -> Sha)
    requires Inv(s, hash)
    ensures s.objects.Keys == set p | p in s.put :: KeyOf(p)
    ensures |s.objects| == |s.put|
  {
    hide ContentAddressedKey, RowsOk, TasksOk;
    forall key | key in s.objects ensures exists p :: p in s.put && KeyOf(p) == key {
      assert Backed(key, s, hash);
      var p :| p in s.put && p.0 == hash(s.objects[key]) && key == ContentAddressedKey(p.0, p.1);
      assert KeyOf(p) == key;
    }
    forall p | p in s.put ensures KeyOf(p) in s.objects {
      assert ContentAddressedKey(p.0, p.1) in s.objects;
    }
    DistinctPairsDistinctKeys(s.put);
  }

  predicate NoCollisions(s: State, hash: Bytes -> Sha) {
    forall b, c :: b in s.fetched && c in s.fetched && hash(b) == hash(c) ==> b == c
  }

  predicate HasObject(s: State, m: nat) {
    m in s.rows && s.rows[m].storageKey.Some? && s.rows[m].storageKey.value in s.objects
  }

  function ObjectOf(s: State, m: nat): Bytes
    requires HasObject(s, m)
  {
    s.objects[s.rows[m].storageKey.value]
  }

  /** Unless two received bodies collide, sizes are exact and a shared sha256 is a repost. */
  lemma {:induction false} SharedHashIsRepost(s: State, m: nat, n: nat, hash: Bytes -> Sha)
    requires Inv(s, hash) && NoCollisions(s, hash)
    requires m in s.rows && s.rows[m].sha256.Some? && n in s.rows && s.rows[n].sha256.Some?
    ensures HasObject(s, m) && s.rows[m].sizeBytes == Some(|ObjectOf(s, m)|)
    ensures HasObject(s, n) && (s.rows[m].sha256 == s.rows[n].sha256 <==> ObjectOf(s, m) == ObjectOf(s, n))
  {
    hide ContentAddressedKey, TasksOk;
    assert RowOk(s.rows[m], s, hash) && RowOk(s.rows[n], s, hash);
    assert Backed(s.rows[m].storageKey.value, s, hash) && Backed(s.rows[n].storageKey.value, s, hash);
  }

  // ---------------------------------------------------------------- is `stored` final?

  /** Past its look at the row: from here on it writes whatever the row has become. */
  predicate Committed(phase: Phase) {
    !phase.FindingMedia? && !phase.FindingAsset? && !phase.Done?
  }

  predicate InFlight(s: State, m: nat) {
    exists t :: t in s.tasks && s.tasks[t].mediaId == m && Committed(s.tasks[t].phase)
  }

  predicate IsStored(s: State, m: nat) {
    m in s.rows && s.rows[m].status == Stored
  }

  /** Stored, and no download of it is past reading the row. */
  predicate Settled(s: State, m: nat) {
    IsStored(s, m) && !InFlight(s, m)
  }

  lemma OtherStepsLeaveRow(s: State, t: nat, answer: Answer, m: nat, hash: Bytes -> Sha)
    requires t in s.tasks && m in s.rows
    requires s.tasks[t].mediaId != m || !Committed(s.tasks[t].phase)
    ensures var u := Advanced(s, t, answer, hash); m in u.rows && u.rows[m] == s.rows[m]
  {
    hide ContentAddressedKey, ExtensionForContentType, Next;
  }

  lemma StoredRowTurnsAway(s: State, t: nat, answer: Answer, m: nat, hash: Bytes -> Sha)
    requires t in s.tasks && IsStored(s, m)
    requires s.tasks[t].mediaId == m && !Committed(s.tasks[t].phase)
    ensures !Committed(Advanced(s, t, answer, hash).tasks[t].phase)
  {
    hide ContentAddressedKey, ExtensionForContentType;
  }

  lemma OneTaskAdvances(s: State, t: nat, answer: Answer, hash: Bytes -> Sha)
    requires t in s.tasks
    ensures var u := Advanced(s, t, answer, hash);
            u.tasks.Keys == s.tasks.Keys && u.tasks[t].mediaId == s.tasks[t].mediaId
            && forall i :: i in s.tasks && i != t ==> u.tasks[i] == s.tasks[i]
  {
    hide ContentAddressedKey, ExtensionForContentType, Next;
  }

  /** Once settled, a row stays stored, with the same object, whatever happens afterwards. */
  lemma {:induction false} SettledStays(s: State, a: Action, m: nat, hash: Bytes -> Sha)
    requires Settled(s, m)
    ensures Settled(Apply(s, a, hash), m)
    ensures Apply(s, a, hash).rows[m].storageKey == s.rows[m].storageKey
    ensures Apply(s, a, hash).rows[m].sha256 == s.rows[m].sha256
  {
    hide Advanced;
    if a.Advance? && a.task in s.tasks {
      OneTaskAdvances(s, a.task, a.answer, hash);
      OtherStepsLeaveRow(s, a.task, a.answer, m, hash);
      if s.tasks[a.task].mediaId == m { StoredRowTurnsAway(s, a.task, a.answer, m, hash); }
    }
  }

  lemma {:induction false} SettledForGood(s: State, acts: seq<Action>, m: nat, hash: Bytes -> Sha)
    requires Settled(s, m)
    ensures Settled(After(s, acts, hash), m)
    ensures After(s, acts, hash).rows[m].storageKey == s.rows[m].storageKey
    ensures After(s, acts, hash).rows[m].sha256 == s.rows[m].sha256
  {
    hide Settled, Apply;
    if acts != [] {
      SettledForGood(s, acts[..|acts| - 1], m, hash);
      SettledStays(After(s, acts[..|acts| - 1], hash), acts[|acts| - 1], m, hash);
    }
  }

  // A download that read the row earlier can still take it out of `stored`.

  /** The answers that make a committed download overwrite a stored row. */
  function Spoiling(t: nat, phase: Phase): (acts: seq<Action>)
    requires Committed(phase)
  {
    match phase
    case MarkingSkipped => [Advance(t, Fine)]
    case MarkingDownloading(_) => [Advance(t, Fine)]
    case MarkingFailed => [Advance(t, Fine)]
    case MakingTempDir(_) => [Advance(t, Fine), Advance(t, Throws(false)), Advance(t, Fine)]
    case _ => [Advance(t, Throws(false)), Advance(t, Fine)]
  }

  lemma AfterOne(s: State, a: Action, hash: Bytes -> Sha)
    ensures After(s, [a], hash) == Apply(s, a, hash)
  {
    assert [a][..0] == [];
    assert After(s, [], hash) == s;
  }

  lemma AfterTwo(s: State, a: Action, b: Action, hash: Bytes -> Sha)
    ensures After(s, [a, b], hash) == Apply(Apply(s, a, hash), b, hash)
  {
    hide Apply;
    assert [a, b][..1] == [a];
    AfterOne(s, a, hash);
  }

  lemma AfterThree(s: State, a: Action, b: Action, c: Action, hash: Bytes -> Sha)
    ensures After(s, [a, b, c], hash) == Apply(Apply(Apply(s, a, hash), b, hash), c, hash)
  {
    hide Apply;
    assert [a, b, c][..2] == [a, b];
    AfterTwo(s, a, b, hash);
  }

  lemma {:induction false} SpoilingSpoils(s: State, t: nat, m: nat, hash: Bytes -> Sha)
    requires IsStored(s, m) && t in s.tasks && s.tasks[t].mediaId == m && Committed(s.tasks[t].phase)
    ensures !IsStored(After(s, Spoiling(t, s.tasks[t].phase), hash), m)
  {
    hide ContentAddressedKey, ExtensionForContentType, After;
    var phase := s.tasks[t].phase;
    if phase.MakingTempDir? {
      AfterThree(s, Advance(t, Fine), Advance(t, Throws(false)), Advance(t, Fine), hash);
    } else if Guarded(phase) {
      AfterTwo(s, Advance(t, Throws(false)), Advance(t, Fine), hash);
    } else {
      AfterOne(s, Advance(t, Fine), hash);
    }
  }

  /** `stored` is final exactly when no download of the post is past its look at the row. */
  lemma {:induction false} StoredIsFinalExactly(s: State, m: nat, hash: Bytes -> Sha)
    requires IsStored(s, m)
    ensures !InFlight(s, m) <==> forall acts :: IsStored(After(s, acts, hash), m)
  {
    hide After, Committed;
    if InFlight(s, m) {
      var t :| t in s.tasks && s.tasks[t].mediaId == m && Committed(s.tasks[t].phase);
      SpoilingSpoils(s, t, m, hash);
    } else {
      forall acts ensures IsStored(After(s, acts, hash), m) { SettledForGood(s, acts, m, hash); }
    }
  }

  // ---------------------------------------------------------------- one download of a post at a time

  /** No overlap on one post, and the commit of markStored is not followed by a throw. */
  predicate Orderly(s: State, a: Action) {
    match a
    case Begin(_, m) => forall t :: t in s.tasks && s.tasks[t].mediaId == m ==> s.tasks[t].phase.Done?
    case Advance(t, answer) => t in s.tasks && s.tasks[t].phase.MarkingStored? ==> answer != Throws(true)
    case _ => true
  }

  predicate AllOrderly(s: State, acts: seq<Action>, hash: Bytes -> Sha) {
    acts == [] || (AllOrderly(s, acts[..|acts| - 1], hash)
                   && Orderly(After(s, acts[..|acts| - 1], hash), acts[|acts| - 1]))
  }

  predicate Alone(s: State) {
    forall t, u :: t in s.tasks && u in s.tasks && s.tasks[t].mediaId == s.tasks[u].mediaId ==>
      s.tasks[t].phase.Done? || s.tasks[u].phase.Done? || t == u
  }

  predicate Quiet(s: State) {
    forall t :: t in s.tasks && Committed(s.tasks[t].phase) ==> !IsStored(s, s.tasks[t].mediaId)
  }

  /** A committed download of an unstored row leaves it unstored, or is done with it. */
  lemma CommittedOrDone(s: State, t: nat, answer: Answer, hash: Bytes -> Sha)
    requires t in s.tasks && Orderly(s, Advance(t, answer))
    requires Committed(s.tasks[t].phase) ==> !IsStored(s, s.tasks[t].mediaId)
    ensures var u := Advanced(s, t, answer, hash);
            (Committed(u.tasks[t].phase) ==> !IsStored(u, s.tasks[t].mediaId))
            && (s.tasks[t].phase.Done? ==> u.tasks[t].phase.Done?)
  {
    hide ContentAddressedKey, ExtensionForContentType;
  }

  lemma {:induction false} OrderlyStep(s: State, a: Action, hash: Bytes -> Sha)
    requires Alone(s) && Quiet(s) && Orderly(s, a)
    ensures Alone(Apply(s, a, hash)) && Quiet(Apply(s, a, hash))
  {
    hide Advanced;
    if a.Advance? && a.task in s.tasks {
      var t := a.task;
      var u := Advanced(s, t, a.answer, hash);
      OneTaskAdvances(s, t, a.answer, hash);
      CommittedOrDone(s, t, a.answer, hash);
      forall i | i in u.tasks && Committed(u.tasks[i].phase) && i != t ensures !IsStored(u, u.tasks[i].mediaId) {
        RowsAppearOnlyBySync(s, t, a.answer, u.tasks[i].mediaId, hash);
        if s.tasks[t].mediaId != u.tasks[i].mediaId && u.tasks[i].mediaId in s.rows {
          OtherStepsLeaveRow(s, t, a.answer, u.tasks[i].mediaId, hash);
        }
      }
    }
  }

  lemma RowsAppearOnlyBySync(s: State, t: nat, answer: Answer, m: nat, hash: Bytes -> Sha)
    requires t in s.tasks
    ensures m in Advanced(s, t, answer, hash).rows <==> m in s.rows
    ensures s.tasks[t].phase.Done? ==> Advanced(s, t, answer, hash) == s
  {
    hide ContentAddressedKey, ExtensionForContentType, Next;
  }

  /** One download of a post at a time: every stored row is settled, so `stored` absorbs. */
  lemma {:induction false} SequentiallyStoredAbsorbs(s: State, acts: seq<Action>, m: nat, hash: Bytes -> Sha)
    requires Fresh(s) && AllOrderly(s, acts, hash)
    ensures IsStored(After(s, acts, hash), m) ==> Settled(After(s, acts, hash), m)
  {
    hide Apply, Committed;
    OrderlyRun(s, acts, hash);
  }

  lemma {:induction false} OrderlyRun(s: State, acts: seq<Action>, hash: Bytes -> Sha)
    requires Fresh(s) && AllOrderly(s, acts, hash)
    ensures Alone(After(s, acts, hash)) && Quiet(After(s, acts, hash))
  {
    hide Apply, Alone, Quiet, Orderly;
    if acts == [] {
      FreshIsQuiet(s);
    } else {
      OrderlyRun(s, acts[..|acts| - 1], hash);
      OrderlyStep(After(s, acts[..|acts| - 1], hash), acts[|acts| - 1], hash);
    }
  }

  lemma FreshIsQuiet(s: State)
    requires Fresh(s)
    ensures Alone(s) && Quiet(s)
  {
  }

  // ---------------------------------------------------------------- one download, start to end

  function Rank(phase: Phase): nat {
    match phase
    case FindingMedia => 9
    case FindingAsset(_) => 8
    case MarkingDownloading(_) => 7
    case MakingTempDir(_) => 6
    case Fetching(_) => 5
    case CheckingStorage(_) => 4
    case Putting(_) => 3
    case MarkingStored(_, _) => 2
    case MarkingSkipped => 1
    case MarkingFailed => 1
    case Done(_) => 0
  }

  lemma OutcomeDescends(s: State, m: nat, phase: Phase, answer: Answer, hash: Bytes -> Sha)
    requires !phase.Done?
    ensures Rank(Outcome(s, m, phase, answer, hash)) < Rank(phase)
  {
  }

  /** A download that nobody interrupts: each phase is visited once, so `world` answers per phase. */
  function Finished(s: State, m: nat, phase: Phase, world: Phase -> Answer, hash: Bytes -> Sha): (State, Verdict)
    decreases Rank(phase)
  {
    if phase.Done? then (s, phase.verdict) else
    OutcomeDescends(s, m, phase, world(phase), hash);
    Finished(Worked(s, m, phase, world(phase)), m, Outcome(s, m, phase, world(phase), hash), world, hash)
  }

  lemma FinishedStep(s: State, m: nat, phase: Phase, world: Phase -> Answer, hash: Bytes -> Sha)
    ensures Finished(s, m, phase, world, hash)
            == if phase.Done? then (s, phase.verdict) else
               Finished(Worked(s, m, phase, world(phase)), m, Outcome(s, m, phase, world(phase), hash), world, hash)
  {
  }

  /** The schedule in which task t takes all its remaining steps in a row. */
  function Steps(s: State, t: nat, m: nat, phase: Phase, world: Phase -> Answer, hash: Bytes -> Sha): seq<Action>
    decreases Rank(phase)
  {
    if phase.Done? then [] else
    OutcomeDescends(s, m, phase, world(phase), hash);
    [Advance(t, world(phase))]
    + Steps(Worked(s, m, phase, world(phase)), t, m, Outcome(s, m, phase, world(phase), hash), world, hash)
  }

  lemma {:induction false} AfterAppend(s: State, acts: seq<Action>, more: seq<Action>, hash: Bytes -> Sha)
    ensures After(s, acts + more, hash) == After(After(s, acts, hash), more, hash)
  {
    hide Apply;
    if more == [] {
      assert acts + more == acts;
    } else {
      assert (acts + more)[..|acts + more| - 1] == acts + more[..|more| - 1];
      AfterAppend(s, acts, more[..|more| - 1], hash);
    }
  }

  predicate SameTables(s: State, u: State) {
    s.(tasks := map[]) == u.(tasks := map[])
  }

  lemma StepIgnoresTasks(s: State, u: State, m: nat, phase: Phase, answer: Answer, hash: Bytes -> Sha)
    requires SameTables(s, u)
    ensures SameTables(Worked(s, m, phase, answer), Worked(u, m, phase, answer))
    ensures Outcome(s, m, phase, answer, hash) == Outcome(u, m, phase, answer, hash)
    ensures Worked(u, m, phase, answer).tasks == u.tasks
  {
    hide ExtensionForContentType;
  }

  /** An uninterrupted download is one of the machine's schedules: what holds after all of them holds after it. */
  lemma {:induction false} DownloadIsASchedule(
    s: State, u: State, t: nat, m: nat, phase: Phase, world: Phase -> Answer, hash: Bytes -> Sha)
    requires SameTables(s, u) && t in u.tasks && u.tasks[t] == Task(m, phase)
    ensures var end := After(u, Steps(s, t, m, phase, world, hash), hash);
            SameTables(end, Finished(s, m, phase, world, hash).0)
            && end.tasks == u.tasks[t := Task(m, Done(Finished(s, m, phase, world, hash).1))]
    decreases Rank(phase)
  {
    hide Worked, Outcome;
    if phase.Done? {
      assert u.tasks[t := u.tasks[t]] == u.tasks;
    } else {
      var answer := world(phase);
      OutcomeDescends(s, m, phase, answer, hash);
      StepIgnoresTasks(s, u, m, phase, answer, hash);
      var s1, u1 := Worked(s, m, phase, answer), Apply(u, Advance(t, answer), hash);
      var next := Outcome(s, m, phase, answer, hash);
      DownloadIsASchedule(s1, u1, t, m, next, world, hash);
      AfterOne(u, Advance(t, answer), hash);
      AfterAppend(u, [Advance(t, answer)], Steps(s1, t, m, next, world, hash), hash);
    }
  }

  // The other side of finality is reachable: two downloads of one post overlap.

  /** Every step succeeds, and the file is empty and untyped. */
  function Smoothly(phase: Phase): Answer {
    if phase.Fetching? then Received([], None) else Fine
  }

  lemma {:induction false} SmoothDownloadStores(s: State, m: nat, url: string, hash: Bytes -> Sha)
    requires m in s.media && m in s.rows && s.rows[m].status != Stored && s.rows[m].fetchedFromUrl == Some(url)
    requires url != ""
    ensures IsStored(Finished(s, m, FindingMedia, Smoothly, hash).0, m)
  {
    hide Finished, ContentAddressedKey;
    FinishedStep(s, m, FindingMedia, Smoothly, hash);
    FinishedStep(s, m, FindingAsset(s.media[m]), Smoothly, hash);
    FinishedStep(s, m, MarkingDownloading(url), Smoothly, hash);
    var s1 := Worked(s, m, MarkingDownloading(url), Fine);
    FinishedStep(s1, m, MakingTempDir(url), Smoothly, hash);
    FinishedStep(s1, m, Fetching(url), Smoothly, hash);
    var file := File([], None, hash([]), ".bin");
    var s2 := Worked(s1, m, Fetching(url), Received([], None));
    FinishedStep(s2, m, CheckingStorage(file), Smoothly, hash);
    FileIsStored(s2, m, file, hash);
  }

  lemma {:induction false} FileIsStored(s: State, m: nat, file: File, hash: Bytes -> Sha)
    requires m in s.rows
    ensures IsStored(Finished(s, m, Next(s, m, CheckingStorage(file), Fine, hash), Smoothly, hash).0, m)
  {
    hide Finished, ContentAddressedKey;
    var found := file.Key() in s.objects;
    FinishedStep(s, m, Putting(file), Smoothly, hash);
    var s1 := if found then s else PutObject(s, file);
    FinishedStep(s1, m, MarkingStored(file, found), Smoothly, hash);
    var s2 := MarkStored(s1, m, file);
    FinishedStep(s2, m, Done(if found then WasDeduplicated else WasStored), Smoothly, hash);
  }

  /** Two downloads of a fresh post begin, and the second looks at its row. */
  lemma {:induction false} BothBegin(s: State, m: nat, url: string, hash: Bytes -> Sha) returns (acts: seq<Action>)
    requires Fresh(s) && m in s.media && s.media[m] == Some(url) && url != ""
    ensures var t := After(s, acts, hash);
            t.media == s.media && m in t.rows && t.rows[m].status == Pending && t.rows[m].fetchedFromUrl == Some(url)
            && t.tasks == map[1 := Task(m, FindingMedia), 2 := Task(m, MarkingDownloading(url))]
  {
    hide After, ContentAddressedKey, ExtensionForContentType;
    var opening := [EnsurePending(m, Some(url)), Begin(1, m), Begin(2, m)];
    AfterThree(s, opening[0], opening[1], opening[2], hash);
    var s1 := After(s, opening, hash);
    AfterTwo(s1, Advance(2, Fine), Advance(2, Fine), hash);
    AfterAppend(s, opening, [Advance(2, Fine), Advance(2, Fine)], hash);
    acts := opening + [Advance(2, Fine), Advance(2, Fine)];
  }

  /** From nothing stored: one download stores the post while another has already looked at the row. */
  lemma {:induction false} StoredWhileInFlight(s: State, m: nat, url: string, hash: Bytes -> Sha)
    requires Fresh(s) && m in s.media && s.media[m] == Some(url) && url != ""
    ensures exists acts :: IsStored(After(s, acts, hash), m) && InFlight(After(s, acts, hash), m)
  {
    hide After, Steps, Finished;
    var acts := BothBegin(s, m, url, hash);
    var t := After(s, acts, hash);
    SmoothDownloadStores(t, m, url, hash);
    var rest := Steps(t, 1, m, FindingMedia, Smoothly, hash);
    DownloadIsASchedule(t, t, 1, m, FindingMedia, Smoothly, hash);
    AfterAppend(s, acts, rest, hash);
    var end := After(s, acts + rest, hash);
    assert end.rows == Finished(t, m, FindingMedia, Smoothly, hash).0.rows;
    assert 2 in end.tasks && end.tasks[2] == Task(m, MarkingDownloading(url));
  }

  class MediaAssetService {
    var media: map<nat, Option<string>>
    var rows: map<nat, AssetRow>
    var objects: map<string, Bytes>
    ghost var put: set<(Sha, string)>
    ghost var fetched: set<Bytes>

    ghost function Contents(): State
      reads this
    {
      State(media, rows, objects, put, fetched, map[])
    }

    /** The body of the try block, up to the step that throws: None when one did. */
    method Fetch(m: nat, url: string, world: Phase -> Answer, hash: Bytes -> Sha) returns (v: Option<Verdict>)
      modifies this`rows, this`objects, this`put, this`fetched
      ensures media == old(media)
      ensures Finished(old(Contents()), m, Fetching(url), world, hash)
              == if v.Some? then (Contents(), v.value) else Finished(Contents(), m, MarkingFailed, world, hash)
    {
      hide Finished, ContentAddressedKey, ExtensionForContentType;
      ghost var after := Finished(old(Contents()), m, Fetching(url), world, hash);
      FinishedStep(Contents(), m, Fetching(url), world, hash);
      var reply := world(Fetching(url));
      if !reply.Received? { return None; }
      fetched := fetched + {reply.body};
      var extension := ExtensionForContentType(reply.contentType);
      if extension.None? { return None; }
      var file := File(reply.body, reply.contentType, hash(reply.body), extension.value);
      var key := file.Key();

      FinishedStep(Contents(), m, CheckingStorage(file), world, hash);
      if world(CheckingStorage(file)).Throws? { return None; }
      var deduplicated := key in objects;
      if !deduplicated {
        FinishedStep(Contents(), m, Putting(file), world, hash);
        if world(Putting(file)) == Throws(false) { return None; }
        objects := objects[key := file.body];
        put := put + {(file.sha256, file.extension)};
        if world(Putting(file)).Throws? { return None; }
      }
      assert after == Finished(Contents(), m, MarkingStored(file, deduplicated), world, hash);
      FinishedStep(Contents(), m, MarkingStored(file, deduplicated), world, hash);
      if world(MarkingStored(file, deduplicated)) == Throws(false) { return None; }
      if m in rows {
        rows := rows[m := rows[m].(status := Stored, sha256 := Some(file.sha256), storageKey := Some(key),
                                   contentType := file.contentType, sizeBytes := Some(|file.body|))];
      }
      if world(MarkingStored(file, deduplicated)).Throws? { return None; }
      v := Some(if deduplicated then WasDeduplicated else WasStored);
      FinishedStep(Contents(), m, Done(v.value), world, hash);
    }

    /** The whole call: the tables, the store and the verdict are those of the uninterrupted run of steps. */
    method Download(m: nat, world: Phase -> Answer, hash: Bytes -> Sha) returns (v: Verdict)
      modifies this`rows, this`objects, this`put, this`fetched
      ensures media == old(media)
      ensures (Contents(), v) == Finished(old(Contents()), m, FindingMedia, world, hash)
    {
      hide Finished, ContentAddressedKey, ExtensionForContentType;
      ghost var after := Finished(old(Contents()), m, FindingMedia, world, hash);
      FinishedStep(Contents(), m, FindingMedia, world, hash);
      FinishedStep(Contents(), m, Done(HasFailed), world, hash);
      FinishedStep(Contents(), m, Done(MediaGone), world, hash);
      FinishedStep(Contents(), m, Done(WasSkipped), world, hash);
      if world(FindingMedia).Throws? { return HasFailed; }
      if m !in media { return MediaGone; }
      FinishedStep(Contents(), m, FindingAsset(media[m]), world, hash);
      if world(FindingAsset(media[m])).Throws? { return HasFailed; }
      if m in rows && rows[m].status == Stored { return WasSkipped; }
      var url := Or(if m in rows then rows[m].fetchedFromUrl else None, media[m]);
      if !Usable(url) {
        FinishedStep(Contents(), m, MarkingSkipped, world, hash);
        if world(MarkingSkipped) == Throws(false) { return HasFailed; }
        if m in rows { rows := rows[m := rows[m].(status := Skipped)]; }
        v := if world(MarkingSkipped).Throws? then HasFailed else WasSkipped;
        FinishedStep(Contents(), m, Done(v), world, hash);
        return;
      }
      assert after == Finished(Contents(), m, MarkingDownloading(url.value), world, hash);
      FinishedStep(Contents(), m, MarkingDownloading(url.value), world, hash);
      if world(MarkingDownloading(url.value)) == Throws(false) { return HasFailed; }
      if m in rows {
        rows := rows[m := rows[m].(status := Downloading, attempts := rows[m].attempts + 1)];
      }
      FinishedStep(Contents(), m, MakingTempDir(url.value), world, hash);
      FinishedStep(Contents(), m, Done(HasFailed), world, hash);
      if world(MarkingDownloading(url.value)).Throws? || world(MakingTempDir(url.value)).Throws? { return HasFailed; }
      var caught := Fetch(m, url.value, world, hash);
      if caught.Some? { return caught.value; }
      FinishedStep(Contents(), m, MarkingFailed, world, hash);
      if m in rows && world(MarkingFailed) != Throws(false) { rows := rows[m := rows[m].(status := FailedDownload)]; }
      FinishedStep(Contents(), m, Done(HasFailed), world, hash);
      return HasFailed;
    }
  }
}
