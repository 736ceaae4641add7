/**
 * One download in columns: what each verdict says about the row, the object store and the response,
 * whatever threw on the way, and which verdict it is when no step but the fetch throws.
 */
module DownloadColumns {
  import opened MetaTypes
  import opened Storage
  import opened AssetStore

  /** No other post's row is touched, and none appears or goes. */
  ghost predicate OnlyRow(s: State, t: State, m: nat) {
    t.media == s.media
    && forall k :: (k in t.rows <==> k in s.rows) && (k in t.rows && k != m ==> t.rows[k] == s.rows[k])
  }

  /** The row names the stored file; the URL stays and `attempts` is as given. */
  ghost predicate NamesFile(s: State, t: State, m: nat, file: File, attempts: nat) {
    m in s.rows && m in t.rows ==>
      var before, row := s.rows[m], t.rows[m];
      row.status == Stored && row.sha256 == Some(file.sha256)
      && row.storageKey == Some(ContentAddressedKey(file.sha256, file.extension))
      && row.contentType == file.contentType && row.sizeBytes == Some(|file.body|)
      && row.fetchedFromUrl == before.fetchedFromUrl && row.attempts == attempts
  }

  function AttemptsOf(s: State, m: nat): nat {
    if m in s.rows then s.rows[m].attempts else 0
  }

  /** Uploaded when nothing lay under the key, and deduplicated when something did. */
  ghost predicate Filed(s: State, t: State, m: nat, file: File, v: Verdict, attempts: nat) {
    var key := ContentAddressedKey(file.sha256, file.extension);
    match v
    case WasStored =>
      key !in s.objects && t.objects == s.objects[key := file.body] && NamesFile(s, t, m, file, attempts)
    case WasDeduplicated => key in s.objects && t.objects == s.objects && NamesFile(s, t, m, file, attempts)
    case HasFailed => true
    case _ => false
  }

  /** Only the fetch may throw. */
  ghost predicate Steady(world: Phase -> Answer) {
    forall phase: Phase :: phase.Fetching? || !world(phase).Throws?
  }

  /** Only a step of the try block may throw: the fetch, the storage calls and the stored mark. */
  ghost predicate ThrowsInTryOnly(world: Phase -> Answer) {
    forall phase: Phase ::
      phase.Fetching? || phase.CheckingStorage? || phase.Putting? || phase.MarkingStored? || !world(phase).Throws?
  }

  /** A failure of the try block is on the row. */
  ghost predicate FailureMarked(t: State, m: nat, world: Phase -> Answer, v: Verdict) {
    v == HasFailed && ThrowsInTryOnly(world) && m in t.rows ==> t.rows[m].status == FailedDownload
  }

  lemma {:induction false} FailingTouchesOneRow(s: State, m: nat, world: Phase -> Answer, hash: Bytes -> Sha)
    ensures var (t, v) := Finished(s, m, MarkingFailed, world, hash);
            v == HasFailed && OnlyRow(s, t, m) && t.objects == s.objects && AttemptsOf(t, m) == AttemptsOf(s, m)
            && FailureMarked(t, m, world, v)
  {
    hide Finished;
    FinishedStep(s, m, MarkingFailed, world, hash);
    FinishedStep(Worked(s, m, MarkingFailed, world(MarkingFailed)), m, Done(HasFailed), world, hash);
  }

  lemma {:induction false} MarkingFiles(
    s: State, m: nat, file: File, deduplicated: bool, world: Phase -> Answer, hash: Bytes -> Sha)
    ensures var (t, v) := Finished(s, m, MarkingStored(file, deduplicated), world, hash);
            OnlyRow(s, t, m) && t.objects == s.objects && FailureMarked(t, m, world, v)
            && (v == HasFailed || v == if deduplicated then WasDeduplicated else WasStored)
            && (v != HasFailed ==> NamesFile(s, t, m, file, AttemptsOf(s, m)))
            && (Steady(world) ==> v != HasFailed)
  {
    hide Finished, ContentAddressedKey, ExtensionForContentType, PutObject, MarkFailed, MarkSkipped, MarkDownloading;
    var phase := MarkingStored(file, deduplicated);
    var s1 := Worked(s, m, phase, world(phase));
    FinishedStep(s, m, phase, world, hash);
    FinishedStep(s1, m, Done(if deduplicated then WasDeduplicated else WasStored), world, hash);
    FailingTouchesOneRow(s1, m, world, hash);
  }

  lemma {:induction false} PuttingFiles(s: State, m: nat, file: File, world: Phase -> Answer, hash: Bytes -> Sha)
    ensures var (t, v) := Finished(s, m, Putting(file), world, hash);
            OnlyRow(s, t, m) && FailureMarked(t, m, world, v) && (v == HasFailed || v == WasStored)
            && (v == WasStored ==> t.objects == s.objects[file.Key() := file.body]
                                   && NamesFile(s, t, m, file, AttemptsOf(s, m)))
            && (Steady(world) ==> v == WasStored)
  {
    hide Finished, ContentAddressedKey;
    var s1 := Worked(s, m, Putting(file), world(Putting(file)));
    FinishedStep(s, m, Putting(file), world, hash);
    FailingTouchesOneRow(s1, m, world, hash);
    MarkingFiles(s1, m, file, false, world, hash);
  }

  lemma {:induction false} CheckingFiles(s: State, m: nat, file: File, world: Phase -> Answer, hash: Bytes -> Sha)
    ensures var (t, v) := Finished(s, m, CheckingStorage(file), world, hash);
            OnlyRow(s, t, m) && FailureMarked(t, m, world, v)
            && Filed(s, t, m, file, v, AttemptsOf(s, m)) && (Steady(world) ==> v != HasFailed)
  {
    hide Finished, ContentAddressedKey, NamesFile;
    FinishedStep(s, m, CheckingStorage(file), world, hash);
    FailingTouchesOneRow(s, m, world, hash);
    MarkingFiles(s, m, file, true, world, hash);
    PuttingFiles(s, m, file, world, hash);
  }

  /** The response is a file: its body, its type, the hash of the body and the extension of the type. */
  predicate IsFile(reply: Answer, file: File, hash: Bytes -> Sha) {
    reply == Received(file.body, file.contentType) && file.sha256 == hash(file.body)
    && ExtensionForContentType(file.contentType) == Some(file.extension)
  }

  lemma {:induction false} FetchingFiles(s: State, m: nat, url: string, world: Phase -> Answer, hash: Bytes -> Sha)
    ensures var (t, v) := Finished(s, m, Fetching(url), world, hash);
            OnlyRow(s, t, m) && FailureMarked(t, m, world, v)
            && (v == WasStored || v == WasDeduplicated || v == HasFailed)
            && (forall file :: IsFile(world(Fetching(url)), file, hash) ==>
                  Filed(s, t, m, file, v, AttemptsOf(s, m)) && (Steady(world) ==> v != HasFailed))
            && ((forall file :: !IsFile(world(Fetching(url)), file, hash)) ==>
                  v == HasFailed && t.objects == s.objects
                  && (m in t.rows ==> t.rows[m].attempts == s.rows[m].attempts))
  {
    hide Finished, ContentAddressedKey, ExtensionForContentType;
    var reply := world(Fetching(url));
    var s1 := Worked(s, m, Fetching(url), reply);
    FinishedStep(s, m, Fetching(url), world, hash);
    FailingTouchesOneRow(s1, m, world, hash);
    if reply.Received? && ExtensionForContentType(reply.contentType).Some? {
      var file := File(reply.body, reply.contentType, hash(reply.body),
                       ExtensionForContentType(reply.contentType).value);
      assert IsFile(reply, file, hash);
      CheckingFiles(s1, m, file, world, hash);
      assert forall f :: IsFile(reply, f, hash) ==> f == file;
    }
  }

  /** The URL a download goes by: the one on the row, even an empty one, or else the post's. */
  function UrlFor(s: State, m: nat): Option<string>
    requires m in s.media
  {
    if m in s.rows && s.rows[m].fetchedFromUrl.Some? then s.rows[m].fetchedFromUrl else s.media[m]
  }

  predicate HasUrl(s: State, m: nat)
    requires m in s.media
  {
    UrlFor(s, m).Some? && UrlFor(s, m).value != ""
  }

  /**
   * What a verdict can be believed for, whatever threw. Gone: no such post. Skipped: the row was
   * stored and nothing changed, or there was no URL and the row says skipped. Stored or deduplicated:
   * the response was a file, it lies under its content address, which was free or taken, and the row
   * names it. Failed inside the try block: the row says so.
   */
  lemma {:induction false} VerdictsInColumns(s: State, m: nat, world: Phase -> Answer, hash: Bytes -> Sha)
    ensures var (t, v) := Finished(s, m, FindingMedia, world, hash);
            OnlyRow(s, t, m)
            && FailureMarked(t, m, world, v)
            && (v == MediaGone ==> m !in s.media && t == s)
            && (v == WasSkipped ==>
                  m in s.media && t.objects == s.objects
                  && (if m in s.rows && s.rows[m].status == Stored then t == s
                      else !HasUrl(s, m) && (m in t.rows ==> t.rows[m] == s.rows[m].(status := Skipped))))
            && (v == WasStored || v == WasDeduplicated ==>
                  m in s.media && HasUrl(s, m) && !(m in s.rows && s.rows[m].status == Stored)
                  && exists file :: IsFile(world(Fetching(UrlFor(s, m).value)), file, hash)
                                    && Filed(s, t, m, file, v, AttemptsOf(s, m) + 1))
  {
    hide Finished, ContentAddressedKey, ExtensionForContentType, Filed, IsFile;
    FinishedStep(s, m, FindingMedia, world, hash);
    FinishedStep(s, m, Done(MediaGone), world, hash);
    FinishedStep(s, m, Done(HasFailed), world, hash);
    if m in s.media && !world(FindingMedia).Throws? {
      FinishedStep(s, m, FindingAsset(s.media[m]), world, hash);
      FinishedStep(s, m, Done(WasSkipped), world, hash);
      if !world(FindingAsset(s.media[m])).Throws? && !(m in s.rows && s.rows[m].status == Stored) {
        if HasUrl(s, m) { WithUrl(s, m, UrlFor(s, m).value, world, hash); } else { WithoutUrl(s, m, world, hash); }
      }
    }
  }

  lemma {:induction false} WithoutUrl(s: State, m: nat, world: Phase -> Answer, hash: Bytes -> Sha)
    ensures var (t, v) := Finished(s, m, MarkingSkipped, world, hash);
            OnlyRow(s, t, m) && t.objects == s.objects && (v == WasSkipped || v == HasFailed)
            && (ThrowsInTryOnly(world) ==> v == WasSkipped)
            && (v == WasSkipped && m in t.rows ==> t.rows[m] == s.rows[m].(status := Skipped))
            && (Steady(world) ==> v == WasSkipped)
  {
    hide Finished;
    var s1 := Worked(s, m, MarkingSkipped, world(MarkingSkipped));
    FinishedStep(s, m, MarkingSkipped, world, hash);
    FinishedStep(s1, m, Done(WasSkipped), world, hash);
    FinishedStep(s1, m, Done(HasFailed), world, hash);
  }

  lemma {:induction false} WithUrl(s: State, m: nat, url: string, world: Phase -> Answer, hash: Bytes -> Sha)
    ensures var (t, v) := Finished(s, m, MarkingDownloading(url), world, hash);
            OnlyRow(s, t, m) && FailureMarked(t, m, world, v)
            && (v == WasStored || v == WasDeduplicated || v == HasFailed)
            && (v != HasFailed ==>
                  exists file ::
                    IsFile(world(Fetching(url)), file, hash) && Filed(s, t, m, file, v, AttemptsOf(s, m) + 1))
            && (Steady(world) && (exists file :: IsFile(world(Fetching(url)), file, hash)) ==> v != HasFailed)
            && (Steady(world) && !(exists file :: IsFile(world(Fetching(url)), file, hash)) ==>
                  v == HasFailed && t.objects == s.objects
                  && (m in t.rows ==> t.rows[m].attempts == s.rows[m].attempts + 1))
  {
    hide Finished, ContentAddressedKey, ExtensionForContentType, IsFile, Worked, Outcome, Filed;
    DownloadingStarts(s, m, url, world, hash);
    var s1 := MarkDownloading(s, m);
    FetchingFiles(s1, m, url, world, hash);
    var (t, v) := Finished(s1, m, Fetching(url), world, hash);
    if file :| IsFile(world(Fetching(url)), file, hash) { StillFiled(s, t, m, file, v); }
  }

  lemma {:induction false} DownloadingStarts(s: State, m: nat, url: string, world: Phase -> Answer, hash: Bytes -> Sha)
    ensures var s1 := MarkDownloading(s, m);
            Finished(s, m, MarkingDownloading(url), world, hash)
            == if world(MarkingDownloading(url)) == Throws(false) then (s, HasFailed)
               else if world(MarkingDownloading(url)).Throws? || world(MakingTempDir(url)).Throws? then (s1, HasFailed)
               else Finished(s1, m, Fetching(url), world, hash)
  {
    hide Finished, MarkDownloading;
    var s1 := Worked(s, m, MarkingDownloading(url), world(MarkingDownloading(url)));
    FinishedStep(s, m, MarkingDownloading(url), world, hash);
    FinishedStep(s1, m, MakingTempDir(url), world, hash);
    FinishedStep(s1, m, Done(HasFailed), world, hash);
  }

  lemma StillFiled(s: State, t: State, m: nat, file: File, v: Verdict)
    requires var s1 := MarkDownloading(s, m); Filed(s1, t, m, file, v, AttemptsOf(s1, m))
    ensures Filed(s, t, m, file, v, AttemptsOf(s, m) + 1)
  {
    hide ContentAddressedKey;
  }

  /**
   * Where nothing but the fetch throws, the verdict is decided by the tables and the response alone:
   * gone without the post, skipped when stored already or without a URL, failed without a file to
   * keep, and otherwise deduplicated or stored by whether the address was taken.
   */
  lemma {:induction false} SteadyVerdict(s: State, m: nat, world: Phase -> Answer, hash: Bytes -> Sha)
    requires Steady(world)
    ensures var (t, v) := Finished(s, m, FindingMedia, world, hash);
            OnlyRow(s, t, m)
            && (v == MediaGone <==> m !in s.media)
            && (v == WasSkipped <==> m in s.media && ((m in s.rows && s.rows[m].status == Stored) || !HasUrl(s, m)))
            && (v == HasFailed <==>
                  m in s.media && !(m in s.rows && s.rows[m].status == Stored) && HasUrl(s, m)
                  && !(exists file :: IsFile(world(Fetching(UrlFor(s, m).value)), file, hash)))
            && (v == HasFailed && m in t.rows ==> t.rows[m].attempts == s.rows[m].attempts + 1)
  {
    hide Finished, ContentAddressedKey, ExtensionForContentType, Filed, IsFile;
    FinishedStep(s, m, FindingMedia, world, hash);
    FinishedStep(s, m, Done(MediaGone), world, hash);
    if m in s.media {
      FinishedStep(s, m, FindingAsset(s.media[m]), world, hash);
      FinishedStep(s, m, Done(WasSkipped), world, hash);
      if !(m in s.rows && s.rows[m].status == Stored) {
        if HasUrl(s, m) { WithUrl(s, m, UrlFor(s, m).value, world, hash); } else { WithoutUrl(s, m, world, hash); }
      }
    }
  }

  /**
   * The sync's row write, from the download's side: a new row is pending or skipped by whether there
   * is a URL and has nothing stored, an old one only gets the URL, and nothing else changes.
   */
  lemma {:induction false} SyncWritesOneRow(s: State, m: nat, url: Option<string>, hash: Bytes -> Sha)
    ensures var t := Apply(s, EnsurePending(m, url), hash);
            m in t.rows && t.rows[m].fetchedFromUrl == url
            && t.rows - {m} == s.rows - {m} && t == s.(rows := t.rows)
            && (m in s.rows ==> t.rows[m] == s.rows[m].(fetchedFromUrl := url))
            && (m !in s.rows ==>
                  t.rows[m].storageKey.None? && t.rows[m].sha256.None? && t.rows[m].attempts == 0
                  && t.rows[m].status == if url.Some? && url.value != "" then Pending else Skipped)
  {
  }
}
