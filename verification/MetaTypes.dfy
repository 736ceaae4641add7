/** What Meta returns for one post, and the small value types every other module shares. */
module MetaTypes {
  datatype Option<+T> = None | Some(value: T)

  datatype MediaType = IMAGE | VIDEO | CAROUSEL_ALBUM

  /** The two hashtag edges. Position is a popularity rank on Top only. */
  datatype Source = Top | Recent

  /**
   * One media object of a response. `takenAt` is the parsed `timestamp`; None stands for a
   * timestamp that does not parse, on which the upsert throws.
   */
  datatype Media = Media(
    id: string,
    mediaType: MediaType,
    takenAt: Option<int>,
    permalink: string,
    mediaUrl: Option<string>,
    caption: Option<string>,
    likeCount: Option<nat>,
    commentsCount: Option<nat>)

  /** What the code's truthiness tests accept as a URL. */
  predicate Usable(url: Option<string>) {
    url.Some? && url.value != ""
  }

  /** The items of one response as the client yields them; the last page of an edge has no next cursor. */
  datatype MediaPage = MediaPage(items: seq<Media>, nextCursor: Option<nat>, pageNumber: nat)

  /** A cursor is a position on the edge; without one a walk starts at the front. */
  function Position(cursor: Option<nat>): nat {
    if cursor.Some? then cursor.value else 0
  }

  datatype RunStatus = Running | Succeeded | Partial | Failed

  datatype AssetStatus = Pending | Downloading | Stored | FailedDownload | Skipped
}
