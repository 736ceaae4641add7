/**
 * The Graph API client: the retry loop around one request, and the walk over a media edge that
 * negotiates the page size with Meta and remembers what was accepted. Meta is a function of the
 * request number, the cursor and the limit, so it may answer the same question differently each time.
 */
module MetaGraphClient {
  import opened MetaTypes

  datatype MetaError =
    | NetworkFailure | InvalidJson | AuthFailed | RateLimited | PayloadTooLarge
    | Transient | RequestRejected | HttpFailure | SchemaMismatch | Unavailable

  datatype Result<+T> = Ok(value: T) | Err(error: MetaError)

  /** A parsed page body. `after` is the cursor, `next` whether a next link was present. */
  datatype Body = Body(items: seq<Media>, after: Option<nat>, next: bool)

  datatype Content =
    | NotJson
    | ErrorEnvelope(code: Option<int>, asksForLessData: bool)
    | Payload(parsed: Option<Body>)

  datatype Response = NoResponse | Response(status: nat, content: Content)

  /** What one attempt means: stop with a result, or try again. */
  datatype Verdict = Stop(result: Result<Body>) | Retry(error: MetaError)

  const MAX_ATTEMPTS: nat := 4

  predicate IsAuthCode(code: int) { code in {190, 102, 463, 467} }

  predicate IsRateLimitCode(code: int) { code in {4, 17, 32, 613, 80004} }

  predicate IsRetryable(status: nat) { status in {408, 425, 429, 500, 502, 503, 504} }

  function Classify(r: Response): Verdict {
    if r.NoResponse? then Retry(NetworkFailure)
    else
      match r.content
      case NotJson => Retry(InvalidJson)
      case ErrorEnvelope(code, asksForLessData) =>
        if code.Some? && IsAuthCode(code.value) then Stop(Err(AuthFailed))
        else if (code.Some? && IsRateLimitCode(code.value)) || r.status == 429 then Retry(RateLimited)
        else if code == Some(1) && asksForLessData then Stop(Err(PayloadTooLarge))
        else if IsRetryable(r.status) then Retry(Transient)
        else Stop(Err(RequestRejected))
      case Payload(parsed) =>
        if !(200 <= r.status < 300) then
          if IsRetryable(r.status) then Retry(HttpFailure) else Stop(Err(HttpFailure))
        else if parsed.Some? then Stop(Ok(parsed.value))
        else Stop(Err(SchemaMismatch))
  }

  /** The attempts of one request, numbered from 1. */
  type Attempts = nat -> Response

  /** Attempt k is the first whose answer is final. */
  ghost predicate FirstFinal(answer: Attempts, k: nat) {
    1 <= k && Classify(answer(k)).Stop? && forall j: nat :: 1 <= j < k ==> Classify(answer(j)).Retry?
  }

  /** A request ends with its first final answer, or with its last error when attempts run out. */
  ghost predicate RequestEnds(answer: Attempts, maxAttempts: nat, r: Result<Body>, used: nat) {
    || (FirstFinal(answer, used) && used <= maxAttempts && r == Classify(answer(used)).result)
    || (&& (forall j: nat :: 1 <= j <= maxAttempts ==> Classify(answer(j)).Retry?)
        && used == maxAttempts
        && r == Err(if maxAttempts == 0 then Unavailable else Classify(answer(maxAttempts)).error))
  }

  method Request(answer: Attempts, maxAttempts: nat) returns (r: Result<Body>, used: nat)
    ensures RequestEnds(answer, maxAttempts, r, used)
    ensures used <= maxAttempts
  {
    var lastError := Unavailable;
    used := 0;
    while used < maxAttempts
      invariant used <= maxAttempts
      invariant forall j: nat :: 1 <= j <= used ==> Classify(answer(j)).Retry?
      invariant lastError == if used == 0 then Unavailable else Classify(answer(used)).error
    {
      used := used + 1;
      var verdict := Classify(answer(used));
      if verdict.Stop? {
        return verdict.result, used;
      }
      lastError := verdict.error;
    }
    r := Err(lastError);
  }

  /** Asking for less data is never retried unchanged, whatever the HTTP status says. */
  lemma TooLargeIsFinal(answer: Attempts, maxAttempts: nat, k: nat, r: Result<Body>, used: nat)
    requires RequestEnds(answer, maxAttempts, r, used) && 1 <= k <= used
    requires answer(k).Response? && answer(k).content == ErrorEnvelope(Some(1), true) && answer(k).status != 429
    ensures k == used && r == Err(PayloadTooLarge)
  {
    assert Classify(answer(k)).Stop?;
  }

  predicate Enveloped(r: Response) {
    r.Response? && r.content.ErrorEnvelope?
  }

  predicate CodeIn(r: Response, codes: set<int>)
    requires Enveloped(r)
  {
    r.content.code.Some? && r.content.code.value in codes
  }

  /** An error envelope about neither the token nor the rate. */
  predicate OtherError(r: Response) {
    Enveloped(r) && !CodeIn(r, {190, 102, 463, 467}) && !CodeIn(r, {4, 17, 32, 613, 80004}) && r.status != 429
  }

  predicate Plain(r: Response) {
    r.Response? && r.content.Payload?
  }

  /** What an answer means, outcome by outcome. */
  predicate Means(r: Response, v: Verdict) {
    match v
    case Stop(Ok(body)) => Plain(r) && 200 <= r.status <= 299 && r.content.parsed == Some(body)
    case Stop(Err(SchemaMismatch)) => Plain(r) && 200 <= r.status <= 299 && r.content.parsed.None?
    case Stop(Err(HttpFailure)) =>
      Plain(r) && !(200 <= r.status <= 299) && r.status !in {408, 425, 429, 500, 502, 503, 504}
    case Stop(Err(AuthFailed)) => Enveloped(r) && CodeIn(r, {190, 102, 463, 467})
    case Stop(Err(PayloadTooLarge)) => OtherError(r) && CodeIn(r, {1}) && r.content.asksForLessData
    case Stop(Err(RequestRejected)) =>
      OtherError(r) && !(CodeIn(r, {1}) && r.content.asksForLessData)
      && r.status !in {408, 425, 500, 502, 503, 504}
    case Retry(NetworkFailure) => r.NoResponse?
    case Retry(InvalidJson) => r.Response? && r.content.NotJson?
    case Retry(RateLimited) => Enveloped(r) && !CodeIn(r, {190, 102, 463, 467}) && !OtherError(r)
    case Retry(Transient) =>
      OtherError(r) && !(CodeIn(r, {1}) && r.content.asksForLessData) && r.status in {408, 425, 500, 502, 503, 504}
    case Retry(HttpFailure) =>
      Plain(r) && !(200 <= r.status <= 299) && r.status in {408, 425, 429, 500, 502, 503, 504}
    case _ => false
  }

  ghost predicate WorthRetrying(r: Response) {
    exists error :: Means(r, Retry(error))
  }

  lemma {:induction false} AnswerMeans(r: Response, v: Verdict)
    ensures Means(r, v) <==> v == Classify(r)
  {
  }

  /**
   * The outcome of a request in terms of what came back: the attempts before the last were all worth
   * retrying, and the last either settles the request or was the last one allowed. A valid page is
   * returned as it came, after however many failures that pass.
   */
  lemma {:induction false} RequestOutcome(answer: Attempts, maxAttempts: nat, r: Result<Body>, used: nat)
    requires RequestEnds(answer, maxAttempts, r, used)
    ensures forall j: nat :: 1 <= j < used ==> WorthRetrying(answer(j))
    ensures if used >= 1 && !WorthRetrying(answer(used))
            then used <= maxAttempts && Means(answer(used), Stop(r))
            else used == maxAttempts && r.Err?
                 && (if maxAttempts == 0 then r.error == Unavailable else Means(answer(used), Retry(r.error)))
  {
    hide Means, Classify;
    forall j: nat, v ensures Means(answer(j), v) <==> v == Classify(answer(j)) { AnswerMeans(answer(j), v); }
    forall j: nat | 1 <= j < used ensures WorthRetrying(answer(j)) {
      assert Means(answer(j), Retry(Classify(answer(j)).error));
    }
  }

  // ---------------------------------------------------------------- the walk over an edge

  datatype EdgeName = TopMedia | RecentMedia

  /** A page size is positive, the configured one included. */
  type PageSize = n: int | n >= 1 witness 1

  /** Meta, given the request's number, the position the cursor stands for, and the limit. */
  type Meta = (nat, nat, nat) -> Attempts

  /** What a walk spent. */
  datatype Cost = Cost(requests: nat, fetches: nat, rejections: nat)

  function Min(a: int, b: int): int {
    if a <= b then a else b
  }

  function Max(a: int, b: int): int {
    if a >= b then a else b
  }

  function Log2(n: nat): nat
    requires n >= 1
  {
    if n == 1 then 0 else 1 + Log2(n / 2)
  }

  lemma {:induction false} Log2Monotone(m: nat, n: nat)
    requires 1 <= m <= n
    ensures Log2(m) <= Log2(n)
  {
    if m > 1 { Log2Monotone(m / 2, n / 2); }
  }

  function TotalItems(pages: seq<MediaPage>): nat {
    if pages == [] then 0 else TotalItems(pages[..|pages| - 1]) + |pages[|pages| - 1].items|
  }

  function AllItems(pages: seq<MediaPage>): seq<Media> {
    if pages == [] then [] else AllItems(pages[..|pages| - 1]) + pages[|pages| - 1].items
  }

  /** A page answered at this position is the stretch of the edge there, and says whether more follows. */
  ghost predicate HonestBody(body: Body, edge: seq<Media>, pos: nat, limit: nat) {
    && pos + |body.items| <= |edge| && |body.items| <= limit
    && body.items == edge[pos..pos + |body.items|]
    && (body.after.Some? ==> body.after.value == pos + |body.items|)
    && (pos + |body.items| < |edge| ==> body.next && body.after.Some?)
  }

  /** Every page Meta ever returns is honest about a fixed edge; it may be short, or refused. */
  ghost predicate Honest(meta: Meta, edge: seq<Media>) {
    forall n: nat, pos: nat, limit: nat, k: nat ::
      Classify(meta(n, pos, limit)(k)).Stop? && Classify(meta(n, pos, limit)(k)).result.Ok? ==>
        HonestBody(Classify(meta(n, pos, limit)(k)).result.value, edge, pos, limit)
  }

  /** Meta refuses a limit exactly when it is above the ceiling. */
  ghost predicate HasCeiling(meta: Meta, ceiling: nat) {
    forall n: nat, pos: nat, limit: nat, k: nat ::
      (Classify(meta(n, pos, limit)(k)) == Stop(Err(PayloadTooLarge)) <==> limit > ceiling)
  }

  /**
   * Pages follow one another on the edge and are numbered from 1, each next cursor at the end of
   * its page. Only a page with items and a next cursor has a successor.
   */
  ghost predicate Follow(pages: seq<MediaPage>, edge: seq<Media>, start: nat) {
    pages == [] ||
    (var before, last := pages[..|pages| - 1], pages[|pages| - 1];
     var pos := start + TotalItems(before);
     Follow(before, edge, start) && FollowsAt(last, edge, pos)
     && last.pageNumber == |pages| && Continues(before))
  }

  predicate Continues(pages: seq<MediaPage>) {
    pages != [] ==> pages[|pages| - 1].items != [] && pages[|pages| - 1].nextCursor.Some?
  }

  ghost predicate FollowsAt(page: MediaPage, edge: seq<Media>, pos: nat) {
    && pos + |page.items| <= |edge| && page.items == edge[pos..pos + |page.items|]
    && (page.nextCursor.Some? ==> page.nextCursor.value == pos + |page.items|)
    && (pos + |page.items| < |edge| ==> page.nextCursor.Some?)
  }

  lemma PagePush(pages: seq<MediaPage>, page: MediaPage, edge: seq<Media>, start: nat)
    ensures TotalItems(pages + [page]) == TotalItems(pages) + |page.items|
    ensures AllItems(pages + [page]) == AllItems(pages) + page.items
    ensures Follow(pages + [page], edge, start) <==>
            Follow(pages, edge, start) && FollowsAt(page, edge, start + TotalItems(pages))
            && page.pageNumber == |pages| + 1 && Continues(pages)
  {
    assert (pages + [page])[..|pages|] == pages;
  }

  lemma {:induction false} FollowingPagesAreAPrefix(pages: seq<MediaPage>, edge: seq<Media>, start: nat)
    requires Follow(pages, edge, start) && start <= |edge|
    ensures start + TotalItems(pages) <= |edge|
    ensures AllItems(pages) == edge[start..start + TotalItems(pages)]
  {
    if pages != [] {
      hide Follow;
      hide AllItems;
      hide TotalItems;
      var before, last := pages[..|pages| - 1], pages[|pages| - 1];
      assert pages == before + [last];
      PagePush(before, last, edge, start);
      FollowingPagesAreAPrefix(before, edge, start);
    }
  }

  /** What each page of a walk is, by its place in it. */
  lemma {:induction false} FollowPlaces(pages: seq<MediaPage>, edge: seq<Media>, start: nat, k: nat)
    requires Follow(pages, edge, start) && k < |pages|
    ensures FollowsAt(pages[k], edge, start + TotalItems(pages[..k])) && pages[k].pageNumber == k + 1
    ensures k < |pages| - 1 ==> pages[k].items != []
    ensures TotalItems(pages[..k]) + |pages[k].items| <= TotalItems(pages)
    ensures k == |pages| - 1 ==> TotalItems(pages[..k]) + |pages[k].items| == TotalItems(pages)
  {
    var n := |pages| - 1;
    if k < n {
      FollowPlaces(pages[..n], edge, start, k);
      assert pages[..n][..k] == pages[..k];
    }
  }

  /**
   * Page sizes do not show: two completed walks of one edge from one cursor yield the same items,
   * whatever was refused or cut short on the way, unless an empty page ended one of them early.
   */
  lemma PageSizeIndependence(pages: seq<MediaPage>, pages': seq<MediaPage>, edge: seq<Media>, start: nat, maxItems: nat)
    requires start <= |edge|
    requires Delivers(pages, true, edge, start, maxItems) && Delivers(pages', true, edge, start, maxItems)
    requires !CutShort(pages, edge, start) && !CutShort(pages', edge, start)
    ensures AllItems(pages) == AllItems(pages') == edge[start..start + Min(maxItems, |edge| - start)]
  {
    hide Follow;
    hide AllItems;
    hide TotalItems;
    FollowingPagesAreAPrefix(pages, edge, start);
    FollowingPagesAreAPrefix(pages', edge, start);
  }

  /** The page size a walk asks for first: twice what was last accepted, up to the configured size. */
  function StartSize(learned: Option<PageSize>, requested: PageSize): PageSize {
    if learned.Some? then Min(requested, learned.value * 2) else requested
  }

  /** The page size left after halving away every refusal at a fixed ceiling. */
  function Negotiated(size: nat, want: nat, ceiling: nat): nat
    requires size >= 1 && want >= 1 && ceiling >= 1
    decreases size
  {
    var limit := Min(size, want);
    if limit <= ceiling then size else Negotiated(limit / 2, want, ceiling)
  }

  /** How many refusals that takes. */
  function Refusals(size: nat, want: nat, ceiling: nat): nat
    requires size >= 1 && want >= 1 && ceiling >= 1
    decreases size
  {
    var limit := Min(size, want);
    if limit <= ceiling then 0 else 1 + Refusals(limit / 2, want, ceiling)
  }

  /**
   * The pages are a contiguous stretch of the edge from `start`, never more than wanted. A walk that
   * completes has all that was wanted or all there is, unless an empty page cut it short.
   */
  ghost predicate Delivers(pages: seq<MediaPage>, complete: bool, edge: seq<Media>, start: nat, maxItems: int) {
    && Follow(pages, edge, start)
    && (maxItems >= 0 ==> TotalItems(pages) <= maxItems)
    && (complete && maxItems >= 0 ==>
          (TotalItems(pages) == Min(maxItems, |edge| - start) <==> !CutShort(pages, edge, start)))
  }

  /** An empty page before the end of the edge ended the walk. */
  ghost predicate CutShort(pages: seq<MediaPage>, edge: seq<Media>, start: nat) {
    pages != [] && pages[|pages| - 1].items == [] && start + TotalItems(pages) != |edge|
  }

  /** The same in mid-walk: the cursor stands right after what has been yielded. */
  ghost predicate Walking(pages: seq<MediaPage>, cursor: Option<nat>, edge: seq<Media>, start: nat, maxItems: int) {
    && Follow(pages, edge, start)
    && (maxItems >= 0 ==> TotalItems(pages) <= maxItems)
    && Position(cursor) == start + TotalItems(pages) <= |edge|
    && Continues(pages)
  }

  /** What a walk that starts at this page size may cost. */
  ghost predicate Affordable(cost: Cost, pages: nat, thrown: bool, size: PageSize, maxItems: int)
  {
    && cost.requests == pages + cost.rejections + (if thrown then 1 else 0)
    && cost.rejections <= Log2(size)
    && cost.requests <= (if maxItems <= 0 then 0 else maxItems + Log2(size))
    && cost.fetches <= MAX_ATTEMPTS * cost.requests
  }

  /** The same in mid-walk, at the current page size. */
  ghost predicate Spent(cost: Cost, pages: nat, size0: PageSize, size: PageSize, maxItems: int)
  {
    && cost.requests == pages + cost.rejections
    && cost.rejections + Log2(size) <= Log2(size0)
    && pages <= (if maxItems <= 0 then 0 else maxItems)
    && (maxItems <= 0 ==> cost.requests == 0)
    && cost.fetches <= MAX_ATTEMPTS * cost.requests
  }

  lemma SpentOnRefusal(cost: Cost, pages: nat, size0: PageSize, size: PageSize, maxItems: int, limit: nat, used: nat)
    requires Spent(cost, pages, size0, size, maxItems) && maxItems >= 1
    requires 1 < limit <= size && used <= MAX_ATTEMPTS
    ensures Spent(Cost(cost.requests + 1, cost.fetches + used, cost.rejections + 1), pages, size0, limit / 2, maxItems)
  {
    Log2Monotone(limit, size);
  }

  lemma SpentOnPage(cost: Cost, pages: nat, size0: PageSize, size: PageSize, maxItems: int, used: nat)
    requires Spent(cost, pages, size0, size, maxItems) && pages < maxItems && used <= MAX_ATTEMPTS
    ensures Spent(Cost(cost.requests + 1, cost.fetches + used, cost.rejections), pages + 1, size0, size, maxItems)
  {
  }

  lemma SpentIsAffordable(cost: Cost, pages: nat, size0: PageSize, size: PageSize, maxItems: int)
    requires Spent(cost, pages, size0, size, maxItems)
    ensures Affordable(cost, pages, false, size0, maxItems)
  {
  }

  lemma FailureIsAffordable(cost: Cost, pages: nat, size0: PageSize, size: PageSize, maxItems: int, used: nat)
    requires Spent(cost, pages, size0, size, maxItems) && pages < maxItems && used <= MAX_ATTEMPTS
    ensures Affordable(Cost(cost.requests + 1, cost.fetches + used, cost.rejections), pages, true, size0, maxItems)
  {
  }

  /** Negotiation so far has only followed the halving. */
  ghost predicate OnTrack(size0: PageSize, size: PageSize, rejections: nat, maxItems: int, ceiling: nat)
  {
    maxItems >= 1 && ceiling >= 1 ==>
      && Negotiated(size0, maxItems, ceiling) == Negotiated(size, maxItems, ceiling)
      && Refusals(size0, maxItems, ceiling) == rejections + Refusals(size, maxItems, ceiling)
  }

  ghost predicate OthersKept(m: map<EdgeName, PageSize>, m': map<EdgeName, PageSize>, name: EdgeName) {
    m - {name} == m' - {name}
  }

  lemma HonestAnswer(meta: Meta, edge: seq<Media>, n: nat, pos: nat, limit: nat, r: Result<Body>, used: nat)
    requires Honest(meta, edge) && RequestEnds(meta(n, pos, limit), MAX_ATTEMPTS, r, used) && r.Ok?
    ensures HonestBody(r.value, edge, pos, limit)
  {
  }

  lemma CeilingAnswer(meta: Meta, ceiling: nat, n: nat, pos: nat, limit: nat, r: Result<Body>, used: nat)
    requires HasCeiling(meta, ceiling) && RequestEnds(meta(n, pos, limit), MAX_ATTEMPTS, r, used)
    ensures r == Err(PayloadTooLarge) <==> limit > ceiling
  {
    assert Classify(meta(n, pos, limit)(used)) == Stop(Err(PayloadTooLarge)) <==> limit > ceiling;
    assert Classify(meta(n, pos, limit)(1)) == Stop(Err(PayloadTooLarge)) <==> limit > ceiling;
  }

  lemma StaysOnTrack(size0: PageSize, size: PageSize, rejections: nat, maxItems: int, ceiling: nat)
    requires maxItems >= 1 && ceiling >= 1 && Min(size, maxItems) > ceiling
    requires OnTrack(size0, size, rejections, maxItems, ceiling)
    ensures OnTrack(size0, Min(size, maxItems) / 2, rejections + 1, maxItems, ceiling)
  {
  }

  lemma EndOfTrack(size0: PageSize, size: PageSize, rejections: nat, maxItems: int, ceiling: nat)
    requires maxItems >= 1 && ceiling >= 1 && Min(size, maxItems) <= ceiling
    requires OnTrack(size0, size, rejections, maxItems, ceiling)
    ensures size == Negotiated(size0, maxItems, ceiling) && rejections == Refusals(size0, maxItems, ceiling)
  {
  }

  lemma OthersKeptBy(m: map<EdgeName, PageSize>, m': map<EdgeName, PageSize>, name: EdgeName, size: PageSize)
    ensures OthersKept(m, m, name)
    ensures OthersKept(m, m', name) ==> OthersKept(m[name := size], m', name)
  {
    assert m[name := size] - {name} == m - {name};
  }

  /** Stopping between pages, by an error or because enough was yielded. */
  lemma Stopped(pages: seq<MediaPage>, cursor: Option<nat>, edge: seq<Media>, start: nat, maxItems: int)
    requires Walking(pages, cursor, edge, start, maxItems)
    ensures Delivers(pages, false, edge, start, maxItems)
    ensures TotalItems(pages) >= maxItems ==> Delivers(pages, true, edge, start, maxItems)
  {
  }

  /** The page as it is yielded: its cursor is passed on only when Meta says there is more. */
  function YieldedPage(body: Body, number: nat): MediaPage {
    MediaPage(body.items, if body.next && body.after.Some? then body.after else None, number)
  }

  predicate IsLast(body: Body) {
    !(body.next && body.after.Some?) || body.items == []
  }

  lemma HonestBodyFits(body: Body, edge: seq<Media>, pos: nat, limit: nat, number: nat)
    requires HonestBody(body, edge, pos, limit)
    ensures FollowsAt(YieldedPage(body, number), edge, pos) && pos + |body.items| <= |edge| && |body.items| <= limit
    ensures IsLast(body) ==> pos + |body.items| == |edge| || body.items == []
    ensures !IsLast(body) ==> Position(body.after) == pos + |body.items|
    ensures YieldedPage(body, number).items == body.items && YieldedPage(body, number).pageNumber == number
  {
  }

  lemma ContinuesUnlessLast(pages: seq<MediaPage>, body: Body, number: nat)
    ensures !IsLast(body) ==> Continues(pages + [YieldedPage(body, number)])
  {
  }

  /** An honest page leaves the walk in mid-walk at its cursor, or ends it. */
  lemma HonestPage(pages: seq<MediaPage>, cursor: Option<nat>, edge: seq<Media>, start: nat,
                   maxItems: int, limit: nat, body: Body, number: nat)
    requires Walking(pages, cursor, edge, start, maxItems) && HonestBody(body, edge, Position(cursor), limit)
    requires TotalItems(pages) < maxItems && limit <= maxItems - TotalItems(pages) && number == |pages| + 1
    ensures if IsLast(body) then Delivers(pages + [YieldedPage(body, number)], true, edge, start, maxItems)
            else Walking(pages + [YieldedPage(body, number)], body.after, edge, start, maxItems)
  {
    hide Follow, TotalItems, HonestBody, FollowsAt, YieldedPage, Continues;
    HonestBodyFits(body, edge, Position(cursor), limit, number);
    ContinuesUnlessLast(pages, body, number);
    PagePush(pages, YieldedPage(body, number), edge, start);
  }

  /** One page request, with what an honest or a capped Meta guarantees about the answer. */
  method RequestPage(meta: Meta, n: nat, cursor: Option<nat>, limit: nat, ghost edge: seq<Media>, ghost ceiling: nat)
    returns (r: Result<Body>, used: nat)
    ensures RequestEnds(meta(n, Position(cursor), limit), MAX_ATTEMPTS, r, used) && used <= MAX_ATTEMPTS
    ensures Honest(meta, edge) && r.Ok? ==> HonestBody(r.value, edge, Position(cursor), limit)
    ensures HasCeiling(meta, ceiling) ==> (r == Err(PayloadTooLarge) <==> limit > ceiling)
  {
    r, used := Request(meta(n, Position(cursor), limit), MAX_ATTEMPTS);
    if HasCeiling(meta, ceiling) { CeilingAnswer(meta, ceiling, n, Position(cursor), limit, r, used); }
    if Honest(meta, edge) && r.Ok? {
      HonestAnswer(meta, edge, n, Position(cursor), limit, r, used);
    }
  }

  /** The variables of the walk's loop. */
  datatype Progress = Progress(pages: seq<MediaPage>, pageSize: PageSize, cursor: Option<nat>, yielded: nat, cost: Cost)

  /** What one turn of the loop did. */
  datatype Turn = Refused | Yielded | YieldedLast | Threw(error: MetaError)

  /** What a walk is measured against: the edge and ceiling Meta may respect, and where it started. */
  datatype Measure = Measure(edge: seq<Media>, ceiling: nat, size: PageSize, start: nat, maxItems: int)

  ghost predicate Settled(p: Progress, m: Measure) {
    && m.maxItems >= 1 && Min(p.pageSize, m.maxItems) <= m.ceiling
    && p.pageSize == Negotiated(m.size, m.maxItems, m.ceiling)
    && p.cost.rejections == Refusals(m.size, m.maxItems, m.ceiling)
  }

  ghost predicate IsHonest(meta: Meta, m: Measure) {
    Honest(meta, m.edge) && m.start <= |m.edge|
  }

  ghost predicate IsCapped(meta: Meta, m: Measure) {
    HasCeiling(meta, m.ceiling) && m.ceiling >= 1
  }

  ghost predicate InWalk(p: Progress, meta: Meta, m: Measure) {
    && p.yielded == TotalItems(p.pages) && |p.pages| <= p.yielded
    && (IsHonest(meta, m) ==> Walking(p.pages, p.cursor, m.edge, m.start, m.maxItems))
    && Spent(p.cost, |p.pages|, m.size, p.pageSize, m.maxItems)
    && (IsCapped(meta, m) ==>
          if p.pages == [] then OnTrack(m.size, p.pageSize, p.cost.rejections, m.maxItems, m.ceiling)
          else Settled(p, m))
  }

  ghost predicate Ended(p: Progress, threw: bool, meta: Meta, m: Measure) {
    && (IsHonest(meta, m) ==> Delivers(p.pages, !threw, m.edge, m.start, m.maxItems))
    && Affordable(p.cost, |p.pages|, threw, m.size, m.maxItems)
    && (IsCapped(meta, m) && p.pages != [] ==> Settled(p, m))
  }

  lemma Begin(meta: Meta, m: Measure, cursor: Option<nat>)
    requires Position(cursor) == m.start
    ensures InWalk(Progress([], m.size, cursor, 0, Cost(0, 0, 0)), meta, m)
  {
  }

  lemma YieldedIsTotal(p: Progress, meta: Meta, m: Measure)
    requires InWalk(p, meta, m)
    ensures p.yielded == TotalItems(p.pages)
  {
  }

  /** The guard of the loop fails: enough was yielded. */
  lemma EnoughYielded(p: Progress, meta: Meta, m: Measure)
    requires InWalk(p, meta, m) && p.yielded >= m.maxItems
    ensures Ended(p, false, meta, m)
  {
    SpentIsAffordable(p.cost, |p.pages|, m.size, p.pageSize, m.maxItems);
    if IsHonest(meta, m) { Stopped(p.pages, p.cursor, m.edge, m.start, m.maxItems); }
  }

  lemma RefusedTurn(p: Progress, meta: Meta, m: Measure, limit: nat, used: nat)
    requires InWalk(p, meta, m) && p.yielded < m.maxItems && used <= MAX_ATTEMPTS
    requires limit == Min(p.pageSize, m.maxItems - p.yielded) && limit > 1
    requires IsCapped(meta, m) ==> limit > m.ceiling
    ensures InWalk(p.(pageSize := limit / 2, cost := Charge(p.cost, used, 1)), meta, m)
    ensures IsCapped(meta, m) ==> p.pages == []
  {
    hide Log2;
    SpentOnRefusal(p.cost, |p.pages|, m.size, p.pageSize, m.maxItems, limit, used);
    if IsCapped(meta, m) { StaysOnTrack(m.size, p.pageSize, p.cost.rejections, m.maxItems, m.ceiling); }
  }

  lemma ThrewTurn(p: Progress, meta: Meta, m: Measure, used: nat)
    requires InWalk(p, meta, m) && p.yielded < m.maxItems && used <= MAX_ATTEMPTS
    ensures Ended(p.(cost := Charge(p.cost, used, 0)), true, meta, m)
  {
    hide Log2;
    FailureIsAffordable(p.cost, |p.pages|, m.size, p.pageSize, m.maxItems, used);
    if IsHonest(meta, m) { Stopped(p.pages, p.cursor, m.edge, m.start, m.maxItems); }
  }

  lemma PageTurn(p: Progress, meta: Meta, m: Measure, limit: nat, used: nat, body: Body)
    requires InWalk(p, meta, m) && p.yielded < m.maxItems && used <= MAX_ATTEMPTS
    requires limit == Min(p.pageSize, m.maxItems - p.yielded)
    requires IsHonest(meta, m) ==> HonestBody(body, m.edge, Position(p.cursor), limit)
    requires IsCapped(meta, m) ==> limit <= m.ceiling
    ensures var q := AfterPage(p, used, body);
            if IsLast(body) then Ended(q, false, meta, m) else InWalk(q, meta, m)
  {
    hide Log2;
    hide Follow;
    hide TotalItems;
    hide Walking;
    hide HonestBody;
    PagePush(p.pages, YieldedPage(body, |p.pages| + 1), m.edge, m.start);
    SpentOnPage(p.cost, |p.pages|, m.size, p.pageSize, m.maxItems, used);
    SpentIsAffordable(Charge(p.cost, used, 0), |p.pages| + 1, m.size, p.pageSize, m.maxItems);
    if IsCapped(meta, m) && p.pages == [] {
      EmptyTotal();
      EndOfTrack(m.size, p.pageSize, p.cost.rejections, m.maxItems, m.ceiling);
    }
    if IsHonest(meta, m) {
      HonestPage(p.pages, p.cursor, m.edge, m.start, m.maxItems, limit, body, |p.pages| + 1);
    }
  }

  lemma EmptyTotal()
    ensures TotalItems([]) == 0
  {
  }

  function Charge(cost: Cost, fetches: nat, rejections: nat): Cost {
    Cost(cost.requests + 1, cost.fetches + fetches, cost.rejections + rejections)
  }

  function AfterPage(p: Progress, used: nat, body: Body): Progress {
    p.(pages := p.pages + [YieldedPage(body, |p.pages| + 1)],
       yielded := p.yielded + |body.items|,
       cursor := if IsLast(body) then p.cursor else body.after,
       cost := Charge(p.cost, used, 0))
  }

  // ---------------------------------------------------------------- what a walk got from Meta

  /** Where the walk's next request starts. */
  function CursorAfter(pages: seq<MediaPage>, start: nat): nat {
    if pages == [] then start else Position(pages[|pages| - 1].nextCursor)
  }

  /** Another page follows this one. */
  predicate GoesOn(page: MediaPage) {
    page.items != [] && page.nextCursor.Some?
  }

  /**
   * The page is Meta's answer to request n, made at this position: all its items, and its cursor
   * exactly when there was both a cursor and a next link.
   */
  ghost predicate ServedBy(meta: Meta, page: MediaPage, number: nat, pos: nat, n: nat) {
    exists limit: nat, used: nat, body ::
      RequestEnds(meta(n, pos, limit), MAX_ATTEMPTS, Ok(body), used) && PageOf(page, body) && page.pageNumber == number
  }

  predicate PageOf(page: MediaPage, body: Body) {
    page.items == body.items
    && (body.next && body.after.Some? ==> page.nextCursor == body.after)
    && (!body.next || body.after.None? ==> page.nextCursor.None?)
  }

  /** The page is Meta's answer to one of the requests made. */
  ghost predicate Served(meta: Meta, page: MediaPage, number: nat, pos: nat, requests: nat) {
    exists n: nat :: n < requests && ServedBy(meta, page, number, pos, n)
  }

  ghost predicate AllServed(meta: Meta, pages: seq<MediaPage>, start: nat, requests: nat) {
    forall k :: 0 <= k < |pages| ==> Served(meta, pages[k], k + 1, CursorAfter(pages[..k], start), requests)
  }

  /** Request n failed with this error, for a limit of what was still wanted; a refusal only at limit 1. */
  ghost predicate RequestFailed(meta: Meta, n: nat, pos: nat, wanted: int, error: MetaError) {
    exists limit: nat, used: nat ::
      1 <= limit <= wanted && RequestEnds(meta(n, pos, limit), MAX_ATTEMPTS, Err(error), used)
      && (error == PayloadTooLarge ==> limit == 1)
  }

  /** Enough was yielded, or the last page said it was the last. */
  predicate RanOut(pages: seq<MediaPage>, maxItems: int) {
    TotalItems(pages) >= maxItems
    || (pages != [] && (pages[|pages| - 1].nextCursor.None? || pages[|pages| - 1].items == []))
  }

  /** Every answer is a page or a refusal of the size. */
  ghost predicate RefusesOnlyBySize(meta: Meta) {
    forall n: nat, pos: nat, limit: nat, k: nat ::
      Classify(meta(n, pos, limit)(k)).Stop?
      && (Classify(meta(n, pos, limit)(k)).result.Ok? || Classify(meta(n, pos, limit)(k)) == Stop(Err(PayloadTooLarge)))
  }

  lemma MoreRequests(meta: Meta, pages: seq<MediaPage>, start: nat, requests: nat, requests': nat)
    requires AllServed(meta, pages, start, requests) && requests <= requests'
    ensures AllServed(meta, pages, start, requests')
  {
    hide ServedBy;
    forall k | 0 <= k < |pages| ensures Served(meta, pages[k], k + 1, CursorAfter(pages[..k], start), requests') {
      assert Served(meta, pages[k], k + 1, CursorAfter(pages[..k], start), requests);
    }
  }

  lemma OneMoreServed(meta: Meta, pages: seq<MediaPage>, page: MediaPage, start: nat, requests: nat)
    requires AllServed(meta, pages, start, requests)
    requires ServedBy(meta, page, |pages| + 1, CursorAfter(pages, start), requests)
    ensures AllServed(meta, pages + [page], start, requests + 1)
    ensures CursorAfter(pages + [page], start) == Position(page.nextCursor)
  {
    hide ServedBy, CursorAfter;
    MoreRequests(meta, pages, start, requests, requests + 1);
    LastCursor(pages, page, start);
    var all := pages + [page];
    forall k | 0 <= k < |all| ensures Served(meta, all[k], k + 1, CursorAfter(all[..k], start), requests + 1) {
      if k < |pages| {
        assert all[..k] == pages[..k];
      } else {
        assert all[..k] == pages;
      }
    }
  }

  lemma LastCursor(pages: seq<MediaPage>, page: MediaPage, start: nat)
    ensures CursorAfter(pages + [page], start) == Position(page.nextCursor)
  {
  }

  predicate AllGoOn(pages: seq<MediaPage>) {
    forall k :: 0 <= k < |pages| ==> GoesOn(pages[k])
  }

  /** Every page but the last goes on. If the last does not, the walk is over: no request came after its own. */
  ghost predicate StopsInTime(meta: Meta, pages: seq<MediaPage>, threw: bool, requests: nat, start: nat) {
    pages != [] ==>
      var n := |pages| - 1;
      AllGoOn(pages[..n])
      && (!GoesOn(pages[n]) ==>
            !threw && requests >= 1
            && ServedBy(meta, pages[n], |pages|, CursorAfter(pages[..n], start), requests - 1))
  }

  /**
   * What a walk may report: pages that are Meta's answers at the cursors it gave, one after the
   * other and none past the last; an error only if the last request failed with it; and otherwise
   * all that was wanted or a page that said it was the last.
   */
  ghost predicate Truthful(meta: Meta, pages: seq<MediaPage>, thrown: Option<MetaError>, cost: Cost, start: nat,
                           maxItems: int)
  {
    && AllServed(meta, pages, start, cost.requests)
    && StopsInTime(meta, pages, thrown.Some?, cost.requests, start)
    && (thrown.None? ==> RanOut(pages, maxItems))
    && (thrown.Some? ==>
          cost.requests >= 1
          && RequestFailed(meta, cost.requests - 1, CursorAfter(pages, start), maxItems - TotalItems(pages),
                           thrown.value))
  }

  /** The same between turns. */
  ghost predicate Traced(p: Progress, meta: Meta, start: nat) {
    && AllServed(meta, p.pages, start, p.cost.requests)
    && Position(p.cursor) == CursorAfter(p.pages, start) && p.yielded == TotalItems(p.pages) && AllGoOn(p.pages)
  }

  lemma NothingTraced(meta: Meta, size: PageSize, cursor: Option<nat>)
    ensures Traced(Progress([], size, cursor, 0, Cost(0, 0, 0)), meta, Position(cursor))
  {
  }

  lemma MoreGoOn(pages: seq<MediaPage>, page: MediaPage)
    requires AllGoOn(pages)
    ensures AllGoOn((pages + [page])[..|pages|])
    ensures GoesOn(page) ==> AllGoOn(pages + [page])
  {
  }

  /** Pages that all go on leave nothing to stop for. */
  lemma NoneIsLast(meta: Meta, pages: seq<MediaPage>, threw: bool, requests: nat, start: nat)
    requires AllGoOn(pages)
    ensures StopsInTime(meta, pages, threw, requests, start)
  {
  }

  lemma LastIsLast(meta: Meta, pages: seq<MediaPage>, page: MediaPage, requests: nat, start: nat)
    requires AllGoOn(pages) && requests >= 1
    requires ServedBy(meta, page, |pages| + 1, CursorAfter(pages, start), requests - 1)
    ensures StopsInTime(meta, pages + [page], false, requests, start)
  {
    hide ServedBy, CursorAfter, AllGoOn;
    MoreGoOn(pages, page);
    assert (pages + [page])[..|pages|] == pages;
  }

  lemma EnoughIsTruthful(p: Progress, meta: Meta, start: nat, maxItems: int)
    requires Traced(p, meta, start) && p.yielded >= maxItems
    ensures Truthful(meta, p.pages, None, p.cost, start, maxItems)
  {
  }

  lemma SizeAloneFailsNoRequest(meta: Meta, ceiling: nat, n: nat, pos: nat, wanted: int, error: MetaError)
    requires RefusesOnlyBySize(meta) && HasCeiling(meta, ceiling) && ceiling >= 1
    ensures !RequestFailed(meta, n, pos, wanted, error)
  {
    forall limit: nat, used: nat | 1 <= limit && RequestEnds(meta(n, pos, limit), MAX_ATTEMPTS, Err(error), used)
      ensures error == PayloadTooLarge && limit > ceiling
    {
      assert Classify(meta(n, pos, limit)(1)).Stop?;
      CeilingAnswer(meta, ceiling, n, pos, limit, Err(error), used);
    }
  }

  /** At a fixed ceiling of at least one item, a Meta that refuses only by size makes no walk throw. */
  lemma {:induction false} SizeAloneNeverThrows(meta: Meta, ceiling: nat, pages: seq<MediaPage>,
                                                thrown: Option<MetaError>, cost: Cost, start: nat, maxItems: int)
    requires RefusesOnlyBySize(meta) && HasCeiling(meta, ceiling) && ceiling >= 1
    requires Truthful(meta, pages, thrown, cost, start, maxItems)
    ensures thrown.None?
  {
    hide AllServed, StopsInTime, RequestFailed, RefusesOnlyBySize, HasCeiling;
    if thrown.Some? {
      SizeAloneFailsNoRequest(meta, ceiling, cost.requests - 1, CursorAfter(pages, start),
                              maxItems - TotalItems(pages), thrown.value);
    }
  }

  /** A next link comes with an answer exactly when items are left behind it. */
  ghost predicate LinksExactly(meta: Meta, edge: seq<Media>) {
    forall n: nat, pos: nat, limit: nat, k: nat ::
      var verdict := Classify(meta(n, pos, limit)(k));
      verdict.Stop? && verdict.result.Ok? ==>
        (verdict.result.value.next <==> pos + |verdict.result.value.items| < |edge|)
  }

  lemma LinkedAnswer(meta: Meta, edge: seq<Media>, page: MediaPage, number: nat, pos: nat, n: nat)
    requires Honest(meta, edge) && LinksExactly(meta, edge) && ServedBy(meta, page, number, pos, n)
    ensures page.nextCursor.Some? <==> pos + |page.items| < |edge|
  {
    var limit: nat, used: nat, body :|
      RequestEnds(meta(n, pos, limit), MAX_ATTEMPTS, Ok(body), used) && PageOf(page, body) && page.pageNumber == number;
    HonestAnswer(meta, edge, n, pos, limit, Ok(body), used);
    assert Classify(meta(n, pos, limit)(used)).Stop?;
  }

  /** Page k was asked for where the pages before it ended. */
  lemma {:induction false} AskedWhereItEnds(pages: seq<MediaPage>, edge: seq<Media>, start: nat, k: nat)
    requires Follow(pages, edge, start) && k < |pages| && AllGoOn(pages[..|pages| - 1])
    ensures CursorAfter(pages[..k], start) == start + TotalItems(pages[..k])
  {
    if k > 0 {
      FollowPlaces(pages, edge, start, k - 1);
      assert GoesOn(pages[..|pages| - 1][k - 1]);
      assert pages[..k] == pages[..k - 1] + [pages[k - 1]];
      PagePush(pages[..k - 1], pages[k - 1], edge, start);
    }
  }

  /**
   * The next link decides. Where Meta links onwards exactly while items are left, a page has a next
   * cursor exactly when it ends before the edge does, even if Meta sends a cursor with the final
   * page. A page that reaches the end of the edge is the last, and no request is made after it.
   */
  lemma {:induction false} NextCursorExactly(
    meta: Meta, edge: seq<Media>, pages: seq<MediaPage>, thrown: Option<MetaError>, cost: Cost, start: nat,
    maxItems: int, k: nat)
    requires Honest(meta, edge) && LinksExactly(meta, edge) && k < |pages|
    requires Delivers(pages, thrown.None?, edge, start, maxItems)
    requires Truthful(meta, pages, thrown, cost, start, maxItems)
    ensures pages[k].nextCursor.Some? <==> start + TotalItems(pages[..k]) + |pages[k].items| < |edge|
    ensures start + TotalItems(pages[..k]) + |pages[k].items| == |edge| ==>
              k == |pages| - 1 && thrown.None?
              && cost.requests >= 1
              && ServedBy(meta, pages[k], k + 1, start + TotalItems(pages[..k]), cost.requests - 1)
  {
    hide Honest, LinksExactly, ServedBy, Follow, TotalItems, CursorAfter, RequestFailed, RanOut, CutShort;
    var pos := start + TotalItems(pages[..k]);
    AskedWhereItEnds(pages, edge, start, k);
    FollowPlaces(pages, edge, start, k);
    assert Served(meta, pages[k], k + 1, pos, cost.requests);
    var n: nat :| n < cost.requests && ServedBy(meta, pages[k], k + 1, pos, n);
    LinkedAnswer(meta, edge, pages[k], k + 1, pos, n);
    if k < |pages| - 1 { assert GoesOn(pages[..|pages| - 1][k]); }
  }

  class Client {
    /** The size last accepted on each edge, for as long as the process lives. */
    var learnedPageSize: map<EdgeName, PageSize>

    function Learned(name: EdgeName): Option<PageSize>
      reads this
    {
      if name in learnedPageSize then Some(learnedPageSize[name]) else None
    }

    constructor ()
      ensures learnedPageSize == map[]
    {
      learnedPageSize := map[];
    }

    /** One turn: ask for what is still needed, and halve, give up or yield. */
    method TakeTurn(meta: Meta, p: Progress, maxItems: int, ghost m: Measure) returns (q: Progress, turn: Turn)
      requires InWalk(p, meta, m) && p.yielded < maxItems == m.maxItems
      ensures turn.Refused? ==>
                && InWalk(q, meta, m) && q.pages == p.pages && q.yielded == p.yielded && q.pageSize < p.pageSize
                && (IsCapped(meta, m) ==> p.pages == [])
      ensures turn.Yielded? ==> InWalk(q, meta, m) && q.yielded > p.yielded
      ensures turn.YieldedLast? ==> Ended(q, false, meta, m)
      ensures turn.Yielded? || turn.YieldedLast? ==> q.pages != [] && q.pageSize == p.pageSize
      ensures turn.Threw? ==> Ended(q, true, meta, m) && q.pages == p.pages && q.pageSize == p.pageSize
      ensures q.cost.requests == p.cost.requests + 1
      ensures turn.Refused? ==> q.cursor == p.cursor
      ensures turn.Yielded? || turn.YieldedLast? ==>
                && |q.pages| == |p.pages| + 1 && q.pages[..|p.pages|] == p.pages
                && ServedBy(meta, q.pages[|p.pages|], |p.pages| + 1, Position(p.cursor), p.cost.requests)
                && (turn.Yielded? ==> Position(q.cursor) == Position(q.pages[|p.pages|].nextCursor))
                && (turn.Yielded? <==> GoesOn(q.pages[|p.pages|]))
                && (turn.YieldedLast? ==> RanOut(q.pages, maxItems))
      ensures turn.Threw? ==> RequestFailed(meta, p.cost.requests, Position(p.cursor), maxItems - p.yielded, turn.error)
    {
      hide InWalk;
      hide Ended;
      hide Honest;
      hide HasCeiling;
      hide RequestEnds;
      var limit: nat := Min(p.pageSize, maxItems - p.yielded);
      var result, used := RequestPage(meta, p.cost.requests, p.cursor, limit, m.edge, m.ceiling);
      if result.Err? {
        if result.error == PayloadTooLarge && limit > 1 {
          RefusedTurn(p, meta, m, limit, used);
          return p.(pageSize := Max(1, limit / 2), cost := Charge(p.cost, used, 1)), Refused;
        }
        ThrewTurn(p, meta, m, used);
        assert 1 <= limit <= maxItems - p.yielded;
        return p.(cost := Charge(p.cost, used, 0)), Threw(result.error);
      }
      PageTurn(p, meta, m, limit, used, result.value);
      q := AfterPage(p, used, result.value);
      assert PageOf(YieldedPage(result.value, |p.pages| + 1), result.value);
      turn := if IsLast(result.value) then YieldedLast else Yielded;
    }

    /** The same turn, with what it adds to the account of the walk. */
    method TracedTurn(meta: Meta, p: Progress, maxItems: int, ghost m: Measure, ghost start: nat)
      returns (q: Progress, turn: Turn)
      requires InWalk(p, meta, m) && p.yielded < maxItems == m.maxItems && Traced(p, meta, start)
      ensures turn.Refused? ==>
                && InWalk(q, meta, m) && q.pages == p.pages && q.yielded == p.yielded && q.pageSize < p.pageSize
                && (IsCapped(meta, m) ==> p.pages == [])
      ensures turn.Yielded? ==> InWalk(q, meta, m) && q.yielded > p.yielded
      ensures turn.YieldedLast? ==> Ended(q, false, meta, m)
      ensures turn.Yielded? || turn.YieldedLast? ==> q.pages != [] && q.pageSize == p.pageSize
      ensures turn.Threw? ==> Ended(q, true, meta, m) && q.pages == p.pages && q.pageSize == p.pageSize
      ensures turn.Refused? || turn.Yielded? ==> Traced(q, meta, start)
      ensures turn.YieldedLast? ==> Truthful(meta, q.pages, None, q.cost, start, maxItems)
      ensures turn.Threw? ==> Truthful(meta, q.pages, Some(turn.error), q.cost, start, maxItems)
    {
      hide InWalk, Ended, IsCapped, ServedBy, RequestFailed, RanOut, CursorAfter, AllServed;
      hide GoesOn, AllGoOn, StopsInTime;
      q, turn := TakeTurn(meta, p, maxItems, m);
      NoneIsLast(meta, p.pages, turn.Threw?, q.cost.requests, start);
      MoreRequests(meta, p.pages, start, p.cost.requests, q.cost.requests);
      if turn.Yielded? || turn.YieldedLast? {
        assert q.pages == p.pages + [q.pages[|p.pages|]];
        OneMoreServed(meta, p.pages, q.pages[|p.pages|], start, p.cost.requests);
        MoreGoOn(p.pages, q.pages[|p.pages|]);
        LastIsLast(meta, p.pages, q.pages[|p.pages|], q.cost.requests, start);
      }
      if turn.Yielded? { YieldedIsTotal(q, meta, m); }
    }

    /**
     * Walks the edge from the start cursor, collecting the pages it yields. `thrown` is the error
     * that ended it, if any; `edge` and `ceiling` are what Meta's answers are measured against.
     */
    method PaginateMedia(meta: Meta, name: EdgeName, maxItems: int, requested: PageSize, startCursor: Option<nat>,
                         ghost edge: seq<Media>, ghost ceiling: nat)
      returns (pages: seq<MediaPage>, thrown: Option<MetaError>, cost: Cost)
      modifies this
      ensures Honest(meta, edge) && Position(startCursor) <= |edge| ==>
                Delivers(pages, thrown.None?, edge, Position(startCursor), maxItems)
      ensures OthersKept(learnedPageSize, old(learnedPageSize), name)
      ensures pages == [] ==> learnedPageSize == old(learnedPageSize)
      ensures var size := StartSize(old(Learned(name)), requested);
              && Affordable(cost, |pages|, thrown.Some?, size, maxItems)
              && (HasCeiling(meta, ceiling) && ceiling >= 1 && pages != [] ==>
                    && maxItems >= 1
                    && Learned(name) == Some(Negotiated(size, maxItems, ceiling))
                    && cost.rejections == Refusals(size, maxItems, ceiling))
      ensures Truthful(meta, pages, thrown, cost, Position(startCursor), maxItems)
    {
      hide InWalk;
      hide Affordable;
      hide Delivers;
      hide OthersKept;
      hide Honest;
      hide HasCeiling;
      hide Traced, Truthful;
      ghost var start := Position(startCursor);
      var p := Progress([], StartSize(Learned(name), requested), startCursor, 0, Cost(0, 0, 0));
      ghost var m := Measure(edge, ceiling, p.pageSize, Position(startCursor), maxItems);
      ghost var learned0 := learnedPageSize;
      Begin(meta, m, startCursor);
      NothingTraced(meta, p.pageSize, startCursor);
      OthersKeptBy(learnedPageSize, learnedPageSize, name, p.pageSize);

      while p.yielded < maxItems
        invariant InWalk(p, meta, m) && Traced(p, meta, start)
        invariant OthersKept(learnedPageSize, learned0, name)
        invariant if p.pages == [] then learnedPageSize == learned0
                  else IsCapped(meta, m) ==> Learned(name) == Some(p.pageSize)
        decreases maxItems - p.yielded, p.pageSize
      {
        var turn;
        p, turn := TracedTurn(meta, p, maxItems, m, start);
        if turn.Refused? { continue; }
        if turn.Threw? { return p.pages, Some(turn.error), p.cost; }
        OthersKeptBy(learnedPageSize, learned0, name, p.pageSize);
        learnedPageSize := learnedPageSize[name := p.pageSize];
        if turn.YieldedLast? { return p.pages, None, p.cost; }
      }
      EnoughIsTruthful(p, meta, start, maxItems);
      EnoughYielded(p, meta, m);
      return p.pages, None, p.cost;
    }
  }

  // ---------------------------------------------------------------- what the memory is worth

  /**
   * The remembered size is `pageSize`, not the limit Meta accepted. It overstates the ceiling
   * exactly when the walk wanted no more than the ceiling, so that it never asked for a full page.
   */
  lemma {:induction false} LearnedSizeOverstates(size: nat, want: nat, ceiling: nat)
    requires size >= 1 && want >= 1 && ceiling >= 1
    ensures Negotiated(size, want, ceiling) > ceiling <==> want <= ceiling < size
    decreases size
  {
    var limit := Min(size, want);
    if limit > ceiling { LearnedSizeOverstates(limit / 2, want, ceiling); }
  }

  /** The learned size after k walks that each want at least a full page. */
  function LearnedAfter(k: nat, first: Option<PageSize>, requested: PageSize, want: nat, ceiling: nat): Option<PageSize>
    requires want >= 1 && ceiling >= 1
  {
    if k == 0 then first
    else
      var start := StartSize(LearnedAfter(k - 1, first, requested, want, ceiling), requested);
      NegotiatedIsPositive(start, want, ceiling);
      Some(Negotiated(start, want, ceiling))
  }

  lemma {:induction false} NegotiatedIsPositive(size: nat, want: nat, ceiling: nat)
    requires size >= 1 && want >= 1 && ceiling >= 1
    ensures 1 <= Negotiated(size, want, ceiling) <= size
    decreases size
  {
    var limit := Min(size, want);
    if limit > ceiling { NegotiatedIsPositive(limit / 2, want, ceiling); }
  }

  /** Halving stops no lower than half of the ceiling, rounded up. */
  lemma {:induction false} NegotiatedBand(size: nat, want: nat, ceiling: nat)
    requires size >= 1 && ceiling >= 1 && want >= size
    ensures size <= ceiling ==> Negotiated(size, want, ceiling) == size && Refusals(size, want, ceiling) == 0
    ensures size > ceiling ==> (ceiling + 1) / 2 <= Negotiated(size, want, ceiling) <= ceiling
    ensures ceiling < size <= 2 * ceiling + 1 ==> Refusals(size, want, ceiling) == 1
    decreases size
  {
    if size > ceiling { NegotiatedBand(size / 2, want, ceiling); }
  }

  /**
   * At a fixed ceiling, whatever was remembered before, the learned size is at most the ceiling
   * from the first walk on and every later walk is refused at most once. Where the ceiling is below
   * the configured size it also stays at half the ceiling or more, if it did not start lower.
   */
  lemma {:induction false} LearnedSizeSettles(k: nat, first: Option<PageSize>, requested: PageSize, want: nat,
      ceiling: nat)
    requires 1 <= ceiling && requested <= want
    ensures k >= 1 ==> var learned := LearnedAfter(k, first, requested, want, ceiling);
                       && learned.Some? && learned.value <= ceiling
                       && Refusals(StartSize(learned, requested), want, ceiling) <= 1
    ensures k >= 1 && ceiling < requested && (first.None? || first.value >= (ceiling + 1) / 2) ==>
              LearnedAfter(k, first, requested, want, ceiling).value >= (ceiling + 1) / 2
  {
    if k >= 1 {
      LearnedSizeSettles(k - 1, first, requested, want, ceiling);
      NegotiatedBand(StartSize(LearnedAfter(k - 1, first, requested, want, ceiling), requested), want, ceiling);
      NegotiatedBand(StartSize(LearnedAfter(k, first, requested, want, ceiling), requested), want, ceiling);
    }
  }

  function Doubled(s: PageSize, k: nat): PageSize {
    if k == 0 then s else 2 * Doubled(s, k - 1)
  }

  /** Once the ceiling is no longer in the way, each walk doubles the learned size up to the configured one. */
  lemma {:induction false} LearnedSizeRecovers(k: nat, s: PageSize, requested: PageSize, want: nat, ceiling: nat)
    requires 1 <= s <= requested <= ceiling && requested <= want
    ensures LearnedAfter(k, Some(s), requested, want, ceiling) == Some(Min(requested, Doubled(s, k)) as PageSize)
    ensures Refusals(StartSize(LearnedAfter(k, Some(s), requested, want, ceiling), requested), want, ceiling) == 0
    ensures Doubled(s, k) >= requested <==> LearnedAfter(k, Some(s), requested, want, ceiling) == Some(requested)
  {
    if k > 0 {
      LearnedSizeRecovers(k - 1, s, requested, want, ceiling);
      NegotiatedBand(StartSize(LearnedAfter(k - 1, Some(s), requested, want, ceiling), requested), want, ceiling);
    }
    NegotiatedBand(StartSize(LearnedAfter(k, Some(s), requested, want, ceiling), requested), want, ceiling);
  }
}
