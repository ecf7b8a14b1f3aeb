/**
 * The extraction pipeline of the service: channel lookup, the paginated walk over the
 * uploads playlist, and the batched statistics lookup, with every network exchange
 * replaced by a supplied outcome. Each method returns, besides its result, the API
 * requests it issued (in order) and the progress updates it reported (in order).
 */
module Extractor {
  import opened Wrappers
  import opened Text
  import opened Types
  import opened ChannelIdentifiers

  /** Page size of playlistItems and batch size of videos requests. */
  const MaxResultsPerPage: nat := 50

  datatype ApiServiceResult = ApiServiceResult(
    officialChannelTitle: Option<string>,
    videos: seq<VideoData>,
    error: Option<string>)

  /** A request to one of the three endpoints. */
  datatype ApiCall =
    | ChannelsCall(identifier: ChannelIdentifier)
    | PlaylistItemsCall(playlistId: string, pageToken: Option<string>)
    | VideosCall(ids: seq<string>)

  /** The URL fetched for a request. */
  function CallUrl(apiKey: string, call: ApiCall): string {
    match call
    case ChannelsCall(ident) => ChannelApiUrl(apiKey, ident)
    case PlaylistItemsCall(playlistId, token) =>
      PlaylistBaseUrl(apiKey, playlistId) + (if Truthy(token) then "&pageToken=" + token.value else "")
    case VideosCall(ids) =>
      ApiBaseUrl + "/videos?part=statistics&id=" + Join(ids, ",") + "&key=" + apiKey
  }

  /** The playlistItems URL before the optional `&pageToken=`. */
  function PlaylistBaseUrl(apiKey: string, playlistId: string): string {
    ApiBaseUrl + "/playlistItems?part=snippet&playlistId=" + playlistId
      + "&maxResults=" + Decimal(MaxResultsPerPage) + "&key=" + apiKey
  }

  const ApiKeyRequired := "Chave da API do YouTube é obrigatória."
  const IdentifierNotFound := "Não foi possível identificar o canal a partir da URL fornecida."
  const ChannelNotFound := "Canal não encontrado pela API com o identificador fornecido."
  const UploadsPlaylistMissing := "Não foi possível encontrar a playlist de uploads para este canal."
  const DefaultChannelTitle := "Título do Canal Indisponível"
  const ApiErrorViews := "Erro ao buscar"
  const NetworkErrorViews := "Erro de rede"
  const MissingVideoViews := "N/A"
  const MissingViewCount := "0"

  /** `data.error?.message || fallback`. */
  function ApiMessage(error: Option<ApiError>, fallback: string): (m: string)
    ensures fallback != "" ==> m != ""
  {
    if error.Some? && error.value.message != "" then error.value.message else fallback
  }

  // ---------------------------------------------------------------------------------
  // Channel lookup

  datatype ChannelInfo = ChannelInfo(title: string, uploadsPlaylistId: string)

  datatype ChannelLookup = Found(info: ChannelInfo) | LookupFailed(result: ApiServiceResult)

  /** `snippet?.title || 'Título do Canal Indisponível'`. */
  function ChannelTitle(c: ChannelResource): string {
    if c.snippet.Some? && c.snippet.value.title != "" then c.snippet.value.title
    else DefaultChannelTitle
  }

  /** `contentDetails?.relatedPlaylists?.uploads || null`. */
  function UploadsOf(c: ChannelResource): Option<string> {
    if c.contentDetails.Some? && c.contentDetails.value.relatedPlaylists.Some?
       && Truthy(c.contentDetails.value.relatedPlaylists.value.uploads)
    then c.contentDetails.value.relatedPlaylists.value.uploads
    else None
  }

  predicate ChannelApiFailed(r: Fetched<ChannelListResponse>) {
    r.Response? && (!r.ok || r.body.error.Some?)
  }

  predicate NoChannelItems(r: Fetched<ChannelListResponse>) {
    r.Response? && (r.body.items.None? || |r.body.items.value| == 0)
  }

  /** Classifies the channels response; a failure carries the result the service returns. */
  function ClassifyChannel(r: Fetched<ChannelListResponse>): (c: ChannelLookup)
    ensures c.LookupFailed? ==> c.result.videos == [] && Truthy(c.result.error)
    ensures (r.Thrown? || ChannelApiFailed(r)) ==>
              c.LookupFailed? && c.result.officialChannelTitle.None?
    ensures r.Response? && !ChannelApiFailed(r) && NoChannelItems(r) ==>
              c == LookupFailed(ApiServiceResult(None, [], Some(ChannelNotFound)))
    ensures r.Response? && !ChannelApiFailed(r) && !NoChannelItems(r) ==>
              var ch := r.body.items.value[0];
              (c.Found? <==> UploadsOf(ch).Some?) &&
              (c.Found? ==> c.info == ChannelInfo(ChannelTitle(ch), UploadsOf(ch).value)) &&
              (c.LookupFailed? ==>
                 c.result == ApiServiceResult(Some(ChannelTitle(ch)), [], Some(UploadsPlaylistMissing)))
    ensures c.Found? ==> c.info.title != "" && c.info.uploadsPlaylistId != ""
  {
    match r
    case Thrown(m) =>
      LookupFailed(ApiServiceResult(None, [], Some("Erro de rede ao buscar informações do canal: " + m)))
    case Response(ok, status, data) =>
      if !ok || data.error.Some? then
        LookupFailed(ApiServiceResult(None, [],
          Some(ApiMessage(data.error, "Erro da API ao buscar canal: " + Decimal(status)))))
      else if data.items.None? || |data.items.value| == 0 then
        LookupFailed(ApiServiceResult(None, [], Some(ChannelNotFound)))
      else
        var ch := data.items.value[0];
        var title := ChannelTitle(ch);
        match UploadsOf(ch)
        case None => LookupFailed(ApiServiceResult(Some(title), [], Some(UploadsPlaylistMissing)))
        case Some(uploads) => Found(ChannelInfo(title, uploads))
  }

  // ---------------------------------------------------------------------------------
  // Playlist pagination

  datatype VideoRef = VideoRef(id: string, title: string, publishedAt: Option<string>)

  /** `item.snippet?.resourceId?.videoId && item.snippet?.title`. */
  predicate Keeps(item: PlaylistItemResource) {
    item.snippet.Some? && item.snippet.value.resourceId.Some?
    && Truthy(item.snippet.value.resourceId.value.videoId) && item.snippet.value.title != ""
  }

  function RefOf(item: PlaylistItemResource): VideoRef
    requires Keeps(item)
  {
    var sn := item.snippet.value;
    VideoRef(sn.resourceId.value.videoId.value, sn.title, sn.publishedAt)
  }

  /** The refs a page's items contribute, in item order. */
  function KeptRefs(items: seq<PlaylistItemResource>): seq<VideoRef> {
    if items == [] then []
    else
      var last := items[|items| - 1];
      KeptRefs(items[..|items| - 1]) + (if Keeps(last) then [RefOf(last)] else [])
  }

  /** KeptRefs is the in-order filter: it distributes over concatenation. */
  lemma {:induction false} KeptRefsAppend(a: seq<PlaylistItemResource>, b: seq<PlaylistItemResource>)
    ensures KeptRefs(a + b) == KeptRefs(a) + KeptRefs(b)
    decreases |b|
  {
    if b != [] {
      var b' := b[..|b| - 1];
      assert (a + b)[..|a + b| - 1] == a + b';
      KeptRefsAppend(a, b');
    } else {
      assert a + b == a;
    }
  }

  /** An item yields a ref exactly when it has both a video id and a title. */
  lemma {:induction false} KeptRefsSingle(item: PlaylistItemResource)
    ensures KeptRefs([item]) == (if Keeps(item) then [RefOf(item)] else [])
    ensures Keeps(item) ==> RefOf(item).id != "" && RefOf(item).title != ""
  {
    assert [item][..0] == [];
  }

  /** The forEach over a page's items that pushes the kept refs. */
  method AppendKeptRefs(acc: seq<VideoRef>, items: seq<PlaylistItemResource>) returns (r: seq<VideoRef>)
    ensures r == acc + KeptRefs(items)
  {
    r := acc;
    var i := 0;
    while i < |items|
      invariant 0 <= i <= |items|
      invariant r == acc + KeptRefs(items[..i])
    {
      var item := items[i];
      assert items[..i + 1][..i] == items[..i];
      if Keeps(item) {
        r := r + [RefOf(item)];
      }
      i := i + 1;
    }
    assert items[..|items|] == items;
  }

  function ItemsOf(p: Fetched<PlaylistItemListResponse>): seq<PlaylistItemResource> {
    if p.Response? && p.body.items.Some? then p.body.items.value else []
  }

  function TokenOf(p: Fetched<PlaylistItemListResponse>): Option<string> {
    if p.Response? then p.body.nextPageToken else None
  }

  /** A page response that aborts the run: a thrown fetch, a non-ok status or an error object. */
  predicate PageFails(p: Fetched<PlaylistItemListResponse>) {
    p.Thrown? || !p.ok || p.body.error.Some?
  }

  /** A page after which the do-while loop requests another one. */
  predicate PageContinues(p: Fetched<PlaylistItemListResponse>) {
    !PageFails(p) && Truthy(p.body.nextPageToken)
  }

  /** The supplied pages end the walk: the last one fails or carries no continuation token. */
  predicate PagesEnd(pages: seq<Fetched<PlaylistItemListResponse>>) {
    |pages| >= 1 && !PageContinues(pages[|pages| - 1])
  }

  /** The index of the first page at or after `from` on which the loop stops. */
  function StopIndex(pages: seq<Fetched<PlaylistItemListResponse>>, from: nat): (n: nat)
    requires PagesEnd(pages) && from < |pages|
    ensures from <= n < |pages| && !PageContinues(pages[n])
    ensures forall j :: from <= j < n ==> PageContinues(pages[j])
    decreases |pages| - from
  {
    if !PageContinues(pages[from]) then from else StopIndex(pages, from + 1)
  }

  /** The refs of the first k pages, in page order. */
  function CollectRefs(pages: seq<Fetched<PlaylistItemListResponse>>, k: nat): seq<VideoRef>
    requires k <= |pages|
  {
    if k == 0 then [] else CollectRefs(pages, k - 1) + KeptRefs(ItemsOf(pages[k - 1]))
  }

  /** The continuation token sent with the request of page `j` (0-based). */
  function RequestToken(pages: seq<Fetched<PlaylistItemListResponse>>, j: nat): Option<string>
    requires j < |pages|
  {
    if j == 0 then None else TokenOf(pages[j - 1])
  }

  /** The error text returned for a failing page, `pageNo` counted from 1. */
  function PageError(p: Fetched<PlaylistItemListResponse>, pageNo: nat): string
    requires PageFails(p)
  {
    match p
    case Thrown(m) =>
      "Erro de rede ao buscar itens da playlist (página " + Decimal(pageNo) + "): " + m
        + ". Extração incompleta."
    case Response(_, status, data) =>
      ApiMessage(data.error, "Erro da API ao buscar itens da playlist (página " + Decimal(pageNo)
        + "): " + Decimal(status)) + ". A extração de vídeos pode estar incompleta."
  }

  datatype PlaylistOutcome = PlaylistRefs(refs: seq<VideoRef>) | PlaylistFailed(error: string)

  /** What the walk produces: every kept ref up to the stopping page, or that page's error. */
  function PlaylistSpec(pages: seq<Fetched<PlaylistItemListResponse>>): PlaylistOutcome
    requires PagesEnd(pages)
  {
    var n := StopIndex(pages, 0);
    if PageFails(pages[n]) then PlaylistFailed(PageError(pages[n], n + 1))
    else PlaylistRefs(CollectRefs(pages, n + 1))
  }

  /** A walk that reaches page j, which fails, ends with that page's error. */
  lemma PlaylistFailsAt(pages: seq<Fetched<PlaylistItemListResponse>>, j: nat)
    requires PagesEnd(pages) && j <= StopIndex(pages, 0) && PageFails(pages[j])
    ensures j == StopIndex(pages, 0)
    ensures PlaylistSpec(pages) == PlaylistFailed(PageError(pages[j], j + 1))
  {
  }

  /** A walk that reaches page j, which succeeds without a token, ends with the refs of pages 0..j. */
  lemma PlaylistEndsAt(pages: seq<Fetched<PlaylistItemListResponse>>, j: nat)
    requires PagesEnd(pages) && j <= StopIndex(pages, 0) && !PageFails(pages[j]) && !PageContinues(pages[j])
    ensures j == StopIndex(pages, 0)
    ensures PlaylistSpec(pages) == PlaylistRefs(CollectRefs(pages, j + 1))
  {
  }

  const PlaylistStartUpdate := ProgressUpdate(
    Some(FetchingPlaylistItemsApi), Some("Buscando lista de vídeos da playlist de uploads..."),
    Some(0), None, Some(0), Some(1))

  function PageStartUpdate(currentPage: nat, totalPages: nat): ProgressUpdate {
    ProgressUpdate(None, Some("Buscando página " + Decimal(currentPage) + " de vídeos da playlist..."),
                   None, None, Some(currentPage), Some(totalPages))
  }

  /** `Math.ceil(totalResults / 50)` from the first page, when it reports a non-zero total. */
  function PageEstimate(data: PlaylistItemListResponse, currentPage: nat): (e: Option<nat>)
    ensures e.Some? ==> currentPage == 1 && e.value >= 1
  {
    if currentPage == 1 && data.pageInfo.Some? && data.pageInfo.value.totalResults.Some?
       && data.pageInfo.value.totalResults.value != 0
    then Some(CeilDiv(data.pageInfo.value.totalResults.value, MaxResultsPerPage))
    else None
  }

  /** The running count reported after a page: `videosFound` alone. */
  function FoundUpdate(found: nat): ProgressUpdate {
    ProgressUpdate(None, None, Some(found), None, None, None)
  }

  /** The updates sent after a successful page: the new estimate if any, then the refs found so far. */
  function PageUpdates(data: PlaylistItemListResponse, currentPage: nat, found: nat): (us: seq<ProgressUpdate>)
    ensures 1 <= |us| <= 2 && us[|us| - 1].videosFound == Some(found)
    ensures forall i :: 0 <= i < |us| ==> us[i].currentPage.None?
    ensures |us| == 2 <==> PageEstimate(data, currentPage).Some?
  {
    var e := PageEstimate(data, currentPage);
    (if e.Some? then [ProgressUpdate(None, None, None, None, None, Some(e.value))] else [])
    + [FoundUpdate(found)]
  }

  /** The requests for the first k pages, in order. */
  function PlaylistCalls(playlistId: string, pages: seq<Fetched<PlaylistItemListResponse>>, k: nat)
    : (cs: seq<ApiCall>)
    requires k <= |pages|
    ensures |cs| == k
  {
    seq(k, j requires 0 <= j < k => PlaylistItemsCall(playlistId, RequestToken(pages, j)))
  }

  /**
   * The `totalPages` announced with page j (0-based): 1 for the first page, afterwards the
   * estimate the first page gave, if any.
   */
  function EstimateAt(pages: seq<Fetched<PlaylistItemListResponse>>, j: nat): (e: nat)
    requires |pages| >= 1
    ensures e >= 1
  {
    if j == 0 || PageFails(pages[0]) then 1
    else match PageEstimate(pages[0].body, 1) case Some(e) => e case None => 1
  }

  /** The updates page j (0-based) reports: its announcement, then, unless it fails, PageUpdates. */
  function PageReports(pages: seq<Fetched<PlaylistItemListResponse>>, j: nat): seq<ProgressUpdate>
    requires j < |pages|
  {
    [PageStartUpdate(j + 1, EstimateAt(pages, j))]
    + if PageFails(pages[j]) then [] else PageUpdates(pages[j].body, j + 1, |CollectRefs(pages, j + 1)|)
  }

  /** The updates of the first k pages of the walk, in order. */
  function PlaylistUpdates(pages: seq<Fetched<PlaylistItemListResponse>>, k: nat): seq<ProgressUpdate>
    requires k <= |pages|
  {
    if k == 0 then [] else PlaylistUpdates(pages, k - 1) + PageReports(pages, k - 1)
  }

  /** No update reports a page number beyond c. */
  predicate PagesWithin(updates: seq<ProgressUpdate>, c: nat) {
    forall i :: 0 <= i < |updates| && updates[i].currentPage.Some? ==> updates[i].currentPage.value <= c
  }

  /** One pass of the do-while body on page j (0-based): announce the page, request it with the
      pending token, then either stop with the page's error or push its refs, report the count
      and take its continuation token. */
  method FetchPage(playlistId: string, pages: seq<Fetched<PlaylistItemListResponse>>, j: nat,
                   token: Option<string>, estimate: nat, acc: seq<VideoRef>,
                   calls: seq<ApiCall>, updates: seq<ProgressUpdate>)
    returns (failure: Option<string>, token': Option<string>, estimate': nat, acc': seq<VideoRef>,
             calls': seq<ApiCall>, updates': seq<ProgressUpdate>)
    requires j < |pages| && (j > 0 ==> PageContinues(pages[j - 1]))
    requires token == RequestToken(pages, j) && acc == CollectRefs(pages, j)
    requires estimate == EstimateAt(pages, j)
    requires calls == PlaylistCalls(playlistId, pages, j)
    ensures calls' == PlaylistCalls(playlistId, pages, j + 1)
    ensures updates' == updates + PageReports(pages, j)
    ensures failure.Some? <==> PageFails(pages[j])
    ensures failure.Some? ==> failure.value == PageError(pages[j], j + 1)
    ensures failure.None? ==>
              acc' == CollectRefs(pages, j + 1) && token' == TokenOf(pages[j])
              && estimate' == EstimateAt(pages, j + 1)
  {
    var currentPage := j + 1;
    token', estimate', acc', failure := token, estimate, acc, None;
    updates' := updates + [PageStartUpdate(currentPage, estimate)];
    var requestToken := if Truthy(token) then token else None;
    calls' := calls + [PlaylistItemsCall(playlistId, requestToken)];
    assert calls' == PlaylistCalls(playlistId, pages, j + 1);
    var page := pages[j];
    if page.Thrown? || !page.ok || page.body.error.Some? {
      failure := Some(PageError(page, currentPage));
      return;
    }
    var data := page.body;
    if currentPage == 1 && data.pageInfo.Some? && data.pageInfo.value.totalResults.Some?
       && data.pageInfo.value.totalResults.value != 0 {
      estimate' := CeilDiv(data.pageInfo.value.totalResults.value, MaxResultsPerPage);
      updates' := updates' + [ProgressUpdate(None, None, None, None, None, Some(estimate'))];
    }
    acc' := AppendKeptRefs(acc, ItemsOf(page));
    updates' := updates' + [FoundUpdate(|acc'|)];
    token' := data.nextPageToken;
  }

  /**
   * One iteration of the do-while on page j: FetchPage, then the loop test. Either the walk
   * stops here with its outcome, or the loop's state is that of the first j + 1 pages.
   */
  method WalkStep(playlistId: string, pages: seq<Fetched<PlaylistItemListResponse>>, j: nat,
                  token: Option<string>, estimate: nat, acc: seq<VideoRef>,
                  calls: seq<ApiCall>, updates: seq<ProgressUpdate>)
    returns (stop: Option<PlaylistOutcome>, token': Option<string>, estimate': nat, acc': seq<VideoRef>,
             calls': seq<ApiCall>, updates': seq<ProgressUpdate>)
    requires PagesEnd(pages) && j <= StopIndex(pages, 0)
    requires token == RequestToken(pages, j) && acc == CollectRefs(pages, j)
    requires estimate == EstimateAt(pages, j)
    requires calls == PlaylistCalls(playlistId, pages, j)
    requires updates == [PlaylistStartUpdate] + PlaylistUpdates(pages, j)
    ensures calls' == PlaylistCalls(playlistId, pages, j + 1)
    ensures updates' == [PlaylistStartUpdate] + PlaylistUpdates(pages, j + 1)
    ensures stop.Some? ==> j == StopIndex(pages, 0) && stop.value == PlaylistSpec(pages)
    ensures stop.None? ==>
              j < StopIndex(pages, 0) && token' == RequestToken(pages, j + 1)
              && acc' == CollectRefs(pages, j + 1) && estimate' == EstimateAt(pages, j + 1)
  {
    var failure;
    failure, token', estimate', acc', calls', updates' :=
      FetchPage(playlistId, pages, j, token, estimate, acc, calls, updates);
    PlaylistUpdatesNext(pages, j);
    stop := None;
    if failure.Some? {
      PlaylistFailsAt(pages, j);
      stop := Some(PlaylistFailed(failure.value));
    } else if !Truthy(token') {
      PlaylistEndsAt(pages, j);
      stop := Some(PlaylistRefs(acc'));
    }
  }

  /** The do-while loop over playlist pages. */
  method FetchPlaylist(playlistId: string, pages: seq<Fetched<PlaylistItemListResponse>>)
    returns (outcome: PlaylistOutcome, calls: seq<ApiCall>, updates: seq<ProgressUpdate>)
    requires PagesEnd(pages)
    ensures outcome == PlaylistSpec(pages)
    ensures calls == PlaylistCalls(playlistId, pages, StopIndex(pages, 0) + 1)
    ensures updates == [PlaylistStartUpdate] + PlaylistUpdates(pages, StopIndex(pages, 0) + 1)
  {
    var allVideoItems: seq<VideoRef> := [];
    var nextPageToken: Option<string> := None;
    var currentPage: nat := 0;
    var totalPagesEstimate: nat := 1;
    updates := [PlaylistStartUpdate];
    calls := [];
    while true
      invariant currentPage <= StopIndex(pages, 0)
      invariant allVideoItems == CollectRefs(pages, currentPage)
      invariant nextPageToken == RequestToken(pages, currentPage)
      invariant calls == PlaylistCalls(playlistId, pages, currentPage)
      invariant totalPagesEstimate == EstimateAt(pages, currentPage)
      invariant updates == [PlaylistStartUpdate] + PlaylistUpdates(pages, currentPage)
      decreases StopIndex(pages, 0) - currentPage
    {
      var stop;
      stop, nextPageToken, totalPagesEstimate, allVideoItems, calls, updates :=
        WalkStep(playlistId, pages, currentPage, nextPageToken, totalPagesEstimate, allVideoItems,
                 calls, updates);
      if stop.Some? {
        outcome := stop.value;
        return;
      }
      currentPage := currentPage + 1;
    }
  }

  /** Page k's reports follow those of the first k pages. */
  lemma PlaylistUpdatesNext(pages: seq<Fetched<PlaylistItemListResponse>>, k: nat)
    requires k < |pages|
    ensures [PlaylistStartUpdate] + PlaylistUpdates(pages, k + 1)
            == [PlaylistStartUpdate] + PlaylistUpdates(pages, k) + PageReports(pages, k)
  {
  }

  /** No report of the first k pages names a page beyond k. */
  lemma {:induction false} PlaylistUpdatesWithin(pages: seq<Fetched<PlaylistItemListResponse>>, k: nat)
    requires k <= |pages|
    ensures PagesWithin([PlaylistStartUpdate] + PlaylistUpdates(pages, k), k)
  {
    if k > 0 {
      PlaylistUpdatesWithin(pages, k - 1);
      var us := [PlaylistStartUpdate] + PlaylistUpdates(pages, k);
      assert us == [PlaylistStartUpdate] + PlaylistUpdates(pages, k - 1) + PageReports(pages, k - 1);
      var rs := PageReports(pages, k - 1);
      assert forall i :: 0 <= i < |rs| && rs[i].currentPage.Some? ==> rs[i].currentPage.value == k;
    }
  }

  /** A successful walk's last report is the number of refs it collected. */
  lemma PlaylistReportsFound(pages: seq<Fetched<PlaylistItemListResponse>>)
    requires PagesEnd(pages) && PlaylistSpec(pages).PlaylistRefs?
    ensures var us := [PlaylistStartUpdate] + PlaylistUpdates(pages, StopIndex(pages, 0) + 1);
            us[|us| - 1].videosFound == Some(|PlaylistSpec(pages).refs|)
  {
    var n := StopIndex(pages, 0);
    var us := [PlaylistStartUpdate] + PlaylistUpdates(pages, n + 1);
    var rs := PageReports(pages, n);
    assert us == [PlaylistStartUpdate] + PlaylistUpdates(pages, n) + rs;
    assert us[|us| - 1] == rs[|rs| - 1];
  }

  /**
   * Every page among the first k is announced with its number and the current estimate, and
   * every successful one reports the refs found up to it.
   */
  lemma {:induction false} PlaylistAnnouncesPages(pages: seq<Fetched<PlaylistItemListResponse>>, k: nat, j: nat)
    requires j < k <= |pages|
    ensures PageStartUpdate(j + 1, EstimateAt(pages, j)) in PlaylistUpdates(pages, k)
    ensures !PageFails(pages[j]) ==> FoundUpdate(|CollectRefs(pages, j + 1)|) in PlaylistUpdates(pages, k)
  {
    var rs := PageReports(pages, k - 1);
    assert PlaylistUpdates(pages, k) == PlaylistUpdates(pages, k - 1) + rs;
    if j < k - 1 {
      PlaylistAnnouncesPages(pages, k - 1, j);
    } else {
      PageReportsEnds(pages, j);
    }
  }

  /** Page j's reports start with its announcement and, on success, end with the refs found. */
  lemma PageReportsEnds(pages: seq<Fetched<PlaylistItemListResponse>>, j: nat)
    requires j < |pages|
    ensures PageStartUpdate(j + 1, EstimateAt(pages, j)) in PageReports(pages, j)
    ensures !PageFails(pages[j]) ==> FoundUpdate(|CollectRefs(pages, j + 1)|) in PageReports(pages, j)
  {
    var rs := PageReports(pages, j);
    assert rs[0] == PageStartUpdate(j + 1, EstimateAt(pages, j));
    if !PageFails(pages[j]) {
      assert rs[|rs| - 1] == FoundUpdate(|CollectRefs(pages, j + 1)|);
    }
  }

  /** Pages after the first are announced with the first page's `ceil(totalResults / 50)`. */
  lemma EstimateFromFirstPage(pages: seq<Fetched<PlaylistItemListResponse>>, j: nat)
    requires |pages| >= 1 && j >= 1 && !PageFails(pages[0])
    requires var info := pages[0].body.pageInfo;
             info.Some? && info.value.totalResults.Some? && info.value.totalResults.value != 0
    ensures EstimateAt(pages, j) == CeilDiv(pages[0].body.pageInfo.value.totalResults.value, MaxResultsPerPage)
  {
  }

  /** The walk issues one request per page, up to and including the stopping page. */
  lemma PlaylistRequests(pages: seq<Fetched<PlaylistItemListResponse>>, j: nat)
    requires PagesEnd(pages) && 0 < j <= StopIndex(pages, 0)
    ensures Truthy(RequestToken(pages, j))
    ensures !PageFails(pages[j - 1])
  {
  }

  /**
   * The URL of the walk's j-th request: the first page is fetched without a page token, every
   * later one with `&pageToken=` and the token of the page before it.
   */
  lemma PlaylistRequestUrl(apiKey: string, playlistId: string,
                           pages: seq<Fetched<PlaylistItemListResponse>>, j: nat)
    requires PagesEnd(pages) && j <= StopIndex(pages, 0)
    ensures var cs := PlaylistCalls(playlistId, pages, StopIndex(pages, 0) + 1);
            j < |cs|
            && (j == 0 ==> CallUrl(apiKey, cs[j]) == PlaylistBaseUrl(apiKey, playlistId))
            && (j > 0 ==> TokenOf(pages[j - 1]).Some?
                          && CallUrl(apiKey, cs[j]) == PlaylistBaseUrl(apiKey, playlistId)
                             + "&pageToken=" + TokenOf(pages[j - 1]).value)
  {
    if j > 0 {
      PlaylistRequests(pages, j);
    }
  }

  /** When every page before the last yields a full page of refs, the walk makes ceil(N/50) requests. */
  lemma {:induction false} PageCount(pages: seq<Fetched<PlaylistItemListResponse>>)
    requires PagesEnd(pages)
    requires var n := StopIndex(pages, 0);
             (forall j :: 0 <= j < n ==> |KeptRefs(ItemsOf(pages[j]))| == MaxResultsPerPage)
             && 1 <= |KeptRefs(ItemsOf(pages[n]))| <= MaxResultsPerPage
    ensures var n := StopIndex(pages, 0);
            n + 1 == CeilDiv(|CollectRefs(pages, n + 1)|, MaxResultsPerPage)
  {
    var n := StopIndex(pages, 0);
    FullPages(pages, n);
    var total := |CollectRefs(pages, n + 1)|;
    var r := |KeptRefs(ItemsOf(pages[n]))|;
    assert total == 50 * n + r;
    assert (50 * n + r + 49) / 50 == n + 1;
  }

  /**
   * When the stopping page yields no refs, the walk makes one request more than ceil(N/50):
   * an empty channel still costs one playlistItems request.
   */
  lemma {:induction false} PageCountEmptyLast(pages: seq<Fetched<PlaylistItemListResponse>>)
    requires PagesEnd(pages)
    requires var n := StopIndex(pages, 0);
             (forall j :: 0 <= j < n ==> |KeptRefs(ItemsOf(pages[j]))| == MaxResultsPerPage)
             && |KeptRefs(ItemsOf(pages[n]))| == 0
    ensures var n := StopIndex(pages, 0);
            n + 1 == CeilDiv(|CollectRefs(pages, n + 1)|, MaxResultsPerPage) + 1
    ensures StopIndex(pages, 0) == 0 ==> |CollectRefs(pages, 1)| == 0
  {
    var n := StopIndex(pages, 0);
    FullPages(pages, n);
    assert |CollectRefs(pages, n + 1)| == 50 * n;
    assert (50 * n + 49) / 50 == n;
  }

  lemma {:induction false} FullPages(pages: seq<Fetched<PlaylistItemListResponse>>, k: nat)
    requires k <= |pages|
    requires forall j :: 0 <= j < k ==> |KeptRefs(ItemsOf(pages[j]))| == MaxResultsPerPage
    ensures |CollectRefs(pages, k)| == 50 * k
  {
    if k > 0 {
      FullPages(pages, k - 1);
    }
  }

  // ---------------------------------------------------------------------------------
  // Statistics batches
  //
  // `stats(k)` is the outcome of the k-th videos request, counted from 0: each batch is fetched
  // on its own, so two batches with the same ids may still fare differently.

  /** `Math.ceil(n / 50)`: the number of statistics batches for n refs. */
  function NumBatches(m: nat): nat {
    CeilDiv(m, MaxResultsPerPage)
  }

  lemma NumBatchesBounds(m: nat)
    ensures 50 * NumBatches(m) >= m
    ensures NumBatches(m) == 0 || 50 * (NumBatches(m) - 1) < m
  {
    CeilDivBounds(m, MaxResultsPerPage);
  }

  /** `refs.slice(50k, 50k + 50)`: batch k exists while it starts inside the list. */
  function Batch(refs: seq<VideoRef>, k: nat): (b: seq<VideoRef>)
    requires 50 * k < |refs|
    ensures |b| == Min(50 * k + 50, |refs|) - 50 * k && 1 <= |b| <= MaxResultsPerPage
  {
    refs[50 * k .. Min(50 * k + 50, |refs|)]
  }

  /** The loop's counter stops at the number of batches: k batches cover the list, k - 1 do not. */
  lemma BatchCount(m: nat, k: nat)
    requires 50 * k >= m && (k == 0 || 50 * (k - 1) < m)
    ensures k == NumBatches(m)
  {
    CeilDivUnique(m, MaxResultsPerPage, k);
  }

  /** A batch that starts inside the list is one of the NumBatches batches. */
  lemma BatchCountBound(m: nat, k: nat)
    requires 50 * k < m
    ensures k < NumBatches(m)
  {
    NumBatchesBounds(m);
  }

  function Ids(batch: seq<VideoRef>): (ids: seq<string>)
    ensures |ids| == |batch| && forall i :: 0 <= i < |batch| ==> ids[i] == batch[i].id
  {
    seq(|batch|, i requires 0 <= i < |batch| => batch[i].id)
  }

  /** `video.statistics?.viewCount || '0'`. */
  function ViewCountOrZero(v: VideoResource): string {
    if v.statistics.Some? && Truthy(v.statistics.value.viewCount) then v.statistics.value.viewCount.value
    else MissingViewCount
  }

  /** The statsMap built by `items.forEach(v => statsMap.set(v.id, ...))`: later items win. */
  function StatsMap(items: seq<VideoResource>): map<string, string> {
    if items == [] then map[]
    else
      var last := items[|items| - 1];
      StatsMap(items[..|items| - 1])[last.id := ViewCountOrZero(last)]
  }

  method BuildStatsMap(items: seq<VideoResource>) returns (m: map<string, string>)
    ensures m == StatsMap(items)
  {
    m := map[];
    var i := 0;
    while i < |items|
      invariant 0 <= i <= |items|
      invariant m == StatsMap(items[..i])
    {
      assert items[..i + 1][..i] == items[..i];
      m := m[items[i].id := ViewCountOrZero(items[i])];
      i := i + 1;
    }
    assert items[..|items|] == items;
  }

  /** A video id is in the stats map iff some item has it, and maps to the last such item's count. */
  lemma {:induction false} StatsMapLookup(items: seq<VideoResource>, id: string)
    ensures id in StatsMap(items) <==> exists j :: 0 <= j < |items| && items[j].id == id
    ensures forall j :: 0 <= j < |items| && items[j].id == id
                        && (forall l :: j < l < |items| ==> items[l].id != id) ==>
                        id in StatsMap(items) && StatsMap(items)[id] == ViewCountOrZero(items[j])
    ensures id in StatsMap(items) ==> StatsMap(items)[id] != ""
  {
    if items != [] {
      var init := items[..|items| - 1];
      StatsMapLookup(init, id);
      forall j | 0 <= j < |init| ensures init[j] == items[j] { }
      if (exists j :: 0 <= j < |items| && items[j].id == id) && items[|items| - 1].id != id {
        var j :| 0 <= j < |items| && items[j].id == id;
        assert init[j].id == id;
      }
    }
  }

  /** How one batch's response determines the views of its records. */
  datatype BatchLookup = NetworkFailed | ApiFailed | Stats(counts: map<string, string>)

  function LookupOf(r: Fetched<VideoListResponse>): BatchLookup {
    match r
    case Thrown(_) => NetworkFailed
    case Response(ok, _, data) =>
      if !ok || data.error.Some? then ApiFailed
      else Stats(StatsMap(if data.items.Some? then data.items.value else []))
  }

  function BatchViews(lookup: BatchLookup, id: string): string {
    match lookup
    case NetworkFailed => NetworkErrorViews
    case ApiFailed => ApiErrorViews
    case Stats(counts) => if id in counts && counts[id] != "" then counts[id] else MissingVideoViews
  }

  function Record(ref: VideoRef, views: string): VideoData {
    VideoData(ref.id, ref.title, views, ref.publishedAt)
  }

  /** The records pushed for one batch: one per ref, in order, views decided by the lookup. */
  function BatchRecords(batch: seq<VideoRef>, lookup: BatchLookup): (r: seq<VideoData>)
    ensures |r| == |batch|
  {
    seq(|batch|, q requires 0 <= q < |batch| => Record(batch[q], BatchViews(lookup, batch[q].id)))
  }

  /** The batch's forEach that pushes one record per ref. */
  method AppendBatchRecords(acc: seq<VideoData>, batch: seq<VideoRef>, lookup: BatchLookup)
    returns (r: seq<VideoData>)
    ensures r == acc + BatchRecords(batch, lookup)
  {
    r := acc;
    var i := 0;
    while i < |batch|
      invariant 0 <= i <= |batch|
      invariant r == acc + BatchRecords(batch, lookup)[..i]
    {
      assert BatchRecords(batch, lookup)[..i + 1] == BatchRecords(batch, lookup)[..i] + [BatchRecords(batch, lookup)[i]];
      r := r + [Record(batch[i], BatchViews(lookup, batch[i].id))];
      i := i + 1;
    }
    assert BatchRecords(batch, lookup)[..|batch|] == BatchRecords(batch, lookup);
  }

  /** How each batch's response determines its views: batch k is answered by the k-th response. */
  function BatchLookups(refs: seq<VideoRef>, stats: nat -> Fetched<VideoListResponse>): (ls: seq<BatchLookup>)
    ensures |ls| == NumBatches(|refs|)
  {
    var n := NumBatches(|refs|);
    NumBatchesBounds(|refs|);
    seq(n, k requires 0 <= k < n => if 50 * k < |refs| then LookupOf(stats(k)) else NetworkFailed)
  }

  lemma BatchLookupAt(refs: seq<VideoRef>, stats: nat -> Fetched<VideoListResponse>, k: nat)
    requires 50 * k < |refs|
    ensures k < |BatchLookups(refs, stats)|
    ensures BatchLookups(refs, stats)[k] == LookupOf(stats(k))
  {
    BatchCountBound(|refs|, k);
  }

  /** The records of the first k batches, in order, batch j's views coming from lookups[j]. */
  function BatchesUpTo(refs: seq<VideoRef>, lookups: seq<BatchLookup>, k: nat): seq<VideoData>
    requires k <= |lookups| && (k == 0 || 50 * (k - 1) < |refs|)
  {
    if k == 0 then []
    else BatchesUpTo(refs, lookups, k - 1) + BatchRecords(Batch(refs, k - 1), lookups[k - 1])
  }

  /** All records, batch after batch of 50 consecutive refs. */
  function StatsRecords(refs: seq<VideoRef>, stats: nat -> Fetched<VideoListResponse>): seq<VideoData> {
    var n := NumBatches(|refs|);
    NumBatchesBounds(|refs|);
    BatchesUpTo(refs, BatchLookups(refs, stats), n)
  }

  lemma {:induction false} BatchesUpToLength(refs: seq<VideoRef>, lookups: seq<BatchLookup>, k: nat)
    requires k <= |lookups| && (k == 0 || 50 * (k - 1) < |refs|)
    ensures |BatchesUpTo(refs, lookups, k)| == Min(50 * k, |refs|)
  {
    if k > 0 {
      BatchesUpToLength(refs, lookups, k - 1);
    }
  }

  /** Record q of the last of the first j + 1 batches is built from ref 50j + q and lookups[j]. */
  lemma BatchesUpToLast(refs: seq<VideoRef>, lookups: seq<BatchLookup>, j: nat, q: nat)
    requires j < |lookups| && q < 50 && 50 * j + q < |refs|
    ensures |BatchesUpTo(refs, lookups, j + 1)| == Min(50 * j + 50, |refs|)
    ensures BatchesUpTo(refs, lookups, j + 1)[50 * j + q] ==
              Record(refs[50 * j + q], BatchViews(lookups[j], refs[50 * j + q].id))
  {
    BatchesUpToLength(refs, lookups, j + 1);
    BatchesUpToLength(refs, lookups, j);
    var prev := BatchesUpTo(refs, lookups, j);
    var b := Batch(refs, j);
    var rs := BatchRecords(b, lookups[j]);
    assert BatchesUpTo(refs, lookups, j + 1) == prev + rs;
    assert |prev| == 50 * j && b[q] == refs[50 * j + q];
  }

  /** Record q of batch j, among the first k batches, is built from ref 50j + q and lookups[j]. */
  lemma {:induction false} BatchesUpToAt(refs: seq<VideoRef>, lookups: seq<BatchLookup>, k: nat, j: nat, q: nat)
    requires k <= |lookups| && (k == 0 || 50 * (k - 1) < |refs|)
    requires j < k && q < 50 && 50 * j + q < |refs|
    ensures |BatchesUpTo(refs, lookups, k)| == Min(50 * k, |refs|)
    ensures BatchesUpTo(refs, lookups, k)[50 * j + q] ==
              Record(refs[50 * j + q], BatchViews(lookups[j], refs[50 * j + q].id))
  {
    if j + 1 == k {
      BatchesUpToLast(refs, lookups, j, q);
    } else {
      var m := k - 1;
      BatchesUpToLength(refs, lookups, k);
      BatchesUpToAt(refs, lookups, m, j, q);
      BatchesUpToPrefix(refs, lookups, m, 50 * j + q);
    }
  }

  /** Appending batch m keeps every earlier record where it was. */
  lemma BatchesUpToPrefix(refs: seq<VideoRef>, lookups: seq<BatchLookup>, m: nat, p: nat)
    requires m < |lookups| && 50 * m < |refs|
    requires p < |BatchesUpTo(refs, lookups, m)|
    ensures p < |BatchesUpTo(refs, lookups, m + 1)|
    ensures BatchesUpTo(refs, lookups, m + 1)[p] == BatchesUpTo(refs, lookups, m)[p]
  {
  }

  /**
   * Record q of batch k has that ref's id, title and publication date, whatever the batch
   * outcomes; its views come from the response to batch k's request.
   */
  lemma StatsRecordAt(refs: seq<VideoRef>, stats: nat -> Fetched<VideoListResponse>, k: nat, q: nat)
    requires q < 50 && 50 * k + q < |refs|
    ensures |StatsRecords(refs, stats)| == |refs|
    ensures k < NumBatches(|refs|)
    ensures StatsRecords(refs, stats)[50 * k + q] ==
              Record(refs[50 * k + q], BatchViews(LookupOf(stats(k)), refs[50 * k + q].id))
  {
    var n := NumBatches(|refs|);
    NumBatchesBounds(|refs|);
    BatchesUpToAt(refs, BatchLookups(refs, stats), n, k, q);
    BatchLookupAt(refs, stats, k);
  }

  /** One record per ref, in order, whatever the batch outcomes. */
  lemma StatsRecordsPreserveRefs(refs: seq<VideoRef>, stats: nat -> Fetched<VideoListResponse>)
    ensures |StatsRecords(refs, stats)| == |refs|
    ensures forall p :: 0 <= p < |refs| ==>
              var v := StatsRecords(refs, stats)[p];
              v.id == refs[p].id && v.title == refs[p].title && v.publishedAt == refs[p].publishedAt
  {
    var n := NumBatches(|refs|);
    NumBatchesBounds(|refs|);
    BatchesUpToLength(refs, BatchLookups(refs, stats), n);
    forall p | 0 <= p < |refs|
      ensures var v := StatsRecords(refs, stats)[p];
              v.id == refs[p].id && v.title == refs[p].title && v.publishedAt == refs[p].publishedAt
    {
      var k, q := p / 50, p % 50;
      assert p == 50 * k + q;
      StatsRecordAt(refs, stats, k, q);
    }
  }

  /** The views value each record receives, by outcome of its batch. */
  lemma ViewsRule(r: Fetched<VideoListResponse>, id: string)
    ensures r.Thrown? ==> BatchViews(LookupOf(r), id) == NetworkErrorViews
    ensures r.Response? && (!r.ok || r.body.error.Some?) ==> BatchViews(LookupOf(r), id) == ApiErrorViews
    ensures r.Response? && r.ok && r.body.error.None? ==>
              var items := if r.body.items.Some? then r.body.items.value else [];
              ((forall j :: 0 <= j < |items| ==> items[j].id != id) ==>
                 BatchViews(LookupOf(r), id) == MissingVideoViews) &&
              (forall j :: 0 <= j < |items| && items[j].id == id
                           && (forall l :: j < l < |items| ==> items[l].id != id) ==>
                           BatchViews(LookupOf(r), id) == ViewCountOrZero(items[j]))
  {
    if r.Response? && r.ok && r.body.error.None? {
      var items := if r.body.items.Some? then r.body.items.value else [];
      StatsMapLookup(items, id);
    }
  }

  function MessageUpdate(message: string): ProgressUpdate {
    ProgressUpdate(None, Some(message), None, None, None, None)
  }

  function BatchMessage(batchNo: nat, batches: nat): string {
    "Buscando estatísticas para o lote de vídeos " + Decimal(batchNo) + " de " + Decimal(batches) + "..."
  }

  function BatchNetworkErrorMessage(batchNo: nat): string {
    "Erro de rede ao buscar estatísticas do lote " + Decimal(batchNo) + ". Visualizações podem estar ausentes."
  }

  const StatsStartUpdate := ProgressUpdate(Some(FetchingVideoStatsApi), None, None, Some(0), None, None)

  /**
   * One batch's response handling: on a thrown fetch or an API error every ref of the batch
   * gets the matching sentinel; otherwise the batch's statsMap decides each ref's views.
   */
  method RecordBatch(acc: seq<VideoData>, batch: seq<VideoRef>, response: Fetched<VideoListResponse>)
    returns (r: seq<VideoData>)
    ensures r == acc + BatchRecords(batch, LookupOf(response))
  {
    var lookup: BatchLookup;
    if response.Thrown? {
      lookup := NetworkFailed;
    } else if !response.ok || response.body.error.Some? {
      lookup := ApiFailed;
    } else {
      var counts := BuildStatsMap(if response.body.items.Some? then response.body.items.value else []);
      lookup := Stats(counts);
    }
    r := AppendBatchRecords(acc, batch, lookup);
  }

  /** The progress update after a batch: a thrown fetch also reports a network-error message. */
  function BatchDoneUpdate(response: Fetched<VideoListResponse>, batchNo: nat, processed: nat): (u: ProgressUpdate)
    ensures u.videosProcessedForStats == Some(processed)
    ensures u.state.None? && u.videosFound.None? && u.currentPage.None? && u.totalPages.None?
    ensures u.message.Some? <==> response.Thrown?
  {
    if response.Thrown? then
      ProgressUpdate(None, Some(BatchNetworkErrorMessage(batchNo)), None, Some(processed), None, None)
    else
      ProgressUpdate(None, None, None, Some(processed), None, None)
  }

  /** The statistics requests for the first k batches, in order. */
  function StatsCalls(refs: seq<VideoRef>, k: nat): (cs: seq<ApiCall>)
    requires k == 0 || 50 * (k - 1) < |refs|
    ensures |cs| == k
  {
    seq(k, j requires 0 <= j < k => VideosCall(Ids(Batch(refs, j))))
  }

  /** One turn of the batch loop extends the records by batch k's records. */
  lemma RecordsStep(refs: seq<VideoRef>, stats: nat -> Fetched<VideoListResponse>, k: nat,
                    acc: seq<VideoData>, r: seq<VideoData>)
    requires 50 * k < |refs| && k <= NumBatches(|refs|)
    requires acc == BatchesUpTo(refs, BatchLookups(refs, stats), k)
    requires var batch := refs[50 * k .. Min(50 * k + 50, |refs|)];
             r == acc + BatchRecords(batch, LookupOf(stats(k)))
    ensures k + 1 <= NumBatches(|refs|)
    ensures r == BatchesUpTo(refs, BatchLookups(refs, stats), k + 1)
    ensures |r| == Min(50 * k + 50, |refs|)
  {
    BatchLookupAt(refs, stats, k);
    BatchesUpToLength(refs, BatchLookups(refs, stats), k + 1);
  }

  /**
   * The progress updates of the statistics phase after k batches: the phase start, then per
   * batch its "lote j de N" message and its processed count (with a network-error message
   * when that batch's fetch threw).
   */
  function StatsUpdates(refs: seq<VideoRef>, stats: nat -> Fetched<VideoListResponse>, k: nat): seq<ProgressUpdate>
    requires k == 0 || 50 * (k - 1) < |refs|
  {
    if k == 0 then [StatsStartUpdate]
    else
      StatsUpdates(refs, stats, k - 1)
        + [MessageUpdate(BatchMessage(k, NumBatches(|refs|)))]
        + [BatchDoneUpdate(stats(k - 1), k, Min(50 * k, |refs|))]
  }

  /** The statistics phase reports one opening update and two updates per batch. */
  lemma {:induction false} StatsUpdatesLength(refs: seq<VideoRef>, stats: nat -> Fetched<VideoListResponse>, k: nat)
    requires k == 0 || 50 * (k - 1) < |refs|
    ensures |StatsUpdates(refs, stats, k)| == 1 + 2 * k
    ensures StatsUpdates(refs, stats, k)[0] == StatsStartUpdate
  {
    if k > 0 {
      StatsUpdatesLength(refs, stats, k - 1);
    }
  }

  /** Batch j (0-based) is announced at position 1 + 2j and reported done at 2 + 2j. */
  lemma {:induction false} StatsUpdateAt(refs: seq<VideoRef>, stats: nat -> Fetched<VideoListResponse>,
                                         k: nat, j: nat)
    requires k == 0 || 50 * (k - 1) < |refs|
    requires j < k
    ensures 50 * j < |refs| && |StatsUpdates(refs, stats, k)| == 1 + 2 * k
    ensures StatsUpdates(refs, stats, k)[1 + 2 * j] == MessageUpdate(BatchMessage(j + 1, NumBatches(|refs|)))
    ensures StatsUpdates(refs, stats, k)[2 + 2 * j]
              == BatchDoneUpdate(stats(j), j + 1, Min(50 * (j + 1), |refs|))
  {
    StatsUpdatesLength(refs, stats, k);
    StatsUpdatesLength(refs, stats, k - 1);
    if j < k - 1 {
      StatsUpdateAt(refs, stats, k - 1, j);
    }
  }

  /** Batch k adds one request, for its ids. */
  lemma StatsCallsNext(refs: seq<VideoRef>, k: nat)
    requires 50 * k < |refs|
    ensures StatsCalls(refs, k + 1) == StatsCalls(refs, k) + [VideosCall(Ids(Batch(refs, k)))]
  {
  }

  /** Batch k adds its announcement and its completion report. */
  lemma StatsUpdatesNext(refs: seq<VideoRef>, stats: nat -> Fetched<VideoListResponse>, k: nat)
    requires 50 * k < |refs|
    ensures StatsUpdates(refs, stats, k + 1) == StatsUpdates(refs, stats, k)
      + [MessageUpdate(BatchMessage(k + 1, NumBatches(|refs|)))]
      + [BatchDoneUpdate(stats(k), k + 1, Min(50 * k + 50, |refs|))]
  {
  }

  /** One turn of the batch loop: announce batch k, request its statistics, append its records. */
  method FetchBatch(refs: seq<VideoRef>, stats: nat -> Fetched<VideoListResponse>, i: nat,
                    ghost k: nat, finalVideos: seq<VideoData>, calls: seq<ApiCall>,
                    updates: seq<ProgressUpdate>)
    returns (finalVideos': seq<VideoData>, calls': seq<ApiCall>, updates': seq<ProgressUpdate>)
    requires i == 50 * k && i < |refs|
    requires k <= NumBatches(|refs|)
    requires finalVideos == BatchesUpTo(refs, BatchLookups(refs, stats), k)
    requires calls == StatsCalls(refs, k) && updates == StatsUpdates(refs, stats, k)
    ensures k + 1 <= NumBatches(|refs|)
    ensures finalVideos' == BatchesUpTo(refs, BatchLookups(refs, stats), k + 1)
    ensures calls' == StatsCalls(refs, k + 1) && updates' == StatsUpdates(refs, stats, k + 1)
  {
    var batch := refs[i..Min(i + 50, |refs|)];
    var ids := Ids(batch);
    assert i / 50 == k && batch == Batch(refs, k);
    updates' := updates + [MessageUpdate(BatchMessage(i / 50 + 1, NumBatches(|refs|)))];
    calls' := calls + [VideosCall(ids)];
    StatsCallsNext(refs, k);
    var response := stats(i / 50);
    assert response == stats(k);
    finalVideos' := RecordBatch(finalVideos, batch, response);
    RecordsStep(refs, stats, k, finalVideos, finalVideos');
    updates' := updates' + [BatchDoneUpdate(response, i / 50 + 1, |finalVideos'|)];
    StatsUpdatesNext(refs, stats, k);
  }

  /** The `for (i = 0; i < n; i += 50)` loop over statistics batches. */
  method FetchStats(refs: seq<VideoRef>, stats: nat -> Fetched<VideoListResponse>)
    returns (finalVideos: seq<VideoData>, calls: seq<ApiCall>, updates: seq<ProgressUpdate>)
    ensures finalVideos == StatsRecords(refs, stats)
    ensures (NumBatches(|refs|) == 0 || 50 * (NumBatches(|refs|) - 1) < |refs|)
            && calls == StatsCalls(refs, NumBatches(|refs|))
            && updates == StatsUpdates(refs, stats, NumBatches(|refs|))
  {
    finalVideos := [];
    calls := [];
    updates := [StatsStartUpdate];
    var i := 0;
    ghost var k: nat := 0;
    while i < |refs|
      invariant i == 50 * k && (k == 0 || 50 * (k - 1) < |refs|) && k <= NumBatches(|refs|)
      invariant finalVideos == BatchesUpTo(refs, BatchLookups(refs, stats), k)
      invariant calls == StatsCalls(refs, k) && updates == StatsUpdates(refs, stats, k)
      decreases |refs| - i
    {
      finalVideos, calls, updates := FetchBatch(refs, stats, i, k, finalVideos, calls, updates);
      i := i + 50;
      k := k + 1;
    }
    BatchCount(|refs|, k);
  }

  // ---------------------------------------------------------------------------------
  // The whole extraction

  const ValidatingUpdate := ProgressUpdate(Some(ValidatingInput), Some("Identificando canal..."),
                                           None, None, None, None)

  const FetchingChannelUpdate := ProgressUpdate(Some(FetchingChannelInfoApi),
                                                Some("Buscando informações do canal via API..."),
                                                None, None, None, None)

  function ChannelFoundMessage(info: ChannelInfo): string {
    "Canal \"" + info.title + "\" encontrado. ID da Playlist de Uploads: " + info.uploadsPlaylistId
  }

  function RefsFoundUpdate(count: nat): ProgressUpdate {
    ProgressUpdate(None, Some(Decimal(count) + " IDs de vídeo obtidos. Buscando estatísticas..."),
                   Some(count), None, None, None)
  }

  function CompletedUpdate(count: nat): ProgressUpdate {
    ProgressUpdate(Some(Completed),
                   Some("Extração via API concluída. " + Decimal(count) + " vídeos processados."),
                   None, None, None, None)
  }

  /** What the service returns once the channel is found: the playlist walk, then the statistics. */
  function VideosResult(info: ChannelInfo, pages: seq<Fetched<PlaylistItemListResponse>>,
                        stats: nat -> Fetched<VideoListResponse>): ApiServiceResult
    requires PagesEnd(pages)
  {
    match PlaylistSpec(pages)
    case PlaylistFailed(e) => ApiServiceResult(Some(info.title), [], Some(e))
    case PlaylistRefs(refs) => ApiServiceResult(Some(info.title), StatsRecords(refs, stats), None)
  }

  /** What the service returns once the identifier is known: step 1, then steps 2 and 3. */
  function ChannelResult(channel: Fetched<ChannelListResponse>,
                         pages: seq<Fetched<PlaylistItemListResponse>>,
                         stats: nat -> Fetched<VideoListResponse>): ApiServiceResult
    requires PagesEnd(pages)
  {
    match ClassifyChannel(channel)
    case LookupFailed(failure) => failure
    case Found(info) => VideosResult(info, pages, stats)
  }

  /**
   * What extractChannelVideosViaAPI resolves to, given the URL parser, the channels response,
   * the playlist pages in order and the statistics response of every batch.
   */
  function ServiceResult(channelUrl: string, apiKey: string, parse: string -> Option<string>,
                         channel: Fetched<ChannelListResponse>,
                         pages: seq<Fetched<PlaylistItemListResponse>>,
                         stats: nat -> Fetched<VideoListResponse>): ApiServiceResult
    requires PagesEnd(pages)
  {
    if apiKey == "" then ApiServiceResult(None, [], Some(ApiKeyRequired))
    else if GetChannelIdentifier(parse(channelUrl)).None? then
      ApiServiceResult(None, [], Some(IdentifierNotFound))
    else ChannelResult(channel, pages, stats)
  }

  /** The requests issued once the channel is found: every page, then every batch on success. */
  function VideosCalls(info: ChannelInfo, pages: seq<Fetched<PlaylistItemListResponse>>): seq<ApiCall>
    requires PagesEnd(pages)
  {
    PlaylistCalls(info.uploadsPlaylistId, pages, StopIndex(pages, 0) + 1)
    + match PlaylistSpec(pages)
      case PlaylistFailed(_) => []
      case PlaylistRefs(refs) => NumBatchesBounds(|refs|); StatsCalls(refs, NumBatches(|refs|))
  }

  /** The requests issued once the identifier is known: the channels request, then the rest. */
  function ChannelCalls(ident: ChannelIdentifier, channel: Fetched<ChannelListResponse>,
                        pages: seq<Fetched<PlaylistItemListResponse>>): seq<ApiCall>
    requires PagesEnd(pages)
  {
    [ChannelsCall(ident)]
    + match ClassifyChannel(channel)
      case LookupFailed(_) => []
      case Found(info) => VideosCalls(info, pages)
  }

  /** The requests the service issues, in order. */
  function ServiceCalls(channelUrl: string, apiKey: string, parse: string -> Option<string>,
                        channel: Fetched<ChannelListResponse>,
                        pages: seq<Fetched<PlaylistItemListResponse>>): seq<ApiCall>
    requires PagesEnd(pages)
  {
    if apiKey == "" then []
    else match GetChannelIdentifier(parse(channelUrl))
      case None => []
      case Some(ident) => ChannelCalls(ident, channel, pages)
  }

  /**
   * The updates reported once the channel is found: the walk's reports and, on success, the
   * refs found, the statistics phase and the completion.
   */
  function VideosUpdates(info: ChannelInfo, pages: seq<Fetched<PlaylistItemListResponse>>,
                         stats: nat -> Fetched<VideoListResponse>): seq<ProgressUpdate>
    requires PagesEnd(pages)
  {
    [PlaylistStartUpdate] + PlaylistUpdates(pages, StopIndex(pages, 0) + 1)
    + match PlaylistSpec(pages)
      case PlaylistFailed(_) => []
      case PlaylistRefs(refs) =>
        NumBatchesBounds(|refs|);
        [RefsFoundUpdate(|refs|)] + StatsUpdates(refs, stats, NumBatches(|refs|))
        + [CompletedUpdate(|StatsRecords(refs, stats)|)]
  }

  /** The updates reported once the identifier is known: step 1's, then, if found, the rest. */
  function ChannelUpdates(channel: Fetched<ChannelListResponse>,
                          pages: seq<Fetched<PlaylistItemListResponse>>,
                          stats: nat -> Fetched<VideoListResponse>): seq<ProgressUpdate>
    requires PagesEnd(pages)
  {
    [FetchingChannelUpdate]
    + match ClassifyChannel(channel)
      case LookupFailed(_) => []
      case Found(info) => [MessageUpdate(ChannelFoundMessage(info))] + VideosUpdates(info, pages, stats)
  }

  /** The updates the service reports through its progress callback, in order. */
  function ServiceUpdates(channelUrl: string, apiKey: string, parse: string -> Option<string>,
                          channel: Fetched<ChannelListResponse>,
                          pages: seq<Fetched<PlaylistItemListResponse>>,
                          stats: nat -> Fetched<VideoListResponse>): seq<ProgressUpdate>
    requires PagesEnd(pages)
  {
    if apiKey == "" then []
    else [ValidatingUpdate]
         + match GetChannelIdentifier(parse(channelUrl))
           case None => []
           case Some(_) => ChannelUpdates(channel, pages, stats)
  }

  /** With a key and an identifier, the service's result and requests are those of step 1 onwards. */
  lemma IdentifiedService(channelUrl: string, apiKey: string, parse: string -> Option<string>,
                          channel: Fetched<ChannelListResponse>,
                          pages: seq<Fetched<PlaylistItemListResponse>>,
                          stats: nat -> Fetched<VideoListResponse>)
    requires PagesEnd(pages) && apiKey != "" && GetChannelIdentifier(parse(channelUrl)).Some?
    ensures ServiceResult(channelUrl, apiKey, parse, channel, pages, stats) == ChannelResult(channel, pages, stats)
    ensures ServiceCalls(channelUrl, apiKey, parse, channel, pages)
              == ChannelCalls(GetChannelIdentifier(parse(channelUrl)).value, channel, pages)
  {
  }

  /**
   * Without a key nothing is reported; otherwise 'Identificando canal...' comes first, alone
   * when the URL names no channel and followed by the channel lookup's announcement otherwise.
   */
  lemma ServiceUpdatesStart(channelUrl: string, apiKey: string, parse: string -> Option<string>,
                            channel: Fetched<ChannelListResponse>,
                            pages: seq<Fetched<PlaylistItemListResponse>>,
                            stats: nat -> Fetched<VideoListResponse>)
    requires PagesEnd(pages)
    ensures var us := ServiceUpdates(channelUrl, apiKey, parse, channel, pages, stats);
            (apiKey == "" <==> us == [])
            && (apiKey != "" ==> us[0] == ValidatingUpdate)
            && (apiKey != "" && GetChannelIdentifier(parse(channelUrl)).None? ==> |us| == 1)
            && (apiKey != "" && GetChannelIdentifier(parse(channelUrl)).Some? ==>
                  |us| >= 2 && us[1] == FetchingChannelUpdate)
  {
  }

  /** A successful run's last report is the completion, with the number of videos returned. */
  lemma ServiceUpdatesCompleted(channelUrl: string, apiKey: string, parse: string -> Option<string>,
                                channel: Fetched<ChannelListResponse>,
                                pages: seq<Fetched<PlaylistItemListResponse>>,
                                stats: nat -> Fetched<VideoListResponse>)
    requires PagesEnd(pages)
    requires ServiceResult(channelUrl, apiKey, parse, channel, pages, stats).error.None?
    ensures var us := ServiceUpdates(channelUrl, apiKey, parse, channel, pages, stats);
            var r := ServiceResult(channelUrl, apiKey, parse, channel, pages, stats);
            |us| >= 1 && us[|us| - 1] == CompletedUpdate(|r.videos|)
  {
    ServiceOutcome(channelUrl, apiKey, parse, channel, pages, stats);
    ChannelUpdatesCompleted(channel, pages, stats);
    var cs := ChannelUpdates(channel, pages, stats);
    assert ServiceUpdates(channelUrl, apiKey, parse, channel, pages, stats) == [ValidatingUpdate] + cs;
  }

  lemma ChannelUpdatesCompleted(channel: Fetched<ChannelListResponse>,
                                pages: seq<Fetched<PlaylistItemListResponse>>,
                                stats: nat -> Fetched<VideoListResponse>)
    requires PagesEnd(pages) && ClassifyChannel(channel).Found? && PlaylistSpec(pages).PlaylistRefs?
    ensures var us := ChannelUpdates(channel, pages, stats);
            us[|us| - 1] == CompletedUpdate(|StatsRecords(PlaylistSpec(pages).refs, stats)|)
  {
    var info := ClassifyChannel(channel).info;
    VideosUpdatesCompleted(info, pages, stats);
    var vs := VideosUpdates(info, pages, stats);
    assert ChannelUpdates(channel, pages, stats)
      == [FetchingChannelUpdate] + [MessageUpdate(ChannelFoundMessage(info))] + vs;
  }

  lemma VideosUpdatesCompleted(info: ChannelInfo, pages: seq<Fetched<PlaylistItemListResponse>>,
                               stats: nat -> Fetched<VideoListResponse>)
    requires PagesEnd(pages) && PlaylistSpec(pages).PlaylistRefs?
    ensures var us := VideosUpdates(info, pages, stats);
            us[|us| - 1] == CompletedUpdate(|StatsRecords(PlaylistSpec(pages).refs, stats)|)
  {
  }

  /** Steps 2 and 3 of the service: the playlist walk and, when it succeeds, the statistics. */
  method ExtractVideos(info: ChannelInfo, pages: seq<Fetched<PlaylistItemListResponse>>,
                       stats: nat -> Fetched<VideoListResponse>)
    returns (result: ApiServiceResult, calls: seq<ApiCall>, updates: seq<ProgressUpdate>)
    requires PagesEnd(pages)
    ensures result == VideosResult(info, pages, stats)
    ensures calls == VideosCalls(info, pages)
    ensures updates == VideosUpdates(info, pages, stats)
  {
    var outcome;
    outcome, calls, updates := FetchPlaylist(info.uploadsPlaylistId, pages);
    if outcome.PlaylistFailed? {
      result := ApiServiceResult(Some(info.title), [], Some(outcome.error));
      return;
    }
    var refs := outcome.refs;
    updates := updates + [RefsFoundUpdate(|refs|)];
    var finalVideos, statCalls, statUpdates := FetchStats(refs, stats);
    calls := calls + statCalls;
    updates := updates + statUpdates + [CompletedUpdate(|finalVideos|)];
    result := ApiServiceResult(Some(info.title), finalVideos, None);
  }

  /** Step 1 of the service and what follows it, for an identified channel. */
  method ExtractFromChannel(ident: ChannelIdentifier, channel: Fetched<ChannelListResponse>,
                            pages: seq<Fetched<PlaylistItemListResponse>>,
                            stats: nat -> Fetched<VideoListResponse>)
    returns (result: ApiServiceResult, calls: seq<ApiCall>, updates: seq<ProgressUpdate>)
    requires PagesEnd(pages)
    ensures result == ChannelResult(channel, pages, stats)
    ensures calls == ChannelCalls(ident, channel, pages)
    ensures updates == ChannelUpdates(channel, pages, stats)
  {
    updates := [FetchingChannelUpdate];
    calls := [ChannelsCall(ident)];
    var lookup := ClassifyChannel(channel);
    if lookup.LookupFailed? {
      result := lookup.result;
      return;
    }
    var info := lookup.info;
    updates := updates + [MessageUpdate(ChannelFoundMessage(info))];
    var videoCalls, videoUpdates;
    result, videoCalls, videoUpdates := ExtractVideos(info, pages, stats);
    calls := calls + videoCalls;
    updates := updates + videoUpdates;
  }

  /** extractChannelVideosViaAPI, with the progress callback's arguments collected in order. */
  method ExtractChannelVideos(channelUrl: string, apiKey: string, parse: string -> Option<string>,
                              channel: Fetched<ChannelListResponse>,
                              pages: seq<Fetched<PlaylistItemListResponse>>,
                              stats: nat -> Fetched<VideoListResponse>)
    returns (result: ApiServiceResult, calls: seq<ApiCall>, updates: seq<ProgressUpdate>)
    requires PagesEnd(pages)
    ensures result == ServiceResult(channelUrl, apiKey, parse, channel, pages, stats)
    ensures calls == ServiceCalls(channelUrl, apiKey, parse, channel, pages)
    ensures updates == ServiceUpdates(channelUrl, apiKey, parse, channel, pages, stats)
  {
    calls, updates := [], [];
    if apiKey == "" {
      result := ApiServiceResult(None, [], Some(ApiKeyRequired));
      return;
    }
    updates := [ValidatingUpdate];
    var identifier := GetChannelIdentifier(parse(channelUrl));
    if identifier.None? {
      result := ApiServiceResult(None, [], Some(IdentifierNotFound));
      return;
    }
    var channelUpdates;
    result, calls, channelUpdates := ExtractFromChannel(identifier.value, channel, pages, stats);
    updates := updates + channelUpdates;
    IdentifiedService(channelUrl, apiKey, parse, channel, pages, stats);
  }

  /**
   * The service fails with a non-empty message and no videos, or succeeds exactly when the key
   * is present, the URL names a channel, the channel has an uploads playlist and every page
   * up to the last is fetched; the videos are then the statistics records of the collected refs.
   */
  lemma ServiceOutcome(channelUrl: string, apiKey: string, parse: string -> Option<string>,
                       channel: Fetched<ChannelListResponse>,
                       pages: seq<Fetched<PlaylistItemListResponse>>,
                       stats: nat -> Fetched<VideoListResponse>)
    requires PagesEnd(pages)
    ensures var r := ServiceResult(channelUrl, apiKey, parse, channel, pages, stats);
            r.error.Some? ==> r.videos == [] && Truthy(r.error)
    ensures var r := ServiceResult(channelUrl, apiKey, parse, channel, pages, stats);
            r.error.None? <==>
              apiKey != "" && GetChannelIdentifier(parse(channelUrl)).Some?
              && ClassifyChannel(channel).Found? && PlaylistSpec(pages).PlaylistRefs?
    ensures var r := ServiceResult(channelUrl, apiKey, parse, channel, pages, stats);
            r.error.None? ==>
              r.officialChannelTitle == Some(ClassifyChannel(channel).info.title)
              && r.videos == StatsRecords(PlaylistSpec(pages).refs, stats)
  {
    var n := StopIndex(pages, 0);
    if PageFails(pages[n]) {
      PageErrorNonEmpty(pages[n], n + 1);
    }
  }

  lemma PageErrorNonEmpty(p: Fetched<PlaylistItemListResponse>, pageNo: nat)
    requires PageFails(p)
    ensures PageError(p, pageNo) != ""
  {
    match p
    case Thrown(m) =>
    case Response(_, _, _) =>
      var e := PageError(p, pageNo);
      assert e[|e| - 1] == '.';
  }

  /** On success every collected ref yields one video, in order, keeping its id, title and date. */
  lemma ServiceVideosKeepRefs(channelUrl: string, apiKey: string, parse: string -> Option<string>,
                              channel: Fetched<ChannelListResponse>,
                              pages: seq<Fetched<PlaylistItemListResponse>>,
                              stats: nat -> Fetched<VideoListResponse>)
    requires PagesEnd(pages)
    requires ServiceResult(channelUrl, apiKey, parse, channel, pages, stats).error.None?
    ensures PlaylistSpec(pages).PlaylistRefs?
    ensures var vs := ServiceResult(channelUrl, apiKey, parse, channel, pages, stats).videos;
            var refs := PlaylistSpec(pages).refs;
            |vs| == |refs| &&
            forall p :: 0 <= p < |refs| ==>
              vs[p].id == refs[p].id && vs[p].title == refs[p].title && vs[p].publishedAt == refs[p].publishedAt
  {
    ServiceOutcome(channelUrl, apiKey, parse, channel, pages, stats);
    StatsRecordsPreserveRefs(PlaylistSpec(pages).refs, stats);
  }

  /**
   * A failed run never requests statistics; a successful one issues the channels request, one
   * request per page and one per batch of 50 refs.
   */
  lemma ServiceRequests(channelUrl: string, apiKey: string, parse: string -> Option<string>,
                        channel: Fetched<ChannelListResponse>,
                        pages: seq<Fetched<PlaylistItemListResponse>>,
                        stats: nat -> Fetched<VideoListResponse>)
    requires PagesEnd(pages)
    ensures var r := ServiceResult(channelUrl, apiKey, parse, channel, pages, stats);
            var cs := ServiceCalls(channelUrl, apiKey, parse, channel, pages);
            r.error.Some? ==> forall i :: 0 <= i < |cs| ==> !cs[i].VideosCall?
    ensures var r := ServiceResult(channelUrl, apiKey, parse, channel, pages, stats);
            var cs := ServiceCalls(channelUrl, apiKey, parse, channel, pages);
            r.error.None? ==>
              PlaylistSpec(pages).PlaylistRefs? &&
              |cs| == 1 + (StopIndex(pages, 0) + 1) + NumBatches(|PlaylistSpec(pages).refs|)
  {
    ServiceOutcome(channelUrl, apiKey, parse, channel, pages, stats);
  }
}
