/**
 * The state the app component keeps and how an extraction changes it: the progress
 * snapshot merged with each partial update, the progress bar's percentage, the checks made
 * before the service is called, and what the app shows once the service answers.
 */
module App {
  import opened Wrappers
  import opened Text
  import opened Types
  import opened ViewsOrder
  import Extractor

  // ---------------------------------------------------------------------------------
  // onProgressUpdate: { ...prev, ...update }

  function OrElse<T>(a: Option<T>, b: T): T {
    if a.Some? then a.value else b
  }

  function Pick<T>(a: Option<T>, b: Option<T>): Option<T> {
    if a.Some? then a else b
  }

  /** The previous snapshot with the keys the update carries replaced. */
  function MergeProgress(p: ExtractionProgress, u: ProgressUpdate): ExtractionProgress {
    ExtractionProgress(
      OrElse(u.state, p.state),
      OrElse(u.message, p.message),
      OrElse(u.videosFound, p.videosFound),
      OrElse(u.videosProcessedForStats, p.videosProcessedForStats),
      Pick(u.currentPage, p.currentPage),
      Pick(u.totalPages, p.totalPages))
  }

  /** { ...u, ...v } for two partial updates. */
  function CombineUpdates(u: ProgressUpdate, v: ProgressUpdate): ProgressUpdate {
    ProgressUpdate(
      Pick(v.state, u.state),
      Pick(v.message, u.message),
      Pick(v.videosFound, u.videosFound),
      Pick(v.videosProcessedForStats, u.videosProcessedForStats),
      Pick(v.currentPage, u.currentPage),
      Pick(v.totalPages, u.totalPages))
  }

  /** The snapshot after the updates, applied in order. */
  function ApplyUpdates(p: ExtractionProgress, updates: seq<ProgressUpdate>): ExtractionProgress
    decreases |updates|
  {
    if updates == [] then p else ApplyUpdates(MergeProgress(p, updates[0]), updates[1..])
  }

  /** All the updates spread into one, later keys winning. */
  function CombineAll(updates: seq<ProgressUpdate>): ProgressUpdate {
    if updates == [] then NoUpdate else CombineUpdates(updates[0], CombineAll(updates[1..]))
  }

  /** A key the update carries takes the update's value; every other key keeps its old value. */
  lemma MergeFields(p: ExtractionProgress, u: ProgressUpdate)
    ensures var r := MergeProgress(p, u);
            (u.state.Some? ==> r.state == u.state.value) && (u.state.None? ==> r.state == p.state)
            && (u.message.Some? ==> r.message == u.message.value) && (u.message.None? ==> r.message == p.message)
            && (u.videosFound.Some? ==> r.videosFound == u.videosFound.value)
            && (u.videosFound.None? ==> r.videosFound == p.videosFound)
            && (u.videosProcessedForStats.Some? ==> r.videosProcessedForStats == u.videosProcessedForStats.value)
            && (u.videosProcessedForStats.None? ==> r.videosProcessedForStats == p.videosProcessedForStats)
            && (u.currentPage.Some? ==> r.currentPage == u.currentPage)
            && (u.currentPage.None? ==> r.currentPage == p.currentPage)
            && (u.totalPages.Some? ==> r.totalPages == u.totalPages)
            && (u.totalPages.None? ==> r.totalPages == p.totalPages)
  {
  }

  /** An empty update leaves the snapshot as it was. */
  lemma MergeNoUpdate(p: ExtractionProgress)
    ensures MergeProgress(p, NoUpdate) == p
  {
  }

  /** Applying the same update twice is applying it once. */
  lemma MergeIdempotent(p: ExtractionProgress, u: ProgressUpdate)
    ensures MergeProgress(MergeProgress(p, u), u) == MergeProgress(p, u)
  {
  }

  /** Two merges in a row are one merge of the combined update. */
  lemma MergeCombine(p: ExtractionProgress, u: ProgressUpdate, v: ProgressUpdate)
    ensures MergeProgress(MergeProgress(p, u), v) == MergeProgress(p, CombineUpdates(u, v))
  {
  }

  /** A run of updates acts like the single update that spreads them all. */
  lemma {:induction false} ApplyUpdatesCombined(p: ExtractionProgress, updates: seq<ProgressUpdate>)
    ensures ApplyUpdates(p, updates) == MergeProgress(p, CombineAll(updates))
    decreases |updates|
  {
    if updates == [] {
      MergeNoUpdate(p);
    } else {
      ApplyUpdatesCombined(MergeProgress(p, updates[0]), updates[1..]);
      MergeCombine(p, updates[0], CombineAll(updates[1..]));
    }
  }

  lemma ApplyUpdatesNext(p: ExtractionProgress, updates: seq<ProgressUpdate>, i: nat)
    requires i < |updates|
    ensures ApplyUpdates(p, updates[i..]) == ApplyUpdates(MergeProgress(p, updates[i]), updates[i + 1..])
  {
    assert updates[i..][1..] == updates[i + 1..];
  }

  // ---------------------------------------------------------------------------------
  // getProgressPercentage

  function RealMin(a: real, b: real): real {
    if a <= b then a else b
  }

  /** The playlist share: currentPage / totalPages of 70 points, when both are set and non-zero. */
  function PageProgress(p: ExtractionProgress): real {
    if p.totalPages.Some? && p.totalPages.value > 0 && p.currentPage.Some? && p.currentPage.value != 0
    then (p.currentPage.value as real / p.totalPages.value as real) * 70.0
    else 0.0
  }

  /** The statistics share: processed / found of 20 points, when both are non-zero. */
  function StatsProgress(p: ExtractionProgress): real {
    if p.videosFound > 0 && p.videosProcessedForStats != 0
    then (p.videosProcessedForStats as real / p.videosFound as real) * 20.0
    else 0.0
  }

  function ProgressPercentage(p: ExtractionProgress, extractionError: Option<string>, isLoading: bool): (pct: real)
    ensures 0.0 <= pct <= 100.0
  {
    if p.state == Completed && !Truthy(extractionError) then 100.0
    else if p.state == Idle || p.state == Error || Truthy(extractionError) then 0.0
    else if !isLoading then 0.0
    else
      match p.state
      case ValidatingInput => 5.0
      case FetchingChannelInfoApi => 10.0
      case FetchingPlaylistItemsApi => 10.0 + RealMin(PageProgress(p), 70.0)
      case FetchingVideoStatsApi => 80.0 + RealMin(StatsProgress(p), 19.0)
      case _ => 0.0
  }

  /**
   * The bar is full exactly when the extraction completed without an error; it is empty when
   * idle, failed, showing an error or not loading; otherwise each stage has its own range.
   */
  lemma PercentageStages(p: ExtractionProgress, extractionError: Option<string>, isLoading: bool)
    ensures var pct := ProgressPercentage(p, extractionError, isLoading);
            pct == 100.0 <==> p.state == Completed && !Truthy(extractionError)
    ensures var pct := ProgressPercentage(p, extractionError, isLoading);
            (p.state == Idle || p.state == Error || Truthy(extractionError)) ==> pct == 0.0
    ensures var pct := ProgressPercentage(p, extractionError, isLoading);
            p.state != Completed && !isLoading ==> pct == 0.0
    ensures var pct := ProgressPercentage(p, extractionError, isLoading);
            isLoading && !Truthy(extractionError) ==>
              (p.state == ValidatingInput ==> pct == 5.0)
              && (p.state == FetchingChannelInfoApi ==> pct == 10.0)
              && (p.state == FetchingPlaylistItemsApi ==> 10.0 <= pct <= 80.0)
              && (p.state == FetchingVideoStatsApi ==> 80.0 <= pct <= 99.0)
  {
    if p.totalPages.Some? && p.totalPages.value > 0 && p.currentPage.Some? && p.currentPage.value != 0 {
      assert p.currentPage.value as real / p.totalPages.value as real >= 0.0;
    }
    if p.videosFound > 0 && p.videosProcessedForStats != 0 {
      assert p.videosProcessedForStats as real / p.videosFound as real >= 0.0;
    }
  }

  lemma DivMonotone(x: real, y: real, t: real)
    requires x <= y && t > 0.0
    ensures x / t <= y / t
  {
    assert (y / t - x / t) * t == y - x;
  }

  /** While paging, a later page of the same estimate never moves the bar back. */
  lemma PagingMonotone(p: ExtractionProgress, page: nat, extractionError: Option<string>)
    requires p.state == FetchingPlaylistItemsApi && p.currentPage.Some? && page >= p.currentPage.value
    ensures ProgressPercentage(p.(currentPage := Some(page)), extractionError, true)
            >= ProgressPercentage(p, extractionError, true)
  {
    var q := p.(currentPage := Some(page));
    if p.totalPages.Some? && p.totalPages.value > 0 && p.currentPage.value != 0 {
      DivMonotone(p.currentPage.value as real, page as real, p.totalPages.value as real);
    }
  }

  // ---------------------------------------------------------------------------------
  // The app's state

  datatype AppSnapshot = AppSnapshot(
    channelUrl: string,
    userApiKey: string,
    videos: seq<VideoData>,
    isLoading: bool,
    progress: ExtractionProgress,
    extractionError: Option<string>,
    channelOfficialTitle: Option<string>,
    channelApiMessage: Option<string>)

  const InitialProgressMessage := "Configure a chave da API e insira a URL do canal."
  const InitialApiMessage := "Por favor, configure sua chave da API do YouTube Data v3. Ela é necessária para extrair a lista de vídeos."

  const InitialSnapshot := AppSnapshot(
    "", "", [], false,
    ExtractionProgress(Idle, InitialProgressMessage, 0, 0, None, None),
    None, None, Some(InitialApiMessage))

  /** getProgressPercentage for a state of the app. */
  function Percentage(s: AppSnapshot): real {
    ProgressPercentage(s.progress, s.extractionError, s.isLoading)
  }

  // ---------------------------------------------------------------------------------
  // handleExtraction

  /** Why an extraction was refused before calling the service, and what the app shows. */
  datatype Rejection = Rejection(error: string, state: ExtractionState, message: string, notice: Option<string>)

  const ApiKeyMissingError := "Chave da API do YouTube não fornecida. Por favor, configure uma chave no Passo 1."
  const ApiKeyMissingMessage := "Chave API obrigatória."
  const ApiKeyMissingNotice := "ERRO: Chave da API do YouTube é obrigatória para extrair vídeos."
  const UrlMissingError := "Por favor, insira uma URL do canal do YouTube."
  const UrlMissingMessage := "URL do canal obrigatória."
  const InvalidUrlError := "URL inválida. Por favor, insira uma URL válida do YouTube."
  const InvalidUrlMessage := "URL inválida."
  const StartMessage := "Iniciando extração via API do YouTube..."
  const NoVideosMessage := "Extração concluída. Nenhum vídeo público encontrado para este canal."
  const UnknownErrorMessage := "Ocorreu um erro desconhecido durante a extração via API."
  const FailurePrefix := "Erro na extração: "

  /** The checks made before any request, in order: the key, then the URL, then its syntax. */
  function ValidateInput(apiKey: string, channelUrl: string, parse: string -> Option<string>): Option<Rejection> {
    if apiKey == "" then Some(Rejection(ApiKeyMissingError, Idle, ApiKeyMissingMessage, Some(ApiKeyMissingNotice)))
    else if channelUrl == "" then Some(Rejection(UrlMissingError, Idle, UrlMissingMessage, None))
    else if parse(channelUrl).None? then Some(Rejection(InvalidUrlError, Error, InvalidUrlMessage, None))
    else None
  }

  const StartUpdate := ProgressUpdate(Some(ValidatingInput), Some(StartMessage), Some(0), Some(0), Some(0), Some(0))

  function SortedMessage(count: nat): string {
    "Extração concluída. " + Decimal(count) + " vídeos encontrados e ordenados por visualizações."
  }

  function SortedUpdate(count: nat): ProgressUpdate {
    ProgressUpdate(Some(Completed), Some(SortedMessage(count)), Some(count), Some(count), None, None)
  }

  const NoVideosUpdate := ProgressUpdate(Some(Completed), Some(NoVideosMessage), Some(0), Some(0), None, None)

  function FailureUpdate(message: string): ProgressUpdate {
    ProgressUpdate(Some(Error), Some(FailurePrefix + message), None, None, None, None)
  }

  /** `err.message || 'Ocorreu um erro desconhecido...'`. */
  function ErrorMessage(message: string): (m: string)
    ensures m != ""
  {
    if message != "" then message else UnknownErrorMessage
  }

  /** The state after a refused extraction. */
  function Rejected(s: AppSnapshot, r: Rejection): AppSnapshot {
    s.(extractionError := Some(r.error),
       progress := MergeProgress(s.progress, ProgressUpdate(Some(r.state), Some(r.message), None, None, None, None)),
       channelApiMessage := if r.notice.Some? then r.notice else s.channelApiMessage)
  }

  /** The state once the checks pass, before the service is called. */
  function Started(s: AppSnapshot): AppSnapshot {
    s.(isLoading := true, extractionError := None, videos := [], channelOfficialTitle := None,
       channelApiMessage := None, progress := MergeProgress(s.progress, StartUpdate))
  }

  /** The catch block: the error is shown and the videos and title are cleared. */
  function Failed(s: AppSnapshot, message: string): AppSnapshot {
    var m := ErrorMessage(message);
    s.(extractionError := Some(m), progress := MergeProgress(s.progress, FailureUpdate(m)),
       videos := [], channelOfficialTitle := None)
  }

  /** A successful answer: the title, then the sorted videos or the empty-channel notice. */
  function Succeeded(s: AppSnapshot, r: Extractor.ApiServiceResult): AppSnapshot {
    var titled := s.(channelOfficialTitle := r.officialChannelTitle);
    if |r.videos| > 0 then
      var sorted := SortByViews(r.videos);
      titled.(videos := sorted, progress := MergeProgress(titled.progress, SortedUpdate(|sorted|)))
    else
      titled.(videos := [], progress := MergeProgress(titled.progress, NoVideosUpdate))
  }

  /** The state after the service's answer r and its progress reports, in order. */
  function Concluded(s: AppSnapshot, r: Extractor.ApiServiceResult, updates: seq<ProgressUpdate>): AppSnapshot {
    var reported := s.(progress := ApplyUpdates(s.progress, updates));
    var shown := if Truthy(r.error) then Failed(reported, r.error.value) else Succeeded(reported, r);
    shown.(isLoading := false)
  }

  /**
   * handleExtraction from state s: refused by the checks, or run with the service's answer r
   * and the progress updates it reported.
   */
  function Handle(s: AppSnapshot, parse: string -> Option<string>, r: Extractor.ApiServiceResult,
                  updates: seq<ProgressUpdate>): AppSnapshot {
    match ValidateInput(s.userApiKey, s.channelUrl, parse)
    case Some(rejection) => Rejected(s, rejection)
    case None => Concluded(Started(s), r, updates)
  }

  /** The checks run in order and let the extraction through only with a key and a parsable URL. */
  lemma ValidationOrder(apiKey: string, channelUrl: string, parse: string -> Option<string>)
    ensures var v := ValidateInput(apiKey, channelUrl, parse);
            v.None? <==> apiKey != "" && channelUrl != "" && parse(channelUrl).Some?
    ensures var v := ValidateInput(apiKey, channelUrl, parse);
            apiKey == "" ==> v == Some(Rejection(ApiKeyMissingError, Idle, ApiKeyMissingMessage, Some(ApiKeyMissingNotice)))
    ensures var v := ValidateInput(apiKey, channelUrl, parse);
            apiKey != "" && channelUrl == "" ==> v == Some(Rejection(UrlMissingError, Idle, UrlMissingMessage, None))
    ensures var v := ValidateInput(apiKey, channelUrl, parse);
            apiKey != "" && channelUrl != "" && parse(channelUrl).None? ==>
              v == Some(Rejection(InvalidUrlError, Error, InvalidUrlMessage, None))
  {
  }

  /**
   * A refused extraction shows its error and leaves the videos, the title, the loading flag
   * and the counters as they were; the bar is empty.
   */
  lemma HandleRejected(s: AppSnapshot, parse: string -> Option<string>, r: Extractor.ApiServiceResult,
                       updates: seq<ProgressUpdate>)
    requires ValidateInput(s.userApiKey, s.channelUrl, parse).Some?
    ensures var h := Handle(s, parse, r, updates);
            var rejection := ValidateInput(s.userApiKey, s.channelUrl, parse).value;
            h.extractionError == Some(rejection.error) && h.progress.state == rejection.state
            && h.progress.message == rejection.message
            && h.videos == s.videos && h.channelOfficialTitle == s.channelOfficialTitle
            && h.isLoading == s.isLoading && h.channelUrl == s.channelUrl && h.userApiKey == s.userApiKey
            && h.progress.videosFound == s.progress.videosFound
            && h.progress.videosProcessedForStats == s.progress.videosProcessedForStats
    ensures var h := Handle(s, parse, r, updates);
            h.channelApiMessage == (if s.userApiKey == "" then Some(ApiKeyMissingNotice) else s.channelApiMessage)
    ensures Percentage(Handle(s, parse, r, updates)) == 0.0
  {
    var h := Handle(s, parse, r, updates);
    PercentageStages(h.progress, h.extractionError, h.isLoading);
  }

  /**
   * An answer with an error ends in the ERROR state with the error shown, no videos and no
   * title, not loading, and with an empty bar.
   */
  lemma HandleFailed(s: AppSnapshot, parse: string -> Option<string>, r: Extractor.ApiServiceResult,
                     updates: seq<ProgressUpdate>)
    requires ValidateInput(s.userApiKey, s.channelUrl, parse).None?
    requires Truthy(r.error)
    ensures var h := Handle(s, parse, r, updates);
            h.progress.state == Error && h.progress.message == FailurePrefix + r.error.value
            && h.extractionError == r.error && h.videos == [] && h.channelOfficialTitle == None
            && !h.isLoading && h.channelApiMessage == None
    ensures Percentage(Handle(s, parse, r, updates)) == 0.0
  {
    var h := Handle(s, parse, r, updates);
    PercentageStages(h.progress, h.extractionError, h.isLoading);
  }

  /** An answer without videos ends COMPLETED with both counters 0 and a full bar. */
  lemma HandleEmpty(s: AppSnapshot, parse: string -> Option<string>, r: Extractor.ApiServiceResult,
                    updates: seq<ProgressUpdate>)
    requires ValidateInput(s.userApiKey, s.channelUrl, parse).None?
    requires !Truthy(r.error) && r.videos == []
    ensures var h := Handle(s, parse, r, updates);
            h.progress.state == Completed && h.progress.message == NoVideosMessage
            && h.progress.videosFound == 0 && h.progress.videosProcessedForStats == 0
            && h.videos == [] && h.extractionError == None
            && h.channelOfficialTitle == r.officialChannelTitle && !h.isLoading
    ensures Percentage(Handle(s, parse, r, updates)) == 100.0
  {
  }

  /**
   * An answer with videos ends COMPLETED showing them most viewed first: the same records,
   * non-increasing in parsed views, equal counts in their original order, both counters at
   * their number, and a full bar.
   */
  lemma HandleSorted(s: AppSnapshot, parse: string -> Option<string>, r: Extractor.ApiServiceResult,
                     updates: seq<ProgressUpdate>)
    requires ValidateInput(s.userApiKey, s.channelUrl, parse).None?
    requires !Truthy(r.error) && r.videos != []
    ensures var h := Handle(s, parse, r, updates);
            h.progress.state == Completed && h.progress.message == SortedMessage(|r.videos|)
            && h.progress.videosFound == |r.videos| && h.progress.videosProcessedForStats == |r.videos|
            && h.videos == SortByViews(r.videos) && h.extractionError == None
            && h.channelOfficialTitle == r.officialChannelTitle && !h.isLoading
    ensures var h := Handle(s, parse, r, updates);
            multiset(h.videos) == multiset(r.videos)
            && (forall i, j :: 0 <= i < j < |h.videos| ==> ParseViews(h.videos[i].views) >= ParseViews(h.videos[j].views))
            && (forall k :: WithKey(h.videos, ViewsOf, k) == WithKey(r.videos, ViewsOf, k))
    ensures Percentage(Handle(s, parse, r, updates)) == 100.0
  {
    SortByViewsSpec(r.videos);
    forall k ensures WithKey(SortByViews(r.videos), ViewsOf, k) == WithKey(r.videos, ViewsOf, k) {
      SortByViewsStable(r.videos, k);
    }
    SortPermutation(r.videos, ViewsOf);
  }

  /**
   * With the service's own answer, an accepted extraction completes exactly when the service
   * succeeds, and then shows its videos sorted; a failing service leaves no videos.
   */
  lemma HandleService(s: AppSnapshot, parse: string -> Option<string>,
                      channel: Fetched<ChannelListResponse>,
                      pages: seq<Fetched<PlaylistItemListResponse>>,
                      stats: nat -> Fetched<VideoListResponse>,
                      updates: seq<ProgressUpdate>)
    requires Extractor.PagesEnd(pages)
    requires ValidateInput(s.userApiKey, s.channelUrl, parse).None?
    ensures var r := Extractor.ServiceResult(s.channelUrl, s.userApiKey, parse, channel, pages, stats);
            var h := Handle(s, parse, r, updates);
            (h.progress.state == Completed <==> r.error.None?)
            && (r.error.Some? ==> h.progress.state == Error && h.videos == [])
            && (r.error.None? ==> h.videos == SortByViews(r.videos))
  {
    var r := Extractor.ServiceResult(s.channelUrl, s.userApiKey, parse, channel, pages, stats);
    Extractor.ServiceOutcome(s.channelUrl, s.userApiKey, parse, channel, pages, stats);
    if r.error.Some? {
      HandleFailed(s, parse, r, updates);
    } else if r.videos == [] {
      HandleEmpty(s, parse, r, updates);
    } else {
      HandleSorted(s, parse, r, updates);
    }
  }

  /** The placeholders the service writes for views all sort below every real count. */
  lemma PlaceholderViewsUnparsed()
    ensures ParseViews(Extractor.ApiErrorViews) == UnparsedViews
    ensures ParseViews(Extractor.NetworkErrorViews) == UnparsedViews
    ensures ParseViews(Extractor.MissingVideoViews) == UnparsedViews
  {
    ApiErrorViewsNoDigit();
    NetworkErrorViewsNoDigit();
    MissingVideoViewsNoDigit();
    ParseViewsNoDigit(Extractor.ApiErrorViews);
    ParseViewsNoDigit(Extractor.NetworkErrorViews);
    ParseViewsNoDigit(Extractor.MissingVideoViews);
  }

  lemma ApiErrorViewsNoDigit()
    ensures !HasDigit(Extractor.ApiErrorViews)
  {
    var s := Extractor.ApiErrorViews;
    forall i | 0 <= i < |s| ensures !IsDigit(s[i]) {
    }
  }

  lemma NetworkErrorViewsNoDigit()
    ensures !HasDigit(Extractor.NetworkErrorViews)
  {
    var s := Extractor.NetworkErrorViews;
    forall i | 0 <= i < |s| ensures !IsDigit(s[i]) {
    }
  }

  lemma MissingVideoViewsNoDigit()
    ensures !HasDigit(Extractor.MissingVideoViews)
  {
    var s := Extractor.MissingVideoViews;
    forall i | 0 <= i < |s| ensures !IsDigit(s[i]) {
    }
  }

  // ---------------------------------------------------------------------------------
  // The component

  /** The app component's state hooks and the handlers that change them. */
  class AppState {
    var channelUrl: string
    var userApiKey: string
    var videos: seq<VideoData>
    var isLoading: bool
    var progress: ExtractionProgress
    var extractionError: Option<string>
    var channelOfficialTitle: Option<string>
    var channelApiMessage: Option<string>

    function Snapshot(): AppSnapshot
      reads this
    {
      AppSnapshot(channelUrl, userApiKey, videos, isLoading, progress, extractionError,
                  channelOfficialTitle, channelApiMessage)
    }

    /** The initial value of every useState hook. */
    constructor()
      ensures Snapshot() == InitialSnapshot
    {
      channelUrl := "";
      userApiKey := "";
      videos := [];
      isLoading := false;
      progress := ExtractionProgress(Idle, InitialProgressMessage, 0, 0, None, None);
      extractionError := None;
      channelOfficialTitle := None;
      channelApiMessage := Some(InitialApiMessage);
    }

    /** setChannelUrl, as the URL input calls it. */
    method SetChannelUrl(url: string)
      modifies this
      ensures Snapshot() == old(Snapshot()).(channelUrl := url)
    {
      channelUrl := url;
    }

    /** setUserApiKey, as the key input calls it. */
    method SetUserApiKey(key: string)
      modifies this
      ensures Snapshot() == old(Snapshot()).(userApiKey := key)
    {
      userApiKey := key;
    }

    /** onProgressUpdate: merges one partial update into the progress snapshot. */
    method OnProgressUpdate(u: ProgressUpdate)
      modifies this
      ensures Snapshot() == old(Snapshot()).(progress := MergeProgress(old(progress), u))
    {
      progress := MergeProgress(progress, u);
    }

    /** The service's calls of onProgressUpdate, one per reported update, in order. */
    method ReportProgress(updates: seq<ProgressUpdate>)
      modifies this
      ensures Snapshot() == old(Snapshot()).(progress := ApplyUpdates(old(progress), updates))
    {
      var i := 0;
      while i < |updates|
        invariant 0 <= i <= |updates|
        invariant Snapshot() == old(Snapshot()).(progress := progress)
        invariant ApplyUpdates(progress, updates[i..]) == ApplyUpdates(old(progress), updates)
      {
        ApplyUpdatesNext(progress, updates, i);
        OnProgressUpdate(updates[i]);
        i := i + 1;
      }
    }

    method Reject(r: Rejection)
      modifies this
      ensures Snapshot() == Rejected(old(Snapshot()), r)
    {
      extractionError := Some(r.error);
      OnProgressUpdate(ProgressUpdate(Some(r.state), Some(r.message), None, None, None, None));
      if r.notice.Some? {
        channelApiMessage := r.notice;
      }
    }

    method Start()
      modifies this
      ensures Snapshot() == Started(old(Snapshot()))
    {
      isLoading := true;
      extractionError := None;
      videos := [];
      channelOfficialTitle := None;
      channelApiMessage := None;
      OnProgressUpdate(StartUpdate);
    }

    /** The service's answer: the catch block on an error, otherwise the sorted videos. */
    method Conclude(result: Extractor.ApiServiceResult, updates: seq<ProgressUpdate>)
      modifies this
      ensures Snapshot() == Concluded(old(Snapshot()), result, updates)
    {
      ReportProgress(updates);
      if Truthy(result.error) {
        var m := ErrorMessage(result.error.value);
        extractionError := Some(m);
        OnProgressUpdate(FailureUpdate(m));
        videos := [];
        channelOfficialTitle := None;
      } else {
        channelOfficialTitle := result.officialChannelTitle;
        if |result.videos| > 0 {
          var sorted := SortByViews(result.videos);
          videos := sorted;
          OnProgressUpdate(SortedUpdate(|sorted|));
        } else {
          videos := [];
          OnProgressUpdate(NoVideosUpdate);
        }
      }
      isLoading := false;
    }

    /**
     * handleExtraction. Returns the requests the service issued, its answer and the progress
     * updates it reported; a refused extraction issues no request.
     */
    method HandleExtraction(parse: string -> Option<string>, channel: Fetched<ChannelListResponse>,
                            pages: seq<Fetched<PlaylistItemListResponse>>,
                            stats: nat -> Fetched<VideoListResponse>)
      returns (calls: seq<Extractor.ApiCall>, result: Extractor.ApiServiceResult, updates: seq<ProgressUpdate>)
      requires Extractor.PagesEnd(pages)
      modifies this
      ensures ValidateInput(old(userApiKey), old(channelUrl), parse).Some? ==> calls == [] && updates == []
      ensures ValidateInput(old(userApiKey), old(channelUrl), parse).None? ==>
                result == Extractor.ServiceResult(old(channelUrl), old(userApiKey), parse, channel, pages, stats)
                && calls == Extractor.ServiceCalls(old(channelUrl), old(userApiKey), parse, channel, pages)
                && updates == Extractor.ServiceUpdates(old(channelUrl), old(userApiKey), parse, channel, pages, stats)
      ensures Snapshot() == Handle(old(Snapshot()), parse, result, updates)
    {
      calls, result, updates := [], Extractor.ApiServiceResult(None, [], None), [];
      var rejection := ValidateInput(userApiKey, channelUrl, parse);
      if rejection.Some? {
        Reject(rejection.value);
        return;
      }
      Start();
      result, calls, updates := Extractor.ExtractChannelVideos(channelUrl, userApiKey, parse, channel, pages, stats);
      Conclude(result, updates);
    }
  }
}
