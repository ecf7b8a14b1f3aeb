/**
 * The records of the extractor: the final video record, the extraction state machine and
 * its progress snapshot, and the (simplified) YouTube Data API v3 responses it reads.
 * Optional JSON keys are `Option`s; fields the code never reads are omitted.
 */
module Types {
  import opened Wrappers

  datatype VideoData = VideoData(id: string, title: string, views: string, publishedAt: Option<string>)

  datatype ExtractionState =
    | Idle
    | ValidatingInput
    | FetchingChannelInfoApi
    | FetchingPlaylistItemsApi
    | FetchingVideoStatsApi
    | Completed
    | Error

  datatype ExtractionProgress = ExtractionProgress(
    state: ExtractionState,
    message: string,
    videosFound: nat,
    videosProcessedForStats: nat,
    currentPage: Option<nat>,
    totalPages: Option<nat>)

  /** `Partial<ExtractionProgress>`: `Some` for every key the update object carries. */
  datatype ProgressUpdate = ProgressUpdate(
    state: Option<ExtractionState>,
    message: Option<string>,
    videosFound: Option<nat>,
    videosProcessedForStats: Option<nat>,
    currentPage: Option<nat>,
    totalPages: Option<nat>)

  const NoUpdate := ProgressUpdate(None, None, None, None, None, None)

  datatype ApiError = ApiError(code: int, message: string)

  datatype ChannelListResponse = ChannelListResponse(items: Option<seq<ChannelResource>>, error: Option<ApiError>)
  datatype ChannelResource = ChannelResource(id: string, snippet: Option<ChannelSnippet>, contentDetails: Option<ContentDetails>)
  datatype ChannelSnippet = ChannelSnippet(title: string)
  datatype ContentDetails = ContentDetails(relatedPlaylists: Option<RelatedPlaylists>)
  datatype RelatedPlaylists = RelatedPlaylists(uploads: Option<string>)

  datatype PlaylistItemListResponse = PlaylistItemListResponse(
    items: Option<seq<PlaylistItemResource>>,
    nextPageToken: Option<string>,
    pageInfo: Option<PageInfo>,
    error: Option<ApiError>)
  datatype PageInfo = PageInfo(totalResults: Option<nat>, resultsPerPage: Option<nat>)
  datatype PlaylistItemResource = PlaylistItemResource(snippet: Option<PlaylistItemSnippet>)
  datatype PlaylistItemSnippet = PlaylistItemSnippet(title: string, publishedAt: Option<string>, resourceId: Option<ResourceId>)
  datatype ResourceId = ResourceId(videoId: Option<string>)

  datatype VideoListResponse = VideoListResponse(items: Option<seq<VideoResource>>, error: Option<ApiError>)
  datatype VideoResource = VideoResource(id: string, statistics: Option<VideoStatistics>)
  datatype VideoStatistics = VideoStatistics(viewCount: Option<string>)

  /**
   * What `await fetch(url)` followed by `await response.json()` produces: a response with
   * its `ok` flag, HTTP status and decoded body, or an exception with its message.
   */
  datatype Fetched<T> = Response(ok: bool, status: nat, body: T) | Thrown(message: string)
}
