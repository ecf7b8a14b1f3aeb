# YouTube channel title extractor, modelled in Dafny

The modelled program is a browser app. Given a YouTube channel URL and a YouTube Data API v3
key, it lists every public upload of the channel with its view count. It then sorts the list
by views and exports it as CSV or as a spreadsheet.

This project models the logic of that app and proves properties of the model:

- resolving the URL to a channel identifier (an id, a handle or a legacy username);
- the three-stage extraction service: the channel lookup, the paginated walk over the uploads
  playlist, and the statistics lookup in batches of 50;
- the app's handling of the service's answer: input checks, progress merging, the progress
  percentage, and the stable sort by parsed views;
- the two display formatters: pt-BR number grouping and DD/MM/YYYY dates;
- the CSV text and the worksheet rows and column widths.

Every network exchange becomes an input value:

- the `channels` response is a `Fetched<ChannelListResponse>`;
- the playlist pages are a sequence of responses, consumed in order;
- the statistics responses are a function from the batch number (counted from 0) to that
  batch's response, so each batch's fetch can fare on its own.

`new URL(..)` becomes a supplied function from the URL to its pathname, or `None` when the
URL does not parse. `new Date(..)` becomes a supplied function from the string to its UTC
year, month and day, or `None` for an invalid date.

Each service method returns three things:

- its result;
- the API requests it issued, in order;
- the progress updates it reported, in order.

The app component is a `class` whose fields are its `useState` hooks. `HandleExtraction`
is proved against the function `App.Handle` of the old state, the service's answer and the
reported updates. Its postconditions name the service's own specification functions.

Modules, one per file:

- `Wrappers` (`wrappers.dfy`): the option type and JavaScript string truthiness.
- `Text` (`text.dfy`): string helpers (decimal digits, split and join).
- `Types` (`types.dfy`): the records of `types.ts`.
- `ChannelIdentifiers` (`channel_identifiers.dfy`): `getChannelIdentifier` and the channel
  request URL.
- `Extractor` (`extractor.dfy`): `extractChannelVideosViaAPI`.
- `Formatting` (`formatting.dfy`): `utils/formattingUtils.ts`.
- `Export` (`export.dfy`): `utils/exportUtils.ts`.
- `ViewsOrder` (`views_order.dfy`): `parseViews` and the sort.
- `App` (`app.dfy`): the rest of the app component's logic.

Where the code and its comments or description disagree, the model follows the code:

- On a failing playlist page the service returns no videos. The comment at
  services/youtubeExtractorService.ts:169 speaks of partial results.
- A video whose `statistics` block is missing entirely also gets `'0'`, not only one whose
  block lacks a `viewCount`, because `video.statistics?.viewCount || '0'` does this
  (services/youtubeExtractorService.ts:233).

## Model

| member | source | states |
|---|---|---|
| Text.Decimal | services/youtubeExtractorService.ts:198 | String(n) of a count is a non-empty digit string whose first digit is '0' only for 0 |
| Text.DecimalRoundTrip | services/youtubeExtractorService.ts:198 | the digits String(n) writes read back as n |
| Text.CeilDivBounds | services/youtubeExtractorService.ts:174 | CeilDiv(n, d) is the least q with q * d >= n, i.e. Math.ceil(n / d) |
| Text.CeilDivUnique | services/youtubeExtractorService.ts:174 | any q bounded like a ceiling equals CeilDiv(n, d) |
| Text.SplitSlash | services/youtubeExtractorService.ts:24 | split('/') yields at least one piece and no piece contains '/' |
| Text.SplitJoinRoundTrip | services/youtubeExtractorService.ts:24 | joining the split('/') pieces with '/' gives back the pathname |
| Text.NonEmpty | services/youtubeExtractorService.ts:24 | filter(Boolean) keeps only non-empty pieces, each one of the originals |
| Text.NonEmptyConcat | services/youtubeExtractorService.ts:24 | filter(Boolean) drops only empty pieces: the concatenation is unchanged |
| ChannelIdentifiers.PathSegments | services/youtubeExtractorService.ts:24 | path segments are non-empty and free of '/' |
| ChannelIdentifiers.GetChannelIdentifier | services/youtubeExtractorService.ts:21-59 | null when the URL does not parse; otherwise an identifier exactly when the segments have one of the accepted shapes (leading '@', channel/c/user with a second segment, a single non-reserved segment); the value is non-empty and slash-free |
| ChannelIdentifiers.HandleUrl | services/youtubeExtractorService.ts:30-32 | `/@X` and `/@X/...` give forHandle with the '@' kept |
| ChannelIdentifiers.ChannelPathUrl | services/youtubeExtractorService.ts:33-35 | `/channel/S`, with or without more segments, gives id S |
| ChannelIdentifiers.UsernameUrl | services/youtubeExtractorService.ts:36-41 | `/c/S` and `/user/S`, with or without more segments, give forUsername S |
| ChannelIdentifiers.BareNameUrl | services/youtubeExtractorService.ts:42-51 | a single non-reserved segment gives id when it starts with "UC", otherwise forHandle |
| ChannelIdentifiers.UnrecognizedUrls | services/youtubeExtractorService.ts:26-58 | the root path and each reserved tab on its own give null |
| ChannelIdentifiers.QueryValue | services/youtubeExtractorService.ts:96-103 | a handle loses exactly one leading '@'; id and username values are sent verbatim |
| ChannelIdentifiers.HandleUrlQuery | services/youtubeExtractorService.ts:95-100 | for `/@X/...` the channels request ends in `&forHandle=X` |
| Extractor.ApiMessage | services/youtubeExtractorService.ts:109 | the error message, or the fallback when it is missing or empty, is non-empty when the fallback is |
| Extractor.ClassifyChannel | services/youtubeExtractorService.ts:105-131 | a thrown fetch, non-ok status or error object fails with the API message; an empty item list fails with "channel not found"; otherwise the first channel is found exactly when it has an uploads playlist, with its title or the default title; every failure has no videos and a non-empty error |
| Extractor.KeptRefsAppend | services/youtubeExtractorService.ts:179-187 | the refs kept from two item lists are those of the first, then those of the second |
| Extractor.KeptRefsSingle | services/youtubeExtractorService.ts:180-186 | an item yields a ref exactly when it has a video id and a title, and the ref keeps both |
| Extractor.AppendKeptRefs | services/youtubeExtractorService.ts:179-187 | the forEach appends exactly the kept refs of the page, in item order |
| Extractor.StopIndex | services/youtubeExtractorService.ts:148-196 | the do-while stops at the first page that fails or has no next-page token, and every earlier page continues |
| Extractor.PlaylistFailsAt | services/youtubeExtractorService.ts:166-171 | a failing page reached by the walk is the last one requested, and the walk ends with that page's error |
| Extractor.PlaylistEndsAt | services/youtubeExtractorService.ts:190-196 | a page without a token ends the walk with the refs of all pages so far |
| Extractor.PageEstimate | services/youtubeExtractorService.ts:173-176 | only page 1 with a non-zero totalResults re-estimates the page count, to at least 1 |
| Extractor.PageUpdates | services/youtubeExtractorService.ts:173-189 | after a page: the new estimate when there is one, then the refs found so far; no page numbers |
| Extractor.PlaylistCalls | services/youtubeExtractorService.ts:156-159 | one playlistItems request per page walked |
| Extractor.EstimateAt | services/youtubeExtractorService.ts:138-176 | the totalPages announced with a page is at least 1 |
| Extractor.EstimateFromFirstPage | services/youtubeExtractorService.ts:150-176 | every page after the first is announced with ceil(totalResults / 50) of the first page, when that total is non-zero |
| Extractor.FetchPage | services/youtubeExtractorService.ts:149-195 | one do-while pass: requests the page with the previous page's token, reports PageReports (its announcement with its number and the current estimate, then the estimate and running count on success), and either fails with that page's error or appends its refs, takes its token and its estimate |
| Extractor.WalkStep | services/youtubeExtractorService.ts:148-196 | one iteration: either the walk stops at this page with PlaylistSpec as outcome, or the loop state is that of one more page |
| Extractor.FetchPlaylist | services/youtubeExtractorService.ts:133-196 | the walk's result is PlaylistSpec; it requests every page up to the stopping one; its reports are the playlist start update followed by each walked page's PageReports, in order |
| Extractor.PlaylistUpdatesWithin | services/youtubeExtractorService.ts:140-154 | no report of the walk names a page beyond those requested |
| Extractor.PlaylistReportsFound | services/youtubeExtractorService.ts:189-196 | a successful walk's last report is the number of refs collected |
| Extractor.PlaylistAnnouncesPages | services/youtubeExtractorService.ts:150-189 | every walked page is announced with its number and estimate, and each successful one reports the refs found up to it |
| Extractor.PageReportsEnds | services/youtubeExtractorService.ts:150-189 | a page's reports start with its announcement and, on success, end with the running count |
| Extractor.PlaylistRequestUrl | services/youtubeExtractorService.ts:156-159 | the first playlistItems URL has no page token; each later one ends in `&pageToken=` and the previous page's token |
| Extractor.PlaylistRequests | services/youtubeExtractorService.ts:157-159 | page j is requested only after page j - 1 succeeded with a token, which is sent |
| Extractor.PageCount | services/youtubeExtractorService.ts:148-196 | when every page before the last yields 50 refs and the last yields 1 to 50, the walk makes ceil(N / 50) requests for N refs |
| Extractor.PageCountEmptyLast | services/youtubeExtractorService.ts:148-196 | when every page before the last yields 50 refs and the last yields none, the walk makes ceil(N / 50) + 1 requests; an empty channel costs one request |
| Extractor.NumBatchesBounds | services/youtubeExtractorService.ts:204 | the batch count is the least k with 50k >= n |
| Extractor.Batch | services/youtubeExtractorService.ts:205 | `slice(i, i + 50)` of a batch that starts inside the list has 1 to 50 refs |
| Extractor.BatchCount | services/youtubeExtractorService.ts:204 | the loop counter stops at the number of batches |
| Extractor.BatchCountBound | services/youtubeExtractorService.ts:204 | a batch that starts inside the list is one of the NumBatches batches |
| Extractor.Ids | services/youtubeExtractorService.ts:206 | the batch's ids, one per ref, in order |
| Extractor.BuildStatsMap | services/youtubeExtractorService.ts:231-234 | the forEach builds StatsMap of the items |
| Extractor.StatsMapLookup | services/youtubeExtractorService.ts:231-240 | an id is in the map iff some item has it; it maps to the last such item's count; the value is never empty |
| Extractor.BatchRecords | services/youtubeExtractorService.ts:222-243 | one record per ref of the batch |
| Extractor.AppendBatchRecords | services/youtubeExtractorService.ts:236-243 | the forEach appends exactly the batch's records |
| Extractor.BatchLookups | services/youtubeExtractorService.ts:204-216 | one response per batch |
| Extractor.BatchLookupAt | services/youtubeExtractorService.ts:205-216 | batch k's views come from the k-th videos response, the one to the request for batch k's ids |
| Extractor.BatchesUpToLength | services/youtubeExtractorService.ts:204-263 | after k batches there are min(50k, n) records |
| Extractor.BatchesUpToAt | services/youtubeExtractorService.ts:204-263 | record 50j + q is built from ref 50j + q and batch j's response |
| Extractor.StatsRecordAt | services/youtubeExtractorService.ts:204-257 | record 50k + q keeps that ref's id, title and date; its views come from batch k's response |
| Extractor.StatsRecordsPreserveRefs | services/youtubeExtractorService.ts:222-257 | one record per ref, in order, keeping id, title and date, whatever the batch outcomes |
| Extractor.ViewsRule | services/youtubeExtractorService.ts:218-257 | a thrown fetch gives 'Erro de rede', an API error 'Erro ao buscar', otherwise the map's count or 'N/A' for a missing id |
| Extractor.RecordBatch | services/youtubeExtractorService.ts:218-257 | handling one batch's response appends that batch's records |
| Extractor.BatchDoneUpdate | services/youtubeExtractorService.ts:245-261 | after a batch the processed count is reported, with a message only on a thrown fetch |
| Extractor.StatsCalls | services/youtubeExtractorService.ts:212-215 | one videos request per batch |
| Extractor.StatsUpdatesLength | services/youtubeExtractorService.ts:202-261 | the statistics phase reports one opening update and two per batch |
| Extractor.StatsUpdateAt | services/youtubeExtractorService.ts:208-261 | batch j is announced as "lote j+1 de N" at position 1 + 2j and reported done at 2 + 2j |
| Extractor.FetchBatch | services/youtubeExtractorService.ts:205-262 | one loop turn extends records, requests and updates by batch k's |
| Extractor.FetchStats | services/youtubeExtractorService.ts:200-263 | the batch loop yields StatsRecords, one request per batch and StatsUpdates |
| Extractor.ExtractVideos | services/youtubeExtractorService.ts:133-270 | walk then statistics, as VideosResult and VideosCalls; its reports are VideosUpdates: the walk's reports, then on success the refs found, the statistics phase's reports and the completion |
| Extractor.ExtractFromChannel | services/youtubeExtractorService.ts:92-270 | the channels request first, then the rest, as ChannelResult and ChannelCalls; its reports are ChannelUpdates: the lookup announcement, then, for a found channel, the channel-found message and VideosUpdates |
| Extractor.ExtractChannelVideos | services/youtubeExtractorService.ts:73-270 | the service's result is ServiceResult, its requests ServiceCalls and its reports ServiceUpdates |
| Extractor.ServiceUpdatesStart | services/youtubeExtractorService.ts:78-92 | without a key nothing is reported; otherwise 'Identificando canal...' comes first, and alone when the URL names no channel; with an identifier the 'Buscando informações do canal via API...' announcement comes second |
| Extractor.ServiceUpdatesCompleted | services/youtubeExtractorService.ts:78-268 | a successful run's last report is the completion update carrying the number of videos returned |
| Extractor.ChannelUpdatesCompleted | services/youtubeExtractorService.ts:104-268 | once the channel is found and the walk succeeds, the last report is the completion with the number of combined records |
| Extractor.VideosUpdatesCompleted | services/youtubeExtractorService.ts:138-268 | after a successful walk the last report is the completion with the number of combined records |
| Extractor.ServiceOutcome | services/youtubeExtractorService.ts:73-270 | a failure has no videos and a non-empty error; success iff key present, URL identified, uploads playlist found and every page fetched; then the title is the channel's and the videos are the statistics records of the collected refs |
| Extractor.PageErrorNonEmpty | services/youtubeExtractorService.ts:167-194 | a failing page's error text is non-empty |
| Extractor.ServiceVideosKeepRefs | services/youtubeExtractorService.ts:179-242 | on success every collected ref gives one video, in order, with its id, title and date |
| Extractor.ServiceRequests | services/youtubeExtractorService.ts:105-215 | a failed run never requests statistics; a successful one makes 1 + pages + ceil(refs / 50) requests |
| Formatting.DigitsOnly | utils/formattingUtils.ts:12 | `replace(/[^0-9]/g, '')` leaves only digits and never lengthens |
| Formatting.DigitsOnlyEmpty | utils/formattingUtils.ts:12-14 | nothing is left iff the string has no digit (parseInt then gives NaN) |
| Formatting.GroupedShape | utils/formattingUtils.ts:20 | the pt-BR rendering is digit groups joined by '.': they spell String(n), the first has 1-3 digits without a leading zero, the rest exactly 3 |
| Formatting.GroupedDigits | utils/formattingUtils.ts:20 | dropping the separators from the rendering gives String(n) |
| Formatting.GroupedChars | utils/formattingUtils.ts:20 | the rendering holds only digits and '.' |
| Formatting.MissingValue | utils/formattingUtils.ts:10 | an undefined or null value is shown as 'N/A' |
| Formatting.StringFormat | utils/formattingUtils.ts:9-20 | a string without a digit comes back unchanged; otherwise the result is the rendering of the value of its digits |
| Formatting.FormatIdempotent | utils/formattingUtils.ts:9-20 | formatting a formatted value changes nothing |
| Formatting.SameDigitsSameFormat | utils/formattingUtils.ts:12 | '1,234', '1.234' and '1 234' format alike: only the digits matter |
| Formatting.LeadingZeroIgnored | utils/formattingUtils.ts:12-20 | leading zeros disappear |
| Formatting.FormatQuoteFree | utils/formattingUtils.ts:9-20 | a value without '"' formats to one without '"' |
| Formatting.PadStart | utils/formattingUtils.ts:38-39 | padStart keeps the string as a suffix, fills the front with the fill character, and reaches the target length |
| Formatting.PaddedValue | utils/formattingUtils.ts:38-39 | a padded day or month has two digits that read back as the number |
| Formatting.DateRoundTrip | utils/formattingUtils.ts:38-41 | a valid date gives DD/MM/YYYY: two digits reading back as the UTC day, '/', two digits reading back as the month counted from 1, '/', String(year) |
| Formatting.DateOutcomes | utils/formattingUtils.ts:29-41 | empty or missing gives 'N/A', unparsable gives 'Data Inválida', a valid date gives neither |
| Formatting.DateQuoteFree | utils/formattingUtils.ts:29-41 | the date text never holds '"' |
| Export.CsvRows | utils/exportUtils.ts:42-44 | one row per video |
| Export.ReadEscaped | utils/exportUtils.ts:43 | a title with its quotes doubled, then the closing quote, reads back as the title (section 2, rule 7 of RFC 4180) |
| Export.CollapseEscaped | utils/exportUtils.ts:43 | collapsing '""' back to '"' recovers the title |
| Export.ReadRendered | utils/exportUtils.ts:43 | a record of quoted fields read back gives its fields |
| Export.ReadJoined | utils/exportUtils.ts:42-44 | records joined by '\n' read back as the same records, in order |
| Export.HeaderRecord | utils/exportUtils.ts:41 | the header line is the record of the three column names, then '\n' |
| Export.RowRecord | utils/exportUtils.ts:43 | a row is the record of the title, the formatted views and the formatted date |
| Export.CsvReadsBack | utils/exportUtils.ts:40-46 | the content is U+FEFF, then records that read back as the header and, one per video in order, the title with every quote restored, the formatted views and the formatted date |
| Export.CsvRowCount | utils/exportUtils.ts:41-46 | exactly one row per video, in input order; a non-empty export ends with the last row's closing quote, while an empty one ends with the header's newline |
| Export.Worksheet | utils/exportUtils.ts:56-60 | one worksheet row per video |
| Export.WorksheetMatchesCsv | utils/exportUtils.ts:43-60 | each worksheet row holds the video's title and the two formatted values of the CSV row |
| Export.Utf16Length | utils/exportUtils.ts:68-70 | `.length` counts UTF-16 code units: between one and two per character |
| Export.BmpLength | utils/exportUtils.ts:68-70 | characters up to U+FFFF count one each |
| Export.HeaderLengths | utils/exportUtils.ts:68-70 | the column names are 15, 13 and 18 units long |
| Export.MaxLength | utils/exportUtils.ts:68-70 | `Math.max(...lengths, header)` bounds every length and the header and is one of them |
| Export.ColumnWidths | utils/exportUtils.ts:73-77 | three column widths |
| Export.WidthRanges | utils/exportUtils.ts:68-77 | title width in [15, 80], views in [13, 20], date in [18, 20] |
| Export.WidthFits | utils/exportUtils.ts:68-77 | a column is as wide as its longest value or name unless that exceeds the cap, when it is the cap |
| Export.TitleFits | utils/exportUtils.ts:68-74 | every title fits its column or the column is 80 wide |
| ViewsOrder.TrimStart | App.tsx:114 | parseInt skips exactly the leading white space and line terminators |
| ViewsOrder.LeadingDigits | App.tsx:114 | parseInt reads the longest prefix of digits |
| ViewsOrder.ParseIntDigits | App.tsx:114 | a non-empty digit string parses to its value |
| ViewsOrder.ParseIntDecimal | App.tsx:114 | parseInt reads back what String(n) writes |
| ViewsOrder.ParseIntNoDigit | App.tsx:114-115 | a string without a digit parses to NaN |
| ViewsOrder.RemoveCommasJoin | App.tsx:114 | removing the commas from digit groups joined by ',' gives their concatenation |
| ViewsOrder.ParseViewsNoDigit | App.tsx:112-116 | views without a digit ('N/A', 'Erro ao buscar', 'Erro de rede') count as -1 |
| ViewsOrder.ParseViewsDigits | App.tsx:112-116 | a views string of digits counts as its value, which is at least 0 |
| ViewsOrder.ParseViewsCommaGroups | App.tsx:114 | '1,234,567' counts as 1234567 |
| ViewsOrder.ParseViewsDecimal | App.tsx:112-116 | a count written by String(n) counts as n |
| ViewsOrder.InsertPermutation | App.tsx:111-120 | inserting adds exactly the one record |
| ViewsOrder.InsertSorted | App.tsx:117-119 | inserting into a non-increasing list keeps it non-increasing |
| ViewsOrder.InsertStable | App.tsx:111-120 | inserting x puts it in front of the records with the same key |
| ViewsOrder.SortPermutation | App.tsx:111 | the sorted list is a permutation of the input |
| ViewsOrder.SortSorted | App.tsx:117-119 | the sorted list is non-increasing in the key |
| ViewsOrder.SortStable | App.tsx:111-120 | records with equal keys keep their relative order (Array.prototype.sort is stable, section 23.1.3.30 of ECMAScript 2023) |
| ViewsOrder.SameArrangement | App.tsx:111-120 | two non-increasing lists with the same records per key, in the same order, are equal |
| ViewsOrder.SortUnique | App.tsx:111-120 | the sort is the only arrangement that is non-increasing and keeps equal-key records in order |
| ViewsOrder.SortByViewsSpec | App.tsx:111-120 | the sorted videos are the same records, most viewed first |
| ViewsOrder.SortByViewsStable | App.tsx:111-120 | videos with equal parsed views keep their order |
| ViewsOrder.SentinelsLast | App.tsx:113-119 | a video whose views hold no digit comes after every video counted at 0 or more |
| ViewsOrder.ThreeVideosOrder | App.tsx:111-120 | views "100", "50", "200" come out in the order 200, 100, 50 |
| App.MergeFields | App.tsx:54-59 | a key the update carries gets the update's value; every other key keeps its value |
| App.MergeNoUpdate | App.tsx:54-59 | an empty update leaves the snapshot unchanged |
| App.MergeIdempotent | App.tsx:54-59 | applying the same update twice is applying it once |
| App.MergeCombine | App.tsx:54-59 | two merges in a row are one merge of `{...u, ...v}` |
| App.ApplyUpdatesCombined | App.tsx:54-59 | a run of updates acts as the single update that spreads them all, later keys winning |
| App.ProgressPercentage | App.tsx:153-176 | the percentage is between 0 and 100 |
| App.PercentageStages | App.tsx:153-176 | 100 iff COMPLETED without error; 0 when idle, failed, showing an error or not loading; 5 while validating, 10 while fetching the channel, [10, 80] while paging, [80, 99] while fetching statistics |
| App.PagingMonotone | App.tsx:163-167 | a later page of the same estimate never lowers the percentage |
| App.ErrorMessage | App.tsx:140 | the shown error message is never empty |
| App.ValidationOrder | App.tsx:62-80 | the extraction passes the checks iff there is a key, a URL and the URL parses; the key is checked first (IDLE), then the URL's presence (IDLE), then its syntax (ERROR) |
| App.HandleRejected | App.tsx:62-80 | a refused extraction shows its error and state and leaves videos, title, loading flag and counters unchanged; a missing key also sets the channel notice to 'ERRO: Chave da API do YouTube é obrigatória para extrair vídeos.', which the other refusals leave as it was; the bar is at 0 |
| App.HandleFailed | App.tsx:104-150 | a service error ends in ERROR with the error shown, no videos, no title, not loading, and the bar at 0 |
| App.HandleEmpty | App.tsx:128-136 | an empty answer ends COMPLETED with both counters 0, no videos, the channel's title, and the bar at 100 |
| App.HandleSorted | App.tsx:108-127 | a non-empty answer ends COMPLETED showing the same videos, most viewed first, equal counts in their original order, both counters at their number, and the bar at 100 |
| App.HandleService | App.tsx:97-147 | once the checks pass, the run completes iff the service succeeds, and then shows its videos sorted; a failing service leaves ERROR and no videos |
| App.PlaceholderViewsUnparsed | App.tsx:112-116 | the service's placeholders 'Erro ao buscar', 'Erro de rede' and 'N/A' count as -1 |
| App.AppState.constructor | App.tsx:14-26 | the initial value of every state hook |
| App.AppState.SetChannelUrl | App.tsx:14 | the URL input sets channelUrl and nothing else |
| App.AppState.SetUserApiKey | App.tsx:15 | the key input sets userApiKey and nothing else |
| App.AppState.Reject | App.tsx:62-80 | a failed check sets the error, merges the rejection's state and message into the progress, and sets the key notice only when there is one |
| App.AppState.Start | App.tsx:82-95 | an accepted extraction starts loading, clears the error, the videos, the title and the API notice, and merges the start update |
| App.AppState.OnProgressUpdate | App.tsx:54-59 | the progress becomes the merge of the previous snapshot with the update; nothing else changes |
| App.AppState.ReportProgress | App.tsx:101 | the service's reports, applied one by one in order, leave ApplyUpdates of the old progress |
| App.AppState.Conclude | App.tsx:104-150 | the service's answer is shown as Concluded describes: the catch block on an error, otherwise the title and the sorted videos or the empty-channel notice; loading ends |
| App.AppState.HandleExtraction | App.tsx:61-151 | a refused extraction issues no request and reports nothing; otherwise the service's answer, requests and reports are ServiceResult, ServiceCalls and ServiceUpdates; the new state is Handle of the old state, that answer and those reports |

## Left out

- Network I/O, the 200 ms delays and console logging are left out. Each response is an
  input, and the delays and logs change no value the model tracks.
- The WHATWG URL parser and the `Date` constructor are foreign code. They are supplied
  functions: pathname or failure, and UTC year, month and day or failure.
- Extractor.FetchPlaylist, Extractor.ExtractChannelVideos and App.AppState.HandleExtraction
  require the supplied pages to end the walk, meaning the last page fails or has no
  next-page token. A channel whose API returns tokens forever would make the source loop
  forever, and the model does not cover that.
- The `catch` of formatIsoDateToBrazilian (utils/formattingUtils.ts:42-45) is not modelled.
  With a parsed date, nothing in the `try` body can throw.
- `Intl.NumberFormat` is specified by its grouping rule for integers. JavaScript's 2^53
  precision limit of `parseInt` and `Number` is not modelled: integers are exact.
- Formatting.FormatBrazilianNumber takes a number argument only as an integer.
  Fractions, NaN and infinities of `Number(value)` are not modelled, because every caller in
  the app passes a string.
- ViewsOrder.ParseViews: the `typeof viewStr !== 'string'` branch (App.tsx:113) is not
  modelled, because `views` is a string by type.
- `localStorage` handling of the key (App.tsx:28-52) is left out: it is browser storage.
  The clipboard, `alert`, the Blob download link and the SheetJS calls
  (utils/exportUtils.ts:7-38, 51-55, 62-65, 78-84) are left out too, as are the React UI
  components.
- Export.CsvReadsBack requires that no views value contains a double quote. The views
  column is written without escaping (utils/exportUtils.ts:43), and formatBrazilianNumber
  returns a digit-free string unchanged. Real view counts and the service's placeholders
  never contain one.
- The worksheet's column widths are modelled as numbers. `Math.max(...)` spreading a very
  long array, which can exceed the engine's argument limit, is not modelled.
- App.ProgressPercentage computes in exact reals rather than IEEE doubles. Only its bounds,
  its stage values and its order are claimed, not the rounded value the browser shows.
- App.AppState.HandleExtraction applies the service's progress reports after the service
  returns rather than interleaved with its requests. The app's state is not read by the
  service, so the resulting state is the same.
- App.HandleFailed covers errors the service returns. The service catches every
  exception itself, so the app's `catch` for a thrown service call is reached only through
  the rethrown `result.error`.
- Concurrency of React state updates (stale closures, batched renders) is not modelled.
