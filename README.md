# Climate data crawler, modelled in Dafny

This project models the crawling core of a client for the NOAA Climate Data Online
(CDO) web API. It proves properties of that model.

- **API client** (`cdoApiClient.js`). It builds the request path for one query, asking
  for pages of up to 1000 records. It pages through the result set, requesting each next
  page at the offset plus the limit that the page's own metadata reports. It
  accumulates the records, waits 1500 ms between pages, and emits `done` with all
  records, or with `null` for an empty answer.
- **Probing query** (`cdoDataProbingQuery.js`). It searches backwards, year by year,
  for the first full-year window that has data. It pauses 1000 ms between years and
  gives up below the floor year.
- **Older probing query** (`cdoDataQuery.js`). It does the same search but keeps one
  parameters object and rewrites its two dates before each retry.
- **Probing bounds** (`dataProbingBounds.js`). It chooses the year to start probing at
  and the floor year, from the date of a location's latest observation.
- **Crawler** (`cdoDataCrawler.js`). It walks a window of the location list strictly
  in order and computes the bounds for each location. It runs one probe per location,
  collects the records and the ids of locations without data, reports progress, waits
  2000 ms, and hands everything to the results callback at the end.

The remote side is an oracle invented for the model, never a network. For the API
client, the oracle is the sequence of HTTP responses, where the i-th request gets the
i-th one. For the probing queries, it is a function from query parameters to "records
or null". For the crawler, it is the sequence of probe answers.

Timers are modelled as follows:
- A timer callback runs in order, and the model records its pause.
- A callback that JavaScript would run later is a loop iteration, or, for the client's
  `setTimeout` -> `makeRequest` chain, a recursive call on the remaining responses.

The objects whose fields the source updates are classes. Their methods are proved
against pure specification functions:
- the client: `Paginate`
- the probing query: `Search`
- the older query: `Settle`, which is connected to `Search`
- the crawler: `Walk` applied through `Apply`

Lemmas prove the properties of those functions.

Files:
- `wrappers.dfy`: `Option` and `Result`.
- `seqs.dfy`: associativity of sequence concatenation, shared by the modules that
  accumulate records, queries and delays.
- `decimal.dfy`: the decimal text of an integer, as JavaScript's string concatenation
  gives it for offsets and years, with a parsing inverse.
- `api_client.dfy`, `probing_query.dfy`, `data_query.dfy`, `probing_bounds.dfy` and
  `crawler.dfy`: one module per source file.

Three behaviours of the code that a reader might not expect:
- `continue()` after the walk has finished calls the results callback again, so it can
  be called more than once.
- The bounds calculator does not make the start year at least the floor year. It does
  so only when the floor is before the current year (`Bounds.StartNotBelowStop`,
  `Bounds.StopAfterCurrentInverts`).
- The crawler passes an error callback to the probing query, but the probing query
  ignores it, so the crawler's `onError` is never called.

## Model

| member | source | states |
|---|---|---|
| Decimal.NatToString | cdoApiClient.js:18 | The text of a natural number is a non-empty run of digits, and it starts with `0` only for zero itself |
| Decimal.IntToString | cdoApiClient.js:18 | The text of an integer is non-empty and starts with `-` exactly when the integer is negative; the rest is a run of digits with no leading zero, and only zero's text starts with `0` |
| Decimal.NatToStringUnique | cdoApiClient.js:18 | Any run of digits without a leading zero that reads as n is exactly the text of n, so the spelling is the one JavaScript prints |
| Decimal.ExampleIntToString | cdoDataProbingQuery.js:31-33 | 26, 2014, 0 and -7 print as `26`, `2014`, `0` and `-7` |
| Decimal.ParseNatToString | cdoApiClient.js:18 | Reading back the digits of a natural number gives that number |
| Decimal.ParseIntToString | cdoApiClient.js:18 | Reading back the text of any integer, negative ones included, gives that integer |
| Decimal.IntToStringInjective | cdoApiClient.js:18 | Two integers have the same text if and only if they are equal |
| ApiClient.QueryPath | cdoApiClient.js:63-70 | The query path starts with the data endpoint, the dataset and the location key, and ends in `&limit=1000`; `QueryPathFields` gives every field in order |
| ApiClient.QueryPathHead | cdoApiClient.js:64-67 | When the values hold no `&`, the first three fields of the path are the endpoint with the dataset, the location and the start date, in that order |
| ApiClient.QueryPathFields | cdoApiClient.js:64-70 | When the values hold no `&`, the path splits at `&` into exactly the endpoint with the dataset, `locationid=`, `startdate=`, `enddate=`, `datatypeid=` with their values, and `limit=1000`, in that order |
| ApiClient.RequestPath | cdoApiClient.js:18 | The request path is the query path, `&offset=` and the offset's decimal text; `RequestPathOffset` reads the offset back |
| ApiClient.RequestPathOffset | cdoApiClient.js:18 | A request path is the query path, then `&offset=`, then text that reads back as the offset; two offsets give the same path if and only if they are equal |
| ApiClient.AccumulatorFor | cdoApiClient.js:9-11 | A request at offset 1 starts from an empty accumulator and any other keeps it; `FreshQueryIgnoresEarlierResults` and `DoneHasAllPages` state the consequences |
| ApiClient.PageEntries | cdoApiClient.js:40 | The entries one page adds to the accumulator; `PageEntriesAre` states them |
| ApiClient.IsEmptyObject | cdoApiClient.js:56 | A body is the empty object when it has no key at all, with null-valued keys counted; `PageWithoutMetadata` and `ExampleNullMetadata` state its effect |
| ApiClient.InitialOffset | cdoApiClient.js:72 | A missing offset and offset 0 both become 1; any other offset is kept; the result is never 0 |
| ApiClient.Emitted | cdoApiClient.js:46-58 | At most one `done` event per query; exactly one when the query ended with records or with null, carrying those records or null |
| ApiClient.OnResponse | cdoApiClient.js:38-60 | An HTTP error stops with the error; a next page is scheduled only for a body that has metadata; a body appends its results to an existing accumulator |
| ApiClient.Paginate | cdoApiClient.js:38-60 | The first request is at the given offset; there is one pause fewer than requests; the client waits only when every response was used; `done` carries the accumulator |
| ApiClient.PaginateStep | cdoApiClient.js:42-53 | One response either ends the query with one request, or adds one request, one pause and the rest of the paging at the next offset |
| ApiClient.PageEntriesAre | cdoApiClient.js:40 | A page adds its results one by one in order; a page without `results` adds one `undefined` entry |
| ApiClient.PaginateDelays | cdoApiClient.js:50-52 | Every pause between pages is 1500 ms |
| ApiClient.FreshQueryIgnoresEarlierResults | cdoApiClient.js:9-11 | A query from offset 1 does not depend on earlier results, and raises only when the answer to its last request is not a parsable body |
| ApiClient.RaisedOnlyOnErrors | cdoApiClient.js:24-40 | With an accumulator in place, a raise comes from the answer to the last request made, and that answer was an HTTP error or not JSON |
| ApiClient.HttpErrorStops | cdoApiClient.js:24-26 | An HTTP error on the first request ends the query with that error, with no pause and no `done` |
| ApiClient.PageWithMetadata | cdoApiClient.js:42-53 | At any offset, the first page included: a page is last when offset plus limit exceeds count, and then `done` carries all records so far (only this page's on a request at offset 1); otherwise the next request is at offset plus limit after 1500 ms |
| ApiClient.PageWithoutMetadata | cdoApiClient.js:55-59 | A body without metadata ends the requests; an empty object emits `done` with null; any other body emits nothing |
| ApiClient.ExampleNullMetadata | cdoApiClient.js:42-59 | A body whose only key is a null `metadata` emits nothing; only `{}` emits `done` with null |
| ApiClient.DoneHasAllPages | cdoApiClient.js:40-47 | When the pages never jump back to offset 1, `done` carries the earlier records plus the entries of every page answered, in order |
| ApiClient.FreshDoneHasAllPages | cdoApiClient.js:9-47 | A query from offset 1 that ends in `done` carries exactly the entries of the pages it received |
| ApiClient.PageOffsetIs | cdoApiClient.js:44 | Page k of a uniform result set starts at record 1 + k·limit |
| ApiClient.LastPageBounds | cdoApiClient.js:46 | The last page is the first one whose following offset exceeds the count |
| ApiClient.UniformStep | cdoApiClient.js:42-53 | On a uniform result set every page before the last schedules the next one, and the last one ends in `done` |
| ApiClient.UniformPage | cdoApiClient.js:42-53 | On a uniform result set, paging from page j requests page j and continues from page j+1, or ends at the last page |
| ApiClient.PageOffsetsAre | cdoApiClient.js:44 | The offsets of pages j to n are 1 + k·limit in order |
| ApiClient.UniformOffsets | cdoApiClient.js:42-53 | On a uniform result set, paging from page j requests exactly the offsets of pages j to the last |
| ApiClient.UniformOutcome | cdoApiClient.js:40-47 | On a uniform result set, paging from page j ends in `done` with the entries of pages j to the last appended |
| ApiClient.UniformPaging | cdoApiClient.js:38-60 | A uniform result set is requested at offsets 1, 1+limit, … up to the last page, with 1500 ms between requests, and `done` carries every page's records |
| ApiClient.ExamplePaging | tests/unit/cdoApiClientTests.js:217-313 | Limit 25 and count 100 give requests at offsets 1, 26, 51 and 76 with three 1500 ms pauses; count 15 gives one request and `done` |
| ApiClient.Client.constructor | cdoApiClient.js:4-6 | A new client has no accumulator and has made no requests, pauses or emissions |
| ApiClient.Client.MakeRequest | cdoApiClient.js:8-27 | Offset 1 resets the accumulator; the request path with the offset is sent |
| ApiClient.Client.OnRequestCompleted | cdoApiClient.js:38-60 | The handler reacts as `OnResponse`: it keeps its accumulator, pauses before a next page, and emits on a stop |
| ApiClient.Client.Query | cdoApiClient.js:63-73 | The query sets the path and makes the requests, pauses and emissions of `Paginate` from the initial offset |
| ApiClient.Client.Walk | cdoApiClient.js:38-60 | The chain of responses and timer callbacks does what `Paginate` says: same requests, pauses, emissions, accumulator and outcome |
| ApiClient.Client.Exchange | cdoApiClient.js:8-60 | One request and the handling of its response: the request path is sent, the accumulator and reaction are those of `OnResponse`, a pause only before a next page, an emission only on a stop |
| ApiClient.RequestPathsCons | cdoApiClient.js:18 | The paths of a request followed by more requests are that request's path followed by theirs |
| Bounds.New | dataProbingBounds.js:4-6 | The constructor fails, with its message, exactly when the floor year is not a number |
| Bounds.GetProbingBounds | dataProbingBounds.js:9-33 | The call fails, with its message, exactly when the date does not parse; the floor year is returned unchanged |
| Bounds.StartYearRule | dataProbingBounds.js:22-27 | The start is the input year unless that year is the current one or below the floor; then the start is the year before the current one |
| Bounds.StartNotBelowStop | dataProbingBounds.js:22-27 | With the floor before the current year, the start year is never below the floor |
| Bounds.StopAfterCurrentInverts | dataProbingBounds.js:22-27 | With the floor at or after the current year, the start year can fall below the floor |
| Bounds.StartBeforeCurrent | dataProbingBounds.js:22-27 | An observation year up to the current one always gives a start year before the current one |
| Bounds.ExampleBounds | tests/unit/dataProbingBoundsTest.js:48-105 | A date of this year gives last year, 2004 gives 2004, 1999 with floor 2000 gives last year, and the floor stays 2000 |
| ProbingQuery.YearWindow | cdoDataProbingQuery.js:31-33 | The query parameters for the full year, from `<year>-01-01` to `<year>-12-31`: `YearWindowYear` and `YearWindowInjective` state what they hold |
| ProbingQuery.YearWindowYear | cdoDataProbingQuery.js:30-36 | The window of a year keeps the location, dataset and data type, starts at the year's text followed by `-01-01` and ends at it followed by `-12-31`, and both dates read back as that year |
| ProbingQuery.YearWindowInjective | cdoDataProbingQuery.js:33 | Two years give the same window if and only if they are equal |
| ProbingQuery.SearchAfter | cdoDataProbingQuery.js:13-28 | A probe queries at least one year, starting at its start year, with one pause fewer than queries |
| ProbingQuery.Search | cdoDataProbingQuery.js:30-36 | The search from a year starts by querying that year, with one pause fewer than queries |
| ProbingQuery.SearchShape | cdoDataProbingQuery.js:13-28 | The years probed are consecutive and descending, every retry is at or above the floor, every pause is 1000 ms, and the final year is the hit year or one below the last year probed |
| ProbingQuery.SearchResult | cdoDataProbingQuery.js:13-28 | Every year between the start and the last year probed had no data; the result is the answer of the last year probed; a null result means the next year would be below the floor |
| ProbingQuery.AllEmpty | cdoDataProbingQuery.js:18-26 | With no data anywhere, every year from start down to the floor is queried once, with a pause between each, and the result is null |
| ProbingQuery.FirstHit | cdoDataProbingQuery.js:14-15 | The probe stops at the first year, counting down, that has data, and returns that year's records |
| ProbingQuery.StartBelowEnd | cdoDataProbingQuery.js:39-48 | A start year below the floor is still queried once, and its answer is the result |
| ProbingQuery.SearchStep | cdoDataProbingQuery.js:17-23 | A null answer at or above the floor records the year and a pause, then continues from the year before |
| ProbingQuery.SearchStop | cdoDataProbingQuery.js:14-26 | Data, or a null answer whose previous year is below the floor, ends the probe at this year |
| ProbingQuery.DataProbingQuery.constructor | cdoDataProbingQuery.js:6-11 | A new query is at its start year, has no callback, and has made no queries, pauses or deliveries |
| ProbingQuery.DataProbingQuery.QueryNext | cdoDataProbingQuery.js:30-36 | A new API client is queried with the full-year window of the current year |
| ProbingQuery.DataProbingQuery.Complete | cdoDataProbingQuery.js:15 | The callback, when there is one, receives the result |
| ProbingQuery.DataProbingQuery.OnApiCallComplete | cdoDataProbingQuery.js:13-28 | Data is delivered; null steps the year back, and retries after 1000 ms exactly when the new year is not below the floor, otherwise delivers null |
| ProbingQuery.DataProbingQuery.Run | cdoDataProbingQuery.js:39-48 | A run queries the windows of the years of `Search`, in order, with its pauses, ends at its final year, and delivers its result once when a callback was given |
| ProbingQuery.ExampleAllEmpty | tests/unit/cdoDataProbingQueryTests.js:198-235 | With no data from 2014 to 2000, the k-th query is for year 2014 − k, for all 15 years down to 2000; each of the fourteen pauses is 1000 ms; the result is null |
| DataQuery.ApiParameters.constructor | cdoDataQuery.js:8-14 | The parameters object holds the given dataset, data type, location and dates |
| DataQuery.ApiParameters.SetYear | cdoDataQuery.js:28-29 | Rewriting the dates gives the window of the new year and leaves the series unchanged |
| DataQuery.AfterQuery | cdoDataQuery.js:30 | A query sends the parameters as they stand; `CdoDataQuery.Query` is proved against it |
| DataQuery.Settle | cdoDataQuery.js:20-37 | The handler and its retries, to the end; `SettleIsSearch` ties it to the probing search |
| DataQuery.AfterDone | cdoDataQuery.js:20-37 | A retry is scheduled only with the year one lower and not below the floor |
| DataQuery.CdoDataQuery.constructor | cdoDataQuery.js:5-14 | A new query is at its start year, with the parameters holding that year's window |
| DataQuery.CdoDataQuery.Query | cdoDataQuery.js:40 | The parameters object, as it stands, is queried and recorded |
| DataQuery.CdoDataQuery.OnApiClientDone | cdoDataQuery.js:20-37 | The handler does the step of `AfterDone`: it delivers data, or steps back and rewrites the dates for a retry, or delivers null |
| DataQuery.CdoDataQuery.Retry | cdoDataQuery.js:25-31 | The loop of answers and timer callbacks ends in the state and result of `Settle` |
| DataQuery.CdoDataQuery.Run | cdoDataQuery.js:17-41 | A run queries the given parameters first and then the windows of the probe's later years; it makes the probe's pauses, ends at its final year, delivers its result once, and leaves the parameters on the last year probed |
| DataQuery.SettleIsSearch | cdoDataQuery.js:20-37 | The retries agree with the probing search: the same result, final year, pauses and windows, and the series never changes |
| DataQuery.SettleOutcome | cdoDataQuery.js:21-35 | The retries end with the probe's result and final year, delivered once |
| DataQuery.SettleQueries | cdoDataQuery.js:25-31 | The retries query the windows of the probe's later years and make its pauses |
| DataQuery.SettleParams | cdoDataQuery.js:28-29 | The retries leave the parameters on the window of the last year probed, with the same series |
| DataQuery.AgreesWithProbingQuery | cdoDataQuery.js:17-41 | From the window the constructor builds, the older query probes exactly the years and windows of `cdoDataProbingQuery.js` and reaches the same result |
| DataQuery.SeriesNeverChanges | cdoDataQuery.js:28-30 | Every retry keeps the dataset, data type and location, and the k-th one queries from `<y>-01-01` to `<y>-12-31` for the year y that is k+1 below the start |
| Crawler.ClipCount | cdoDataCrawler.js:19-21 | The query limit is cut to the number of locations and is otherwise kept |
| Crawler.Window | cdoDataCrawler.js:25 | The window holds as many locations as `count` allows and as remain after `offset`, and no more |
| Crawler.NextStep | cdoDataCrawler.js:24-38 | The walk finishes exactly when the index has reached the window of at most `count` locations after `offset` |
| Crawler.NextStepIs | cdoDataCrawler.js:26-33 | Inside the window, a date that does not parse throws the calculator's error; otherwise a probe starts for that location, dataset and data type on the calculator's bounds |
| Crawler.Progress | cdoDataCrawler.js:55-62 | The reported progress for an index; `ProgressRounds` and `ProgressOfWindow` state its value |
| Crawler.RoundHalfUp | cdoDataCrawler.js:60 | `Math.round` of a quotient; `RoundsHalfUp` states its bounds |
| Crawler.ProgressRounds | cdoDataCrawler.js:55-62 | Progress is undefined only for an empty window; otherwise it is 10000·index/window rounded half up, in hundredths of a percent |
| Crawler.RoundsHalfUp | cdoDataCrawler.js:60 | The rounded quotient is within half a unit of the exact one, with halves rounded up |
| Crawler.ProgressOfWindow | cdoDataCrawler.js:55-62 | Inside a non-empty window progress is between 0 and 100 % and is exactly 100 % at the window's end |
| Crawler.RoundedShare | cdoDataCrawler.js:60 | A share of k out of w, rounded, lies between 0 and 10000, and is 10000 when k is w |
| Crawler.Walk | cdoDataCrawler.js:24-53 | The crawl over a sequence of probe answers; `WalkSummary`, `WalkProbes`, `WalkProgress` and `WalkCompletes` state what it does |
| Crawler.WalkSummary | cdoDataCrawler.js:40-53 | After n completed probes, the index has advanced by n within the window; every pause is 2000 ms; the results are the answers' records in order; the ids without data are those of the null answers |
| Crawler.WalkProgress | cdoDataCrawler.js:47-48 | The k-th progress report is made with index start + k + 1 |
| Crawler.WalkReportsProgress | cdoDataCrawler.js:55-62 | Every report is between 0 and 100 %, and the last is 100 % when the walk finishes |
| Crawler.WalkProbes | cdoDataCrawler.js:24-38 | Probes start for the locations in order; each answer starts the next step; only the last probe can still be waiting, and only once every answer is used |
| Crawler.WalkCompletes | cdoDataCrawler.js:24-53 | With enough answers and parsable dates, the walk probes every location of the window once and finishes |
| Crawler.ContinueRetriesSameLocation | cdoDataCrawler.js:75-77 | After a throw, `continue` throws again on the same location and starts no probe |
| Crawler.OffsetPastEnd | cdoDataCrawler.js:25 | An offset past the end of the list finishes at once, with nothing probed |
| Crawler.FreshCrawlPastEnd | cdoDataCrawler.js:24-37 | A new crawler with its offset at or past the end probes nothing, pauses never and reports no progress, and calls a given results callback once with empty results and no location without data |
| Crawler.AfterQueryNext | cdoDataCrawler.js:24-38 | `queryNext` takes the next step, and records the location id when it starts a probe |
| Crawler.AfterComplete | cdoDataCrawler.js:40-53 | `onQueryComplete` on the state; `DataCrawler.OnQueryComplete` is proved against it and `CrawlStep` composes it into the walk |
| Crawler.CrawlStep | cdoDataCrawler.js:40-53 | Starting a probe and completing it, then walking the remaining answers, is the whole walk |
| Crawler.CrawlStop | cdoDataCrawler.js:24-38 | A step that finishes, throws or waits for an answer ends the walk exactly as `queryNext` leaves it |
| Crawler.ContinueAfterEnd | cdoDataCrawler.js:75-77 | `continue` after the end calls the results callback again with the same results and nothing else changes |
| Crawler.DataCrawler.constructor | cdoDataCrawler.js:9-21 | The crawler keeps its settings with the clipped limit and starts at index 0 with nothing collected |
| Crawler.DataCrawler.QueryNext | cdoDataCrawler.js:24-38 | `queryNext` does the step of `AfterQueryNext` |
| Crawler.DataCrawler.OnQueryComplete | cdoDataCrawler.js:40-53 | Records are appended, or the location id is recorded as without data; the index advances; progress is reported; a 2000 ms pause follows |
| Crawler.DataCrawler.Run | cdoDataCrawler.js:65-73 | `run` installs the callback and does the walk `Walk` describes, from the current index |
| Crawler.DataCrawler.Continue | cdoDataCrawler.js:75-77 | `continue` does the walk `Walk` describes, from the current index |
| Crawler.ExampleCrawl | tests/unit/cdoDataCrawlerTests.js:232-283 | The three locations are probed in order, NL, RS and then CD; the records of the first two are collected and the third is recorded as without data |
| Crawler.ExampleDelivery | tests/unit/cdoDataCrawlerTests.js:232-283 | The results callback is called once, with all records and the id without data |
| Crawler.ExampleLimitAndOffset | tests/unit/cdoDataCrawlerTests.js:186-215 | A limit of 2 probes two locations; offset 1 starts at the second location |

## Left out

- The API token file, the HTTP client, the logger and console output are left out. An
  HTTP error or unparsable JSON is the terminal outcome `Raised`: the logger rethrows
  and nothing more happens.
- Decimal.IntToString: integers are unbounded. JavaScript's exponent form from 1e21 up
  and its loss of precision above 2^53 are not modelled; offsets, years and indexes stay
  far below both.
- ApiClient.Client.MakeRequest: always records the request. When the token file cannot
  be read, `makeRequest` throws through `logger.error` before any request is sent; that
  failure is not modelled.
- Crawler.NextStep: one `currentYear` is used for the whole crawl. `getProbingBounds`
  reads the clock for each location, so a crawl that runs across New Year is not
  modelled.
- Real timers are left out. A pause is recorded with its length, and its callback runs
  next. Concurrency between overlapping queries is not modelled.
- Event-emitter semantics are left out. Several listeners, and a listener added twice,
  are not modelled; `done` reaches the single listener of the query.
- An API call that never answers is modelled as the oracle running out of answers.
  The walk then stops, waiting.
- Progress is JavaScript floating point divided by 100. The model keeps it as an exact
  integer number of hundredths of a percent, rounded half up like `Math.round`. The
  `progress: …%` text is not modelled. Each report is recorded as the index it was
  made with, and `Progress` gives its value.
- `Date.parse`, time zones and the clock are left out. A location's `maxdate` is
  modelled as its year, or `None` when it does not parse. The current year is a
  parameter.
- A `NaN` or undefined floor year is modelled as `None` for `Bounds.New`. An undefined
  or `NaN` `offset` or `count` for the crawler is not modelled: both are natural
  numbers.
- The factories (`createInstance`), `app.js`, `getLocations.js` and the results writer
  are not part of this model.
- A throw from `getProbingBounds` is the step `Threw`. How it propagates out of `run` or
  out of the timer callback is not modelled beyond ending the walk.
- The crawler's `onError` is stored but never called, because the probing query
  ignores a second argument to `run`. The model keeps no error callback.
- Crawler.DataCrawler.OnQueryComplete: requires that a probe was started, which holds for
  every call in the source, because only a probe started by `queryNext` calls it.
- Strings are sequences of characters with no encoding. Query parameters are not
  URL-encoded, because the source does not encode them.
