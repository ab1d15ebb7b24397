# AEMO NEM settlement-window price aggregation, in Dafny

This project models the core of the `aemonemdata` Python package. The package
reads price feeds of the Australian National Electricity Market (NEM) and
summarises the current 30-minute settlement window of each region.

The model covers:

- **The window clock.** `current_30min_window`, in both packages that carry
  a copy of it (`WindowClock`, `WindowClockDuplicate`). An instant is a whole
  number of microseconds since the Unix epoch, and the clock reading is a
  parameter.
- **Reply classification.** `_api_response` decides whether an HTTP reply
  is a payload, a `ClientError` or an `AuthError` (`Api`).
- **The static tables.** `REGIONS` and `AUTH_ERROR_CODES`, and the
  case-insensitive region lookup of `get_aemo_data` (`Constants`).
- **The feed records.** The decoded records of the four feeds, and the
  normalised records the service derives from them: period start by type,
  price per kW, the cleaned cumulative record (`Records`).
- **The two dict idioms of the class.** `d[kind][region].append(x)`, which
  creates the levels on first use, and `d[key] = v` in a loop (`Dicts`).
- **What each record loop makes of its feed.** Each loop is a function of
  the records that arrived so far, with the lemmas about it (`Feeds`).
- **The window filter.** It builds the `current_price` dict of the results
  (`CurrentPrice`).
- **The per-region summary.** The `current_30min_forecast` entry of the
  results: count, average, earliest forecast, blended estimate, latest
  cumulative price and its percentage, limits, flags and forecast list. It
  includes every `KeyError` and `ZeroDivisionError` its lookups can raise
  (`Aggregation`).
- **The `AemoNemData` class itself** (`AemoNem`). Its dict and list fields
  are fields of a Dafny class, and its record loops are methods with `while`
  loops. Each method is proved against the functions above. On the success
  path and on every error path, its contract states the new value of each
  field it may change, from the old values and the replies. The one
  exception is a summary loop that raises part-way. There the contract
  bounds what the summaries dict may hold, as stated under "## Left out".

Each fetch is modelled by the reply the endpoint sent: a status, and the
parsed body when parsing succeeded.

### Behaviour of the code that the model keeps

- `periods_of_current_30min` is the length of the region's `current_price`
  list (`aemonem.py` line 156). Nothing caps it at six 5-minute periods.
- The summary loop (line 154) visits only regions that have a
  `current_price` entry. A requested region whose `current_price` list is
  empty (no in-window actual record in any call so far) therefore gets no
  new entry in `current_30min_forecast`. A region whose list was filled by
  an earlier call, even in an earlier window, is summarised again from that
  list, and an earlier summary entry stays in place until it is
  overwritten.
- A missing forecast region (line 159), actual region (line 161) or region
  summary (lines 178-179) raises `KeyError`. So does a missing `actual` key
  (line 145) or `current_price` key (line 154). The first such error leaves
  the call, and the regions summarised before it stay written.
- The summary dict (lines 169-183) has no interconnector-flow field.
  `INTERCONNECTORFLOWS` is parsed only into the region-summary dict
  (line 216).
- The results dict is a field of the instance and is never cleared (it is
  assigned only at line 29), so repeated calls, in the same window or later
  ones, append to the same lists. Records of earlier windows keep counting
  in `periods_of_current_30min`, the average and the estimate (see
  "## Findings").

## Model

| member | source | states |
|---|---|---|
| WindowClock.Current30MinWindow | src/aemonemdata/utils.py:6-22 | the window contains the instant (`start <= now < end`), lasts 30 minutes, and starts on minute 0 or 30 with zero seconds and microseconds |
| WindowClock.BranchesCoverAllMinutes | src/aemonemdata/utils.py:9-20 | the `minute < 30` / `minute >= 30` branches always assign the start, and the start is the instant rounded down to a whole half hour |
| WindowClock.WindowStable | src/aemonemdata/utils.py:9-21 | every instant inside a window yields that same window |
| WindowClockDuplicate.Current30MinWindow | src/aemo_nem_data/utils.py:4-11 | the duplicate's window contains the instant, lasts 30 minutes, and starts on minute 0 or 30 with zero seconds and microseconds |
| WindowClockDuplicate.BranchesCoverAllMinutes | src/aemo_nem_data/utils.py:6-9 | the duplicate's two branches always assign the start, which is the instant rounded down to a half hour |
| WindowClockDuplicate.AgreesWithPrimary | src/aemo_nem_data/utils.py:4-11 | both packages return the same `(start, end)` for every instant |
| Api.ApiResponse | src/aemonemdata/aemonem.py:279-294 | status other than 200 gives `ClientError` with the status; an unparsable body gives `ClientError`; an `error` code in `AUTH_ERROR_CODES` gives `AuthError` carrying that code, and only then; otherwise the body comes back unchanged, exactly when status is 200, the body parsed and it has no `error` key |
| Api.UnknownCodeIsClientError | src/aemonemdata/aemonem.py:288-293 | an `error` code outside `AUTH_ERROR_CODES` is a `ClientError` carrying that code |
| Constants.Lower | src/aemonemdata/aemonem.py:45 | `lower()` keeps the length and lower-cases each character in place |
| Constants.LookupRegion | src/aemonemdata/constants.py:17-23 | `REGIONS[code.lower()]` succeeds exactly when the lower-cased code is a key, and then yields the identifier `REGIONS` maps that key to; otherwise it raises `KeyError` naming the lower-cased code |
| Constants.LowerIdempotent | src/aemonemdata/aemonem.py:45 | lower-casing twice is lower-casing once |
| Constants.LookupIgnoresCase | src/aemonemdata/aemonem.py:45 | a code and its lower-cased form resolve identically |
| Records.PricePerKw | src/aemonemdata/aemonem.py:64 | the price per kW times 1000 is the price per MW |
| Records.Normalize | src/aemonemdata/aemonem.py:63-70 | the derived period start plus the lead is the settlement time, the price per kW times 1000 is the RRP, and the feed fields are kept |
| Records.Clean | src/aemonemdata/aemonem.py:106-117 | a cumulative entry is cleaned exactly when A is 1 or 0; A = 1 gives an actual record, and the record keeps DT, R, P and CP and its type's period start |
| Feeds.ActualsOf | src/aemonemdata/aemonem.py:61-70 | the ACTUAL records `get_data` keeps are no more than the feed's entries, and each is the normalised form, with a 5-minute lead, of an ACTUAL entry of the region asked for |
| Feeds.ForecastsOf | src/aemonemdata/aemonem.py:61-73 | the FORECAST records kept are no more than the feed's entries, and each is the normalised form, with a 30-minute lead, of a FORECAST entry of the region asked for |
| Feeds.ActualsOfKeepsAll | src/aemonemdata/aemonem.py:61-70 | every ACTUAL entry of the region asked for is kept, normalised with a 5-minute lead |
| Feeds.ForecastsOfKeepsAll | src/aemonemdata/aemonem.py:61-73 | every FORECAST entry of the region asked for is kept, normalised with a 30-minute lead |
| Feeds.ActualsOfConcat | src/aemonemdata/aemonem.py:61-70 | the ACTUAL records of a feed read in two parts are those of the first part followed by those of the second, so the feed order is kept |
| Feeds.ForecastsOfConcat | src/aemonemdata/aemonem.py:61-73 | the FORECAST records keep the feed order in the same way |
| Feeds.FirstForecast | src/aemonemdata/aemonem.py:71-73 | the `_first_forecast` flag lets a record through exactly when the region has a FORECAST entry |
| Feeds.FullRecords | src/aemonemdata/aemonem.py:85-91 | `_get_data_full` keeps one record per entry, in order, and the record at each position is that entry normalised with a 5-minute lead: REGIONID, SETTLEMENTDATE, RRP and PERIODTYPE kept, SPOTPRICEPERKW the RRP over 1000, PERIODSTARTDATE five minutes before settlement |
| Feeds.SelectedRecordsNormalised | src/aemonemdata/aemonem.py:61-70 | `get_data` keeps only the region asked for: ACTUAL records start 5 minutes and FORECAST records 30 minutes before settlement |
| Feeds.FirstForecastIsFirst | src/aemonemdata/aemonem.py:71-73 | the `_first_forecast` flag lets through the first of the region's forecasts, and nothing when there is none |
| Feeds.FullFeedLeadIsFiveMinutes | src/aemonemdata/aemonem.py:85-91 | `_get_data_full` keeps every record and gives each, forecasts included, a start 5 minutes before settlement |
| Feeds.TagFilesUnderOwnKeys | src/aemonemdata/aemonem.py:88-94 | every record is filed under its own PERIODTYPE and REGIONID |
| Feeds.CleanedPrefix | src/aemonemdata/aemonem.py:105-117 | the records cleaned before the loop stops are the cleaned prefix of the feed, and the loop stops only at an entry whose A is neither 1 nor 0 |
| Feeds.FiledBucket | src/aemonemdata/aemonem.py:118-122 | each `[type][region]` list grows by exactly the cleaned records of that type and region, in arrival order |
| Feeds.LatestActuals | src/aemonemdata/aemonem.py:130-135 | each region of the actual records maps to a record with the greatest settlement time (the first such, as `max` returns) |
| Feeds.LimitsAfterExtraction | src/aemonemdata/aemonem.py:196-202 | a limit key is stored exactly when it is one of the three named keys carried by an entry (or was stored before), and it holds the value of the last such entry |
| Feeds.ResolveRegions | src/aemonemdata/aemonem.py:42-45 | a resolved list has one region per code, each a value of `REGIONS`; a failure is a `KeyError` |
| Feeds.ResolveRegionsSpec | src/aemonemdata/aemonem.py:42-45 | codes resolve exactly when all are known, in order and one for one; otherwise the `KeyError` names the first unknown code, lower-cased |
| Feeds.ResolveStaysFailed | src/aemonemdata/aemonem.py:44-45 | once a prefix of the codes fails, the whole list fails with that same error |
| Dicts.Append | src/aemonemdata/aemonem.py:118-122 | appending creates the missing levels, adds the item to the end of its own list, and leaves every other list and level unchanged |
| Dicts.PresentIffNonEmpty | src/aemonemdata/aemonem.py:118-122 | a `[type][region]` key path exists exactly when its list holds an item |
| Dicts.BucketAfterAppendAll | src/aemonemdata/aemonem.py:118-122 | appending never replaces: every list grows by the items addressed to it, in order |
| Dicts.KindsAfterAppendAll | src/aemonemdata/aemonem.py:118-119 | a first-level key exists afterwards exactly when it existed before or some item was addressed to it |
| Dicts.StoreAllKeepsLast | src/aemonemdata/aemonem.py:214-217 | after `d[key] = v` for each pair, a key holds the value of its last pair, or what it had |
| CurrentPrice.InWindow | src/aemonemdata/aemonem.py:147-148 | the filter keeps no more records than it is given, and only records it was given |
| CurrentPrice.InWindowInside | src/aemonemdata/aemonem.py:148 | every kept record starts inside `[start, end)` |
| CurrentPrice.InWindowKeepsAllInside | src/aemonemdata/aemonem.py:147-148 | no record starting inside the window is dropped |
| CurrentPrice.InWindowConcat | src/aemonemdata/aemonem.py:147-153 | filtering distributes over concatenated record lists |
| CurrentPrice.Add | src/aemonemdata/aemonem.py:149-153 | appending extends only the list of its region and creates the key only when something is appended |
| CurrentPrice.Gathered | src/aemonemdata/aemonem.py:145-153 | after the filter every list is its old contents plus the in-window actual records of a requested region, and a key exists exactly when that list is non-empty |
| CurrentPrice.GatheredRegion | src/aemonemdata/aemonem.py:145-153 | a requested region's list gets its in-window actual records appended |
| CurrentPrice.CallAppendsStoredAndNew | src/aemonemdata/aemonem.py:141-153 | one call appends, to a requested region's list, the in-window records already stored on the instance and those of the new feed |
| CurrentPrice.RepeatedCallTriplesCount | src/aemonemdata/aemonem.py:145-156 | two calls in one window with the same feed leave each in-window record three times in the list |
| CurrentPrice.RepeatedCallCountsEighteen | src/aemonemdata/aemonem.py:156 | six in-window records then count as eighteen periods |
| CurrentPrice.FreshWindowRecords | src/aemonemdata/aemonem.py:145-156 | the corrected count's records are exactly the actual records of the region in the current feed that start inside the window |
| CurrentPrice.FreshWindowAtMostSix | src/aemonemdata/aemonem.py:156 | counted once per call, records with distinct 5-minute period starts number at most six per window |
| Aggregation.SumPrices | src/aemonemdata/aemonem.py:157 | `sum` of no prices is 0, and the sum is what left-to-right accumulation reaches: the last price added to the sum of those before it |
| Aggregation.SumPricesConcat | src/aemonemdata/aemonem.py:149-157 | the sum over a list built in two parts is the sum of the two parts' sums |
| Aggregation.EarliestIndex | src/aemonemdata/aemonem.py:159 | `min(..., key=SETTLEMENTDATE)` returns a record with no later settlement time than any other |
| Aggregation.EarliestIndexIsEarliest | src/aemonemdata/aemonem.py:159 | `min(..., key=SETTLEMENTDATE)` picks the first record with the least settlement time |
| Aggregation.LatestIndex | src/aemonemdata/aemonem.py:161 | `max(..., key=SETTLEMENTDATE)` returns a record with no earlier settlement time than any other |
| Aggregation.LatestIndexIsLatest | src/aemonemdata/aemonem.py:161 | `max(..., key=SETTLEMENTDATE)` picks the first record with the greatest settlement time |
| Aggregation.RoundHalfEven | src/aemonemdata/aemonem.py:161 | `round(x, 0)` is within one half of `x` |
| Aggregation.LatestCumulative | src/aemonemdata/aemonem.py:161 | the current cumulative price is the rounded CUMULATIVEPRICE of the record `max` picks, the first one with the greatest settlement time |
| Aggregation.RoundHalfEvenNearest | src/aemonemdata/aemonem.py:161 | `round(x, 0)` is a nearest integer, and the even one on a tie |
| Aggregation.Average | src/aemonemdata/aemonem.py:158 | the average times the record count is the summed price |
| Aggregation.Estimate | src/aemonemdata/aemonem.py:160 | six times the estimate is the summed price plus the forecast for each of the `6 - count` periods counted as missing |
| Aggregation.Percent | src/aemonemdata/aemonem.py:174 | the percentage times the threshold is a hundred times the cumulative price |
| Aggregation.EstimateBetweenAverageAndForecast | src/aemonemdata/aemonem.py:160 | with one to six periods counted, the estimate lies between the average and the forecast |
| Aggregation.EstimateAtTheEnds | src/aemonemdata/aemonem.py:160 | with six periods the estimate is the average; with none it is the forecast |
| Aggregation.EstimateOverfull | src/aemonemdata/aemonem.py:160 | for every sum and forecast, past six periods the forecast gets negative weight: a forecast above the average puts the estimate below the average, a forecast below it puts the estimate above it, and an equal one leaves it at the average |
| Aggregation.ForecastPoints | src/aemonemdata/aemonem.py:166-168 | one point per forecast record, with its start, its end and its price per kW |
| Aggregation.BuildSummary | src/aemonemdata/aemonem.py:156-183 | `periods_of_current_30min` is the number of in-window records |
| Aggregation.BuildSummaryFields | src/aemonemdata/aemonem.py:156-183 | the summary holds: the average and estimate of the in-window prices; the earliest forecast's price; the rounded cumulative price of the latest actual record and its percentage of the threshold; the three limits; the two flags, true exactly when the field is 1; one forecast point per forecast record |
| Aggregation.SummarizeRegion | src/aemonemdata/aemonem.py:155-184 | a region is summarised exactly when every lookup succeeds; a missing "forecast" key or forecast region raises its `KeyError`; a `ZeroDivisionError` means a zero threshold |
| Aggregation.SummarizeRegionRaises | src/aemonemdata/aemonem.py:159-178 | once the earlier lookups succeeded, a missing `actual` key raises `KeyError("actual")`, a missing actual region or region summary the region's `KeyError`, a missing limit name that name's `KeyError`; a `ZeroDivisionError` is raised exactly when the threshold is found and is zero; no other exception is raised |
| Aggregation.SummarizedAdd | src/aemonemdata/aemonem.py:184 | storing one more region's summary keeps "each summarised region holds its summary, every other entry untouched" |
| Aggregation.Raised | src/aemonemdata/aemonem.py:159-179 | a failing lookup means not every requested region summarises, the error is that region's, and the dict holds only old entries, line-165 placeholders and correct summaries |
| Aggregation.Finished | src/aemonemdata/aemonem.py:154-184 | a loop that visited every region without raising has summarised exactly the requested regions with records |
| AemoNem.LatestLoop | src/aemonemdata/aemonem.py:130-135 | the loop's dict is the latest actual record of every region |
| AemoNem.SummaryStep | src/aemonemdata/aemonem.py:155-184 | one pass skips an unrequested region, stores a requested region's summary, or raises that region's error leaving only allowed entries |
| AemoNem.SummaryLoop | src/aemonemdata/aemonem.py:154-184 | the loop passes exactly when every requested region with records summarises, and then the dict is the old one with each such summary stored; otherwise the error is one of those regions' and the dict holds only allowed entries |
| AemoNem.AemoNemData.constructor | src/aemonemdata/aemonem.py:24-38 | every dict and list starts empty and the cap is not cached |
| AemoNem.AemoNemData.GetData | src/aemonemdata/aemonem.py:50-74 | the region is recorded; a failed reply raises and changes no list; otherwise the region's ACTUAL and FORECAST records are appended to the two lists and the first FORECAST record becomes `_aemo_data_now` |
| AemoNem.AemoNemData.SelectEntry | src/aemonemdata/aemonem.py:62-73 | one 5MIN entry of the region is appended to the list of its type, and a first forecast becomes `_aemo_data_now` |
| AemoNem.AemoNemData.GetDataFull | src/aemonemdata/aemonem.py:76-95 | a failed reply raises and changes nothing; otherwise every record is appended to the actual list and filed under its type and region |
| AemoNem.AemoNemData.GetCurrentCumulativePrice | src/aemonemdata/aemonem.py:97-124 | a failed reply raises and changes nothing; otherwise the cleaned prefix is appended to the cumulative dict, and an entry whose A is neither 1 nor 0 raises `KeyError("PERIODTYPE")` |
| AemoNem.AemoNemData.GetCurrentCumulPrice | src/aemonemdata/aemonem.py:126-136 | after a clean ingest the dict is replaced by the latest actual record of each region; with no actual records it raises `KeyError("actual")` |
| AemoNem.AemoNemData.KeepLatest | src/aemonemdata/aemonem.py:129-136 | the dict is emptied, then holds the latest actual record of each region, or the loop raises `KeyError("actual")` |
| AemoNem.AemoNemData.GetMktLimitCap | src/aemonemdata/aemonem.py:188-203 | a failed reply raises and changes nothing; otherwise each of the three named limits is stored in order, a later entry overwriting an earlier one |
| AemoNem.AemoNemData.GetMktLimit | src/aemonemdata/aemonem.py:205-217 | a failed reply raises and changes nothing; otherwise each region summary is stored under its REGIONID |
| AemoNem.AemoNemData.FilterRegion | src/aemonemdata/aemonem.py:147-153 | a requested region's in-window records are appended to its `current_price` list |
| AemoNem.AemoNemData.VisitRegion | src/aemonemdata/aemonem.py:145-153 | only a requested region gets its in-window records appended |
| AemoNem.AemoNemData.FilterCurrentWindow | src/aemonemdata/aemonem.py:145-153 | after the filter loop, `current_price` is `Gathered` from its old value |
| AemoNem.AemoNemData.SummarizeRegions | src/aemonemdata/aemonem.py:154-184 | the summary loop on the instance, with the pass/fail outcome of SummaryLoop |
| AemoNem.FetchStopsAtFirstError | src/aemonemdata/aemonem.py:141-144 | the fetches made are a non-empty prefix of the plan (cumulative prices, the limits while not cached, region summaries); every fetch but the last passed; the outcome is the last fetch's; and the fetches pass exactly when every request of the plan would pass, in which case all of them were made |
| AemoNem.ResolveCodes | src/aemonemdata/aemonem.py:42-45 | the loop over the codes gives the result of `ResolveRegions`: the regions in order, or the `KeyError` of the first unknown code |
| AemoNem.AemoNemData.FetchWindowInputs | src/aemonemdata/aemonem.py:141-144 | the outcome and the requests made are those of the fetch plan, stopping at the first error; on every path the cumulative dict, the cap flag, the limits and the region summaries are stated: a failed cumulative fetch leaves the last three unchanged, a failed limits fetch leaves the summaries unchanged, and the cache is set exactly when the limits were fetched successfully |
| AemoNem.AemoNemData.FetchLimitsAndSummaries | src/aemonemdata/aemonem.py:142-144 | the limits fetch (skipped while cached), then the region-summary fetch; a failed limits fetch stops before the summaries and leaves them unchanged; otherwise the outcome is the summary reply's, and the new limits, cap flag and summaries are stated |
| AemoNem.AemoNemData.FetchLimitsUnlessCached | src/aemonemdata/aemonem.py:142-143 | while not cached the limits are fetched; the cache is set exactly when that fetch passed, and the limits map takes the fetched values; a cached call changes nothing |
| AemoNem.AemoNemData.ComputeWindow | src/aemonemdata/aemonem.py:145-184 | a missing "actual" key raises `KeyError("actual")` and changes nothing; otherwise `current_price` becomes `Gathered` from its old value, and if it is then empty the loop raises `KeyError("current_price")` leaving the summaries unchanged; otherwise the call passes exactly when every requested region with records summarises, and on failure the error names one such region's failing lookup |
| AemoNem.AemoNemData.Get30MinPrice | src/aemonemdata/aemonem.py:138-185 | the fetch phase's outcome, requests and field changes are those of `FetchWindowInputs`; a failing fetch leaves `current_price` and the summaries unchanged; a passing one is followed by `ComputeWindow` on the current window, with that method's contract |
| AemoNem.AemoNemData.WindowCallPass | src/aemonemdata/aemonem.py:138-185 | a call that passes made every request of the plan, stored the fetched limits and region summaries, gathered the window's records and summarised every requested region |
| AemoNem.AemoNemData.WindowCallKeepsPartialEffects | src/aemonemdata/aemonem.py:118-153 | even when the call raises later, a cumulative reply that was accepted has been appended to the cumulative dict, and once every fetch passed and the `actual` key exists, the window's in-window actual records were appended to `current_price` |
| AemoNem.AemoNemData.GetAemoData | src/aemonemdata/aemonem.py:40-47 | with no state nothing happens and nothing is fetched; an unknown code raises the `KeyError` of the first unknown code before any fetch and changes nothing; otherwise the resolved regions go to `_get_current_30min_price`, with its contract |

## Left out

- HTTP, the client session, timeouts and `async` scheduling are not modelled. A fetch is the reply it returned, given as a parameter.
- JSON decoding is not modelled: records arrive decoded. `json.loads` of `INTERCONNECTORFLOWS` (line 216) is left out, and `NemSummary` keeps only REGIONID and the two flags, the columns the aggregation reads.
- ISO timestamp parsing is not modelled. Instants are integers, and the feeds' +10:00 offset is already applied.
- Datetime range errors (years outside 1–9999) are left out because integers are unbounded.
- A body without its top-level list key (`response['5MIN']` and similar) would raise a `KeyError` in the source. This is not modelled: a reply's payload is that list.
- Type errors from malformed feed values are not modelled.
- The market-notice and summary-prices loops (lines 218-223) are left out. The aggregation does not read them.
- The sort at line 132 is left out. It rebinds a list inside the dict that was just detached from the instance, so it has no effect.
- Records.Normalize: the price per kW is `RRP / 1000` without the rounding to 4 places, because floating-point rounding is not modelled.
- Aggregation.BuildSummary: the average, forecast, estimate and percentage are unrounded. `round(..., 4)` and `round(..., 2)` are floating-point and not modelled. `round(x, 0)` followed by `int` is exact half-to-even rounding (`RoundHalfEven`).
- Aggregation.BuildSummary: its own contract states only the period count. The other fields are stated by `BuildSummaryFields`.
- Constants.Lower: only the ASCII letters are lower-cased. Python's `str.lower` also folds other Unicode letters, and no region code contains any.
- AemoNem.SummaryLoop: when a region raises, the contract does not fix which other regions were already summarised. Python visits dict keys in insertion order, and the model picks them in any order. The contract only bounds what the dict may then hold (old entries, placeholders, correct summaries).
- AemoNem.LatestLoop: builds the new "current" dict in a local map and stores it once. Python fills the new dict in place, and the two are observably the same.
- `_mkt_cap` is the same dict object as `_ameo_mkt_limits` once set. It is modelled as the flag `mktCapCached` plus the one `mktLimits` map.
- AemoNem.AemoNemData.GetAemoData: requires and ensures only the validity of the fields the window computation touches (`ValidWindow`), not of the whole instance. The lists that `get_data` and `_get_data_full` fill are outside its `modifies` clause, so they keep their validity unchanged.
- AemoNem.AemoNemData.Get30MinPrice: the same as `GetAemoData`: it requires and ensures `ValidWindow` only.
- `get_aemo_data` returns the results dict. In the model the results are the `currentPrice` and `forecastSummaries` fields, and the method returns only whether an exception was raised.

## Findings

| source | as written | input that shows it | evidently intended | confidence | as-written member | corrected member |
|---|---|---|---|---|---|---|
| src/aemonemdata/aemonem.py:145-156 | the cumulative dict (lines 118-122) and the `current_price` lists (lines 149-153) both persist on the instance and only ever grow, so every later `get_aemo_data` call, in the same window or a later one, keeps counting the records stored by earlier calls; a second call in the same window, with the same feed, counts each in-window record three times | two calls in one window whose cumulative feed holds the same six actual records of a requested region inside the window: `periods_of_current_30min` becomes 18, and the estimate `(sum + forecast * (6 - 18)) / 6` weights the forecast negatively | the count is the in-window records of the current feed only, so at most six 5-minute periods per window | not executed | CurrentPrice.RepeatedCallCountsEighteen | CurrentPrice.FreshWindowAtMostSix |

The class methods keep the behaviour as written, since they model the code.
`Aggregation.EstimateOverfull` proves, for every sum and forecast, what an
overfull count does to the estimate. `CurrentPrice.FreshWindowRecords` is
the corrected count, taken once per call, and `FreshWindowAtMostSix` proves
its bound.
