# Smart Airline Market Analyser — a verified model of its data core

The Smart Airline Market Analyser is a dashboard about airline demand. It fetches
flights from two aviation sources and builds one flight table from them:

- the OpenSky Network, which returns live aircraft state vectors;
- AviationStack, which returns flight schedules.

It then reduces that table to frequency tables, key metrics and a text analysis, with
a language model when one is configured and a fixed fallback otherwise. It shows an
overview and a filterable data table, and a set-up script checks the environment file
for API keys.

This project models that core in Dafny and proves what it promises.

- `data_fetcher.dfy` (module `DataFetcher`) covers the fetchers:
  - the request each fetch sends and the country bounding boxes;
  - decoding the state vectors, short ones padded to 17 slots, or objects read as records by column name;
  - position cleaning: coordinates, airborne, trimmed callsigns, unit conversions, latest contact first;
  - flattening the nested schedule items: the path each field reads, the `''`/`0` defaults and the JSON-null failure;
  - schedule cleaning;
  - the synthetic timestamps of the 7- and 30-day windows.
- `ai_analyzer.dfy` (module `AiAnalyzer`) covers the analyser:
  - route keys, the data summary (top-10 tables and the hourly histogram) and the key metrics;
  - the fallback analysis;
  - which result keys appear when a model client is present.
- `counts.dfy` (module `Counting`) covers `value_counts()`: the exact counts, the descending order and the top-n cut.
- `utils.dfy` (module `Utils`) covers the utilities:
  - the five-minute memo cache, as a class over two maps;
  - the order-free cache key;
  - country codes, `safe_divide`, number suffixes and time-window bounds;
  - de-duplication with a timestamp sort, and the table returned as it came when de-duplication raises.
- `app.dfy` (module `App`) covers the dashboard logic:
  - the session object and its update rule after a fetch;
  - the origin/destination filters and the row cap;
  - the overview metrics, including the peak hour and average speed;
  - the chunking of key metrics into rows of four.
- `setup.dfy` (module `Setup`) covers the environment-file key check.
- `tables.dfy`, `seqs.dfy`, `text.dfy`, `json.dfy` and `wrappers.dfy` hold the shared pieces:
  - the table rows and columns;
  - sequence filters and sorting;
  - string helpers;
  - the parsed-JSON value;
  - `Option`.

The program reaches the outside world in several places. The model makes each of them
a parameter:

- the HTTP exchange (`request -> Response`, where `Response` is a transport failure or a
  parsed JSON object);
- the clock (`now`, in seconds);
- the random offsets (`sample: nat -> nat`, one draw per row);
- the date parser (`string -> Option<int>`);
- the language-model client (`(Topic, Summary) -> Reply`, where a reply is an answer or
  a raised error);
- the one-decimal number renderer (`real -> string`).

A missing value (NaN, None, NaT) is `None`. A table is `Blank` (no columns), a list of
position rows, or a list of schedule rows.

## Model

| member | source | states |
|---|---|---|
| DataFetcher.CountryBBox | data_fetcher.py:229-289 | a box exactly for the nine listed countries, each with south < north and west < east; none for any other name |
| DataFetcher.OpenSkyRequestFor | data_fetcher.py:37-52 | the states query carries no parameters exactly when the country has no box; otherwise lamin/lomin/lamax/lomax are the box's south/west/north/east; timeout 30 |
| DataFetcher.FlightsRequestFor | data_fetcher.py:107-124 | no request at all when the API key is empty; otherwise the key, limit 100, offset 0, and the departure-airport filter exactly for Australia |
| DataFetcher.StatesTable | data_fetcher.py:61-68 | the states list becomes one row per state, in order: for a list of arrays, each padded with nulls, exactly when every array has at most 17 slots and the widest has 17; for a list of objects, each read as a record by column name; any other list fails |
| DataFetcher.RecordSlots | data_fetcher.py:62-68 | a record's 17 slots hold the values under the 17 column names, null for an absent key |
| DataFetcher.RecordCoordinates | data_fetcher.py:62-68 | a record row's callsign, longitude and latitude come from the keys of those names |
| DataFetcher.Padded | data_fetcher.py:68 | a short tuple keeps its slots and gets null in every slot it lacks, up to 17 |
| DataFetcher.CleanOpenSky | data_fetcher.py:180-200 | the output is a permutation of the cleaned kept rows, ordered by last contact non-increasing (missing last) |
| DataFetcher.CleanOpenSkyRows | data_fetcher.py:184-195 | every output row comes from a kept input row; it has both coordinates, on_ground exactly false, a present callsign that is trimmed and not '', altitude_ft = baro_altitude × 3.28084 and speed_mph = velocity × 2.237 |
| DataFetcher.CleanedPositionShape | data_fetcher.py:184-195 | cleaning one kept row gives coordinates, on_ground false, a trimmed non-empty callsign and the two unit conversions |
| Text.Strip | data_fetcher.py:190 | `str.strip()`: the result is a slice of the input with only whitespace before and after it, and it neither starts nor ends with whitespace |
| Text.StripIdempotent | data_fetcher.py:190 | a trimmed callsign is unchanged by trimming again |
| DataFetcher.MissingCallsignKept | data_fetcher.py:190-191 | a located, airborne row with a missing callsign survives the `!= ''` filter |
| DataFetcher.Offset | data_fetcher.py:82-88 | the random offset lies in [-window, 0) |
| DataFetcher.WindowStamp | data_fetcher.py:81-89 | a synthetic time lies in [now - window, now) |
| DataFetcher.StampPositions | data_fetcher.py:74-90 | only the timestamp changes; it is last_contact for "Last 24 Hours" and any other label, and lies in [now - 604800, now) or [now - 2592000, now) for the 7- and 30-day windows |
| DataFetcher.FetchOpenSkyOutcome | data_fetcher.py:21-99 | failure exactly on a transport failure or a malformed states list; the column-less table exactly when no states come back; otherwise every row is cleaned, converted and stamped by the window rule |
| DataFetcher.NestedObject | data_fetcher.py:136-148 | an absent nested object reads as an empty one; a nested object that is JSON null makes the item fail |
| DataFetcher.FlattenItem | data_fetcher.py:135-149 | an item flattens exactly when it is an object whose five nested objects are absent or objects; each field then reads its own path (flight.number, airline.name, airline.iata, departure.iata, departure.airport, arrival.iata, arrival.airport, departure.scheduled, arrival.scheduled, top-level flight_status, aircraft.registration, departure.delay, arrival.delay): '' (0 for the delays) when the path is absent, the string (integer) found there, missing for JSON null |
| DataFetcher.FlattenItemDefaults | data_fetcher.py:136-148 | an empty item flattens to '' for every text field and 0 for both delays |
| DataFetcher.FlattenAll | data_fetcher.py:133-150 | one flat record per item, in input order, or failure when any item fails |
| DataFetcher.FlattenFlights | data_fetcher.py:133-150 | the flattening loop returns exactly the records that `FlattenAll` specifies |
| DataFetcher.ScheduleRowOf | data_fetcher.py:213-218 | a cleaned schedule row's timestamp equals its departure time |
| DataFetcher.CleanAviationStack | data_fetcher.py:206-223 | the output is a permutation of the rows with a non-'' flight number, with parsed times, ordered by departure time non-increasing, unparsed times last |
| DataFetcher.CleanAviationStackRows | data_fetcher.py:210-221 | exactly the rows numbered '' are removed (the output length is the input length minus their count); every output row has timestamp = departure_time |
| DataFetcher.CountBlankNumbers | data_fetcher.py:210 | the flight-number filter drops exactly as many rows as are numbered '' |
| DataFetcher.StampSchedules | data_fetcher.py:157-169 | for the 7- and 30-day windows each row gets a time in [now - window, now), copied into departure_time; other labels and the empty table leave the rows unchanged; nothing else changes |
| DataFetcher.FetchAviationStack | data_fetcher.py:101-178 | the fetch, with its flattening loop, returns exactly the result that `AviationStackResult` specifies |
| DataFetcher.AviationStackOutcomes | data_fetcher.py:107-178 | no key gives no result; an empty or absent data list gives the column-less table; a JSON-null nested object fails the whole fetch |
| AiAnalyzer.RouteKey | ai_analyzer.py:90 | the key is the origin, then " → ", then the destination, at exactly those positions |
| AiAnalyzer.RouteOf | ai_analyzer.py:90 | a route exists exactly when both ends are present |
| AiAnalyzer.RouteColumn | ai_analyzer.py:89-90 | one route per row, pairing that row's origin and destination |
| AiAnalyzer.RouteKeyInjective | ai_analyzer.py:90 | two routes with equal keys have equal ends, when no origin contains '→' |
| AiAnalyzer.RouteKeyCollision | ai_analyzer.py:90 | without that condition different routes can share a key |
| AiAnalyzer.HourCounts | ai_analyzer.py:105-108 | entries strictly ascending by hour; each count is that hour's exact count and positive; every occurring hour is listed |
| AiAnalyzer.HourlyProperties | ai_analyzer.py:105-108 | the hourly distribution lists exactly the occurring hours 0–23, ascending, and its counts sum to the number of present timestamps |
| AiAnalyzer.HourCountsSum | ai_analyzer.py:107 | the counts from hour h on sum to the number of times at hour h or later |
| AiAnalyzer.PrepareDataSummary | ai_analyzer.py:77-110 | total_flights is the row count; each top table and the hourly distribution is present exactly when its columns exist |
| AiAnalyzer.SummaryTables | ai_analyzer.py:89-108 | each present top table has at most 10 entries, non-increasing counts, exact occurrence counts and distinct values, and holds the most frequent values: a value left out means 10 entries each counted at least as often |
| AiAnalyzer.TopTable | ai_analyzer.py:91-101 | `value_counts().head(n)` is a frequency table of at most n exact counts in non-increasing order; an occurring value left out means n entries each counted at least as often |
| AiAnalyzer.NUnique | ai_analyzer.py:299 | `nunique()` is the number of distinct present values |
| AiAnalyzer.RoutePairs | ai_analyzer.py:302 | one (origin, destination) pair per row, in order |
| AiAnalyzer.UniqueRoutes | ai_analyzer.py:301-302 | the number of distinct (origin, destination) pairs, at most the row count |
| AiAnalyzer.DateRangeDays | ai_analyzer.py:308-310 | at least 1; exactly 1 when no time is present or the span is under a day; otherwise the whole days between the first and last time |
| AiAnalyzer.ExtractKeyMetrics | ai_analyzer.py:290-312 | Total Flights is the row count; each other metric is present exactly when its columns exist; Countries and Airlines are distinct counts, Unique Routes the distinct pairs, Date Range (Days) equals `DateRangeDays` of the times |
| AiAnalyzer.RouteLines | ai_analyzer.py:327 | one `• route: n flights` line per listed route, in order |
| AiAnalyzer.BasicRouteTextLines | ai_analyzer.py:324-327 | the fallback route text lists at most 5 routes with exact counts, non-increasing, and they are the most frequent ones |
| AiAnalyzer.BasicAnalysis | ai_analyzer.py:318-345 | popular_routes exactly when requested and both route columns exist; demand_patterns exactly when requested; recommendations and key_metrics always; nothing for peak hours or aircraft types |
| AiAnalyzer.GenerateBasicAnalysis | ai_analyzer.py:318-345 | builds the results key by key, equal to `BasicAnalysis` |
| AiAnalyzer.ReplyText | ai_analyzer.py:204-212 | the model's non-empty text, the fixed fallback for an empty answer, or the error prefix followed by the error message |
| AiAnalyzer.PeakHoursWithoutData | ai_analyzer.py:185-188 | with no hourly distribution the peak-hours text is the fixed message, whatever the client would answer |
| AiAnalyzer.ClientAnalysis | ai_analyzer.py:43-71 | each requested kind yields exactly its key; market_trends, recommendations and key_metrics are always present |
| AiAnalyzer.AnalyzeFlightData | ai_analyzer.py:29-71 | the fallback analysis without a client, the client analysis with one |
| Counting.Occurrences | ai_analyzer.py:91 | pairs each key with its exact number of occurrences |
| Counting.ValueCounts | ai_analyzer.py:91 | a permutation of the distinct values with their counts, ordered by count non-increasing |
| Counting.ValueCountsExact | ai_analyzer.py:91 | every entry's count is exact, the values are distinct, and every occurring value is listed |
| Counting.TopCountsProperties | ai_analyzer.py:91-101 | at most n entries, counts non-increasing, exact and positive, distinct values; a value left out means n entries each counted at least as often |
| Counting.CrowdedOut | ai_analyzer.py:91 | an occurring value missing from the top n is outnumbered by all n listed values |
| Utils.SortByName | utils.py:30 | `sorted(kwargs.items())` is a permutation ordered by name |
| Utils.SortedUnique | utils.py:30 | two name-sorted lists with the same distinct-named entries are equal |
| Utils.CacheKeyOrderFree | utils.py:30 | the cache key does not depend on the order in which keyword arguments are passed |
| Utils.TtlCache.constructor | utils.py:25-26 | both maps start empty |
| Utils.TtlCache.Call | utils.py:28-42 | a result stored less than 300 s ago is returned and neither map changes; otherwise the function is called once and its result and the time are stored under the key, other keys unchanged |
| Utils.GetCountryCode | utils.py:46-65 | the listed code for the 15 names, "XX" exactly for any other name |
| Utils.SafeDivide | utils.py:79-86 | the default when the denominator is 0; otherwise the quotient (q × d = n) |
| Utils.FormatLargeNumber | utils.py:88-98 | below 1000 the plain decimal; from 1000 to 999 999 ends in K; from 1 000 000 ends in M; the prefix is the scaled number rendered to one decimal |
| Utils.SmallNumberRoundTrip | utils.py:96 | below 1000 the text reads back as the same number |
| Utils.TimeRangeDates | utils.py:100-113 | the end is now; the span is 24 h, 7 d or 30 d for the three labels and 1 d for any other label |
| Utils.DedupSort | utils.py:153-171 | no duplicate rows, the same set of rows, ordered by timestamp non-increasing |
| Utils.CleanFlightData | utils.py:147-177 | an empty table unchanged; a position table with a list or object in its sensors cell unchanged (de-duplication raises and the input is returned); otherwise rows without duplicates, the same rows as a set, latest timestamp first |
| Tables.SourceColumns | data_fetcher.py:61-74 | which columns each kind of table has: route and airline columns only on schedules, country, callsign and velocity only on positions, timestamp on both |
| Tables.MinStamp | ai_analyzer.py:309 | `min()` skipping missing times: none exactly when no time is present, otherwise a present time no later than any other |
| Tables.MaxStamp | ai_analyzer.py:309 | `max()` skipping missing times: none exactly when no time is present, otherwise a present time no earlier than any other |
| Tables.SpanDays | app.py:441 | the whole days from the earliest to the latest present time, none when no time is present |
| Tables.HourOf | ai_analyzer.py:106 | the hour of day is in 0..23 and contains the time of day |
| Tables.Hours | ai_analyzer.py:106 | one hour in 0..23 per present timestamp, in order, each the hour of that timestamp |
| App.Session.constructor | app.py:31-34 | no stored table and no stored analysis |
| App.Session.FetchAndAnalyze | app.py:357-396 | the stored table is replaced only by a present, non-empty fetch result; the stored analysis only after such a fetch with analysis enabled, by the analysis of the new table; otherwise both keep their values |
| App.Session.FilterForDisplay | app.py:301-345 | a table is shown exactly when one is stored; it is the stored table through the non-empty filters, cut to the row cap |
| App.WithOrigins | app.py:335-336 | exactly the rows whose origin is selected, each as often as before, in the original order |
| App.WithDestinations | app.py:337-338 | exactly the rows whose destination is selected, each as often as before, in the original order |
| App.Head | app.py:342 | the first min(n, rows) rows of the table, of the same kind |
| App.DisplayedRows | app.py:334-342 | the shown rows are an order-preserving subsequence of the stored table, at most the row cap; a position table is only cut |
| App.SelectRowsSubsequence | app.py:334-338 | the filtered rows keep the stored order |
| App.SelectRowsExact | app.py:334-338 | exactly the rows passing every non-empty filter remain, with multiplicity; every remaining row passes them |
| App.PeakFrom | app.py:449 | the earliest hour with the largest count among the hours from `from` to 23 |
| App.PeakHour | app.py:449 | 0 with no times; otherwise an occurring hour in 0..23 with the largest count, the smallest such hour |
| App.PeakHourAsWritten | app.py:449 | fails exactly when the table has rows but no present time; otherwise agrees with the corrected peak hour |
| App.PeakHourOfUntimedTable | app.py:449 | a one-row table with an unparsed time makes the written expression fail; the corrected peak hour is 0 |
| App.AverageSpeedMph | app.py:453-454 | 0 when no velocity is present |
| App.AverageSpeedBounds | app.py:454 | the average speed lies between the slowest and the fastest present velocity, × 2.237 |
| App.SecondTile | app.py:413-419 | with an origin column, "Unique Origins" is the number of distinct present origins; without one, "Active Aircraft" is the number of distinct callsigns |
| App.ThirdTile | app.py:421-427 | with a destination column, "Unique Destinations" is the number of distinct present destinations; without one, "Countries" is the number of distinct origin countries |
| App.FourthTile | app.py:429-434 | "Airlines" is the number of distinct airlines; without that column, "Data Points" is the row count |
| App.PerDay | app.py:445 | the per-day average times the day count gives the row count |
| App.TimeTilesOf | app.py:437-455 | the date range is the span in days; average daily flights is rows / max(1, days); the peak hour is `PeakHour` and in 0..23; a speed tile exactly when a velocity column exists, holding `AverageSpeedMph` |
| App.DataOverview | app.py:398-455 | nothing for an empty table; otherwise the row count, the second, third and fourth tiles as `SecondTile`, `ThirdTile` and `FourthTile` state them, and a second row of tiles, as `TimeTilesOf` states it, exactly when a timestamp column exists |
| App.MetricItems | app.py:595 | Total Flights first, at most five items, names strictly in insertion order (Total Flights, Countries, Unique Routes, Airlines, Date Range (Days)) |
| App.MetricItemsExact | app.py:595 | each optional metric is listed, with its value, exactly when it was computed |
| App.ChunkMetrics | app.py:595-608 | the rows concatenate to the items in order; one row for four items or fewer; otherwise rows of one to four items, all but the last of four |
| Setup.MissingKeysExact | setup.py:37-42 | exactly the keys whose content has `KEY=your_` or lacks `KEY=` are reported, in the required order |
| Setup.NoneMissing | setup.py:44-51 | nothing is reported exactly when every key is configured |
| Setup.CheckEnvFile | setup.py:27-51 | false without a file; otherwise the loop collects exactly the missing keys in order, and the answer is true exactly when none is missing |
| Setup.PlaceholderReported | setup.py:41 | content that starts with the Gemini placeholder reports that key first |

## Left out

- HTTP, timeouts, `raise_for_status` and JSON decoding are not modelled. The model takes the parsed payload as input and a transport error as a failure value. A top-level payload that is not a JSON object is not modelled.
- Any pandas error raised while building a table from a malformed states list becomes a failure (`None`): a list of arrays with one wider than 17 or none as wide as 17. A states list that mixes arrays, objects or scalars, which pandas may read in other ways, is a failure in the model. A leaf of an unexpected JSON kind (for example a number where a callsign is expected) reads as missing.
- The exception paths inside `_clean_opensky_data` and `_clean_aviationstack_data` are not modelled, because there the result depends on where pandas raised.
- The fallback at ai_analyzer.py:73-75 is not modelled. It is reached only when the summary or metrics raise, which the model does not represent. Likewise the `{'error': ...}` result of the basic analysis (ai_analyzer.py:347-348) and the `Total Records` fallback of the metrics (ai_analyzer.py:314-316) are not modelled.
- Random draws are modelled at one-second granularity (`sample(k) % window` seconds before `now`), not as continuous uniforms.
- The clock is modelled as read once per cache call; the source reads it twice.
- The unused `start_time` (data_fetcher.py:28-34) is not modelled. Nor are the stub `get_cached_data` or the unused `airport_code` argument (accepted, not used).
- `AiAnalyzer.PrepareDataSummary`: does not state the `date_range` start and end. The model conflates a missing timestamp column with all times missing (`None` in both cases), and the source's `isoformat` text is not modelled.
- The language-model prompts, model names and client construction are not modelled; each call is an opaque function whose reply is a text, an empty answer or a raised error.
- The analyser adds `route` and `hour` columns to the caller's frame (ai_analyzer.py:90, 106, 325). That write-back is not modelled, since no modelled consumer reads those columns.
- Number rendering is injected as a parameter: the `.1f` text in `format_large_number`, the average-daily text and `format_currency`/`format_percentage`.
- `Utils.FormatLargeNumber`: states only the suffix and the renderer's input, not the digits of the rendering.
- The error message `clean_flight_data` shows when de-duplication raises (utils.py:175-176) is not modelled; the returned table is.
- `clean_flight_data`'s per-dtype pass (utils.py:157-167) is not modelled: it strips strings, maps 'nan' to '' and coerces numbers. Because de-duplication runs before that pass, the source can still return rows that became equal after stripping. The model's output has no duplicates.
- `Utils.CleanFlightData`: states that the output has the same rows as a set, not a multiset, because duplicates are removed.
- `value_counts()` and the two sorts order ties arbitrarily. The model promises only the ordering by key and the permutation, not a tie order.
- `App.AverageSpeedMph`: its own contract states only the no-data case; its range is stated by `App.AverageSpeedBounds`.
- On a table whose times are all missing, the date range renders as "nan days" and the average-daily value still divides by 1. The model gives the date range as `None` there.
- Streamlit rendering is not modelled: widgets, charts, messages, CSS, `st.rerun`, CSV export, `@st.cache_data` and `cached_api_call`.
- `validate_api_keys`, `display_api_status`, `get_system_info` and `handle_api_error` are not modelled. Nor are the `install_dependencies` subprocess calls and the `streamlit_app.py` entry point.
- Fetch exceptions in `fetch_and_analyze_data` (app.py:394-396) are modelled as the fetchers' failure result. The fetchers catch their own errors and return `None`, so the session keeps its values.
- Without a client, the analysis has no peak-hours or aircraft-types entry even when requested (ai_analyzer.py:40-41, 318-345).

## Findings

| source | as written | input that shows it | evidently intended | confidence | as-written member | corrected member |
|---|---|---|---|---|---|---|
| app.py:449 | the empty test is on the hour column, which has one (missing) entry per row; `mode()` drops missing values, so with rows but no present time it is empty and `.iloc[0]` raises IndexError | a non-empty table whose every timestamp is missing, e.g. one schedule row whose departure time did not parse | show hour 0 when no time is present, as the guard intends | not executed | App.PeakHourAsWritten, App.PeakHourOfUntimedTable | App.PeakHour |
