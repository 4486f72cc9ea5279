# GraphServices: OpenTSDB query construction, in Dafny

This project models the core of the Aardvark dashboard's `GraphServices` service
(`static-content/GraphServices.js`) and proves properties of that model. The service
turns a graph's configuration into OpenTSDB HTTP API requests. Its parts are:

- **Query strings.** `tsdb_queryStringInternal` and its two wrappers build
  `start=…&end=…` (or a cache-busting `&ignore=<n>` that bumps the service's
  `imageRenderCount`), followed by one `&m=` fragment per metric. A fragment holds
  the aggregator, downsampling, rate options, the metric name, a group-by tag block and
  a filter tag block. Errors and warnings go to the render context, keyed by graph id.
- **Time windows.** The main and baseline `start`/`end` strings, the instants behind
  them, `periodToDiff` and `baselineOffset`.
- **Export URLs.**
  - `tsdbGraphUrl` handles axis annotations and axis validation, y/y2 parameters,
    the key and the flags.
  - `formEncode` replaces spaces.
  - There is a parse/print pair for dygraph axis ranges `"[lo:hi]"`.
- **Fan-out.**
  - `perform_queries` splits the metrics into sets that never repeat a metric name.
  - It builds one `/api/query` request per set (and per set again for the baseline
    window), with the fixed suffix flags.
  - It tags every returned series with the metric it answers.
  - It runs a small state machine over the responses, which calls `processJson` once,
    after the last success, and never after an error.
- **Series names.** `timeSeriesName` gives the display name of a returned series, both
  for legacy tag maps and for echoed filters.

Modules, following the structure of the service:

| file | module | contents |
|---|---|---|
| `base.dfy` | `Base` | `Option` (JavaScript `null`/`undefined`), `Completion` (a value or a thrown exception), `Join`/`Split`/`IndexOf`/`Filter` as the JavaScript built-ins, the `RenderContext` class with its three maps |
| `numbers.dfy` | `Numbers` | `String(n)` for integers, `parseInt` |
| `time_window.dfy` | `TimeWindow` | the dashboard's global time settings, the moment.js calendar as a parameter, durations, the window strings and instants |
| `query_string.dfy` | `QueryString` | metrics, tags, `tsdb_rateString`, tag blocks, metric fragments, the query-string builder as the function `Build` |
| `export_url.dfy` | `ExportUrl` | `formEncode`, axis ranges, axis validation, the tail of the export URL |
| `planner.dfy` | `Planner` | the partition of metrics, the URL suffix, merging responses, the response state machine (class `QueryRun`) |
| `services.dfy` | `Services` | class `GraphServices` with the `imageRenderCount` field and the stateful methods: the query-string builder, the export URL, the URL construction, `perform_queries` |
| `series_name.dfy` | `SeriesName` | `timeSeriesName`, JavaScript's default string order and sort |

How state is modelled:

- Each stateful operation is a method on a class with the source's fields.
  `GraphServices.imageRenderCount` is a field. The render context is an object with
  three `map` fields. The closure state of `perform_queries` is the class `QueryRun`.
- Each method is proved against a pure function of its inputs and old state: `Build`,
  `Plan`, `Partition`, `Merge`, `SeriesNameOf` and so on. The lemmas state the
  properties of those functions.

Two behaviours that look surprising are kept as written:

- With the forced axis `x1y2`, a metric with no axis of its own is annotated `x1y2` but
  counts as using the left axis (`ForcedRightAxisCountsAsLeft`).
- The baseline wrapper drops its `noIgnore` argument and never allows the auto-reload
  end. Neither shows: every recognised datum style gives the baseline an end string, so
  a baseline query that gets past validation always writes that explicit `&end=`, never
  `&ignore=`, and never moves the counter (`BaselineIgnoresAutoReload`).

## Model

| member | source | states |
|---|---|---|
| QueryString.RateString | static-content/GraphServices.js:99-116 | the token starts with `rate` and is exactly `rate` iff `rateCounter` is off |
| QueryString.RateStringRoundTrip | static-content/GraphServices.js:99-116 | for a max without a comma, reading the token back recovers the counter flag, the max and the reset, so the `,,` for an absent max keeps the token unambiguous |
| QueryString.RateStringExamples | static-content/GraphServices.js:99-116 | for a counter rate, max `5` and no reset give `rate{counter,5}`, neither gives `rate{counter}`, reset `r` alone gives `rate{counter,,r}` |
| QueryString.RateStringOf | static-content/GraphServices.js:99-116 | the accumulating loop computes `RateString` |
| QueryString.GroupByLoop | static-content/GraphServices.js:317-327 | the first tag loop writes `{` + the group-by tags joined by `,` and leaves `sep` at `,` exactly when it wrote one |
| QueryString.FilterLoop | static-content/GraphServices.js:328-346 | the second tag loop writes the filter tags after the opener it was given, `sep` tracking whether one was written |
| QueryString.TagBlocksOf | static-content/GraphServices.js:317-347 | both tag loops together compute `TagBlocks` |
| QueryString.TagBlocksShape | static-content/GraphServices.js:317-347 | no braces iff there is no group-by tag and (filters are unsupported or there is no filter tag); only filter tags give `{}{filters}`; with group-by tags the text starts with `{group-by}` |
| QueryString.BlocksDisjoint | static-content/GraphServices.js:320-339 | a tag is in the group-by block iff its value is non-empty and `groupBy` is null or true; in the filter block iff its value is not `""`, `*`, `wildcard(*)` and `groupBy` is explicitly false; never in both |
| QueryString.TagListRoundTrip | static-content/GraphServices.js:317-327 | splitting a written tag list at `,` and `=` gives back the (name, value) pairs in list order, for tags free of those characters |
| QueryString.LegacyTagsAreGroupBy | static-content/GraphServices.js:320 | tags without a `groupBy` flag are written exactly as if the flag were true |
| QueryString.FragmentIsJoinOfFields | static-content/GraphServices.js:299-316 | a metric fragment is its fields joined by `:`: aggregator, optional downsample, optional rate, then the name with tag blocks and per-line text |
| QueryString.FragmentFieldOrder | static-content/GraphServices.js:295-351 | splitting the fragment at `:` gives back exactly that field list, so the order and precedence of the fields is fixed (override, global, per-metric downsample) |
| QueryString.MetricFragmentOf | static-content/GraphServices.js:297-351 | one iteration of the metric loop writes `MetricFragment` and warns iff `rateCounter` is set without `rate` |
| QueryString.AnyRateCounterIgnoredIff | static-content/GraphServices.js:309-315 | the warning flag after the loop is set iff some metric has `rateCounter` without `rate` |
| QueryString.Build | static-content/GraphServices.js:266-357 | reference definition; its properties are stated in `BuildValidation`, `BuildStart`, `BuildCounter`, `BuildWarning`, `FragmentIsJoinOfFields` and `IgnoreTokensDiffer` |
| QueryString.BuildValidation | static-content/GraphServices.js:268-275 | `No start date specified` iff `from` is null or empty (checked first); else `No metrics specified` iff the list is empty; an error iff the result is `""`; an error leaves the counter and the warnings alone |
| QueryString.BuildStart | static-content/GraphServices.js:278-280 | a valid query starts with `start=` + from |
| QueryString.BuildCounter | static-content/GraphServices.js:280-292 | the counter rises by 1 exactly on the `ignore` path (valid input, no auto-reload override, no `to`, `noIgnore` unset) and by nothing otherwise; auto-reload gives `&end=<now>`, a `to` gives `&end=<to>` |
| QueryString.IgnoreTokensDiffer | static-content/GraphServices.js:289-290 | two consecutive `ignore` tokens differ |
| QueryString.BuildWarning | static-content/GraphServices.js:309-315 | the rate-counter warning is written iff the input is valid and some metric has `rateCounter` without `rate` |
| Services.GraphServices.QueryStringInternal | static-content/GraphServices.js:266-357 | the returned string, the new `imageRenderCount` and the new error and warning maps are those of `Build`; messages are untouched |
| Services.GraphServices.WriteEnd | static-content/GraphServices.js:280-292 | the end/ignore parameter and the new counter are `EndParameter` of the old counter |
| Services.GraphServices.QueryString | static-content/GraphServices.js:260-264 | the main wrapper builds from the global window, with the auto-reload override allowed and `noIgnore` passed through |
| Services.GraphServices.QueryStringForBaseline | static-content/GraphServices.js:254-258 | the baseline wrapper builds from the baseline window with no auto-reload override, or propagates the exception (a null match) of a malformed period; an unknown datum style throws nothing here but gives undefined window strings |
| Services.MainArgs | static-content/GraphServices.js:260-264 | the main wrapper's `from`/`to` are the main window strings and it allows the auto-reload override |
| Services.BaselineArgs | static-content/GraphServices.js:254-258 | the baseline wrapper throws iff a baseline window string throws; else it uses those strings and never the override |
| Services.BaselineWithUnknownStyle | static-content/GraphServices.js:181-258 | with an unrecognised datum style both baseline strings are undefined, so the builder reports a missing start date |
| Services.BaselineIgnoresAutoReload | static-content/GraphServices.js:218-292 | a baseline query never changes `imageRenderCount`: with a start date its end string is defined, so with metrics it writes `&end=<baseline end>`, never the auto-reload `&end=<now>` nor `&ignore=`; an unrecognised style has no start date and stops at validation |
| TimeWindow.FromTimestampAsTsdbString | static-content/GraphServices.js:118-130 | reference definition; its properties are stated in `MainWindowAgrees` |
| TimeWindow.ToTimestampAsTsdbString | static-content/GraphServices.js:132-143 | reference definition; its properties are stated in `MainWindowAgrees` |
| TimeWindow.FromTimestampAsMoment | static-content/GraphServices.js:145-164 | reference definition; its properties are stated in `MainWindowAgrees` and `MainDurationIsWindowLength` |
| TimeWindow.ToTimestampAsMoment | static-content/GraphServices.js:166-179 | reference definition; its properties are stated in `MainWindowAgrees` and `MainDurationIsWindowLength` |
| TimeWindow.BaselineOffset | static-content/GraphServices.js:77-96 | reference definition; its properties are stated in `BaselineIsShiftedMainWindow` and `UnrecognizedStyle` |
| TimeWindow.BaselineFromTimestampAsTsdbString | static-content/GraphServices.js:181-216 | reference definition; its properties are stated in `BaselineIsShiftedMainWindow` and `UnrecognizedStyle` |
| TimeWindow.BaselineToTimestampAsTsdbString | static-content/GraphServices.js:218-252 | reference definition; its properties are stated in `BaselineIsShiftedMainWindow` and `UnrecognizedStyle` |
| TimeWindow.PeriodToDiff | static-content/GraphServices.js:66-75 | throws (null match) iff the period does not start with a digit or does not end with a letter; otherwise the duration of the leading number of the trailing unit |
| TimeWindow.PeriodThrowsIff | static-content/GraphServices.js:66-75 | the throwing condition of `periodToDiff`, and that the empty period throws |
| TimeWindow.MainWindowAgrees | static-content/GraphServices.js:118-179 | the string and instant forms of the main window agree: absolute ends parse to the instants, a missing end is `now`, a relative window reads `<period>-ago`, throws iff its period does, and starts at `now` less that period on the calendar |
| TimeWindow.LinearDuration | static-content/GraphServices.js:70 | where unit arithmetic is linear, adding or subtracting a duration moves an instant by the duration's length |
| TimeWindow.BaselineIsShiftedMainWindow | static-content/GraphServices.js:77-96 | when both baseline strings are defined, each end a style anchors (the start for `from`, the end for `to`, both for `relative`) parses to the main window's end moved back by `baselineOffset`, truncated to the second; the other end of `from`/`to` does so too when the main window is absolute or unit arithmetic is linear, and the baseline window is then as long as the main one within a second |
| TimeWindow.MainDurationIsWindowLength | static-content/GraphServices.js:189-199 | the duration used by the `from`/`to` styles, subtracted from the main end, gives the main start; it is the distance between the instants for an absolute window and the relative period otherwise; its length is the window's wherever unit arithmetic is linear |
| TimeWindow.UnrecognizedStyle | static-content/GraphServices.js:78-94 | an unrecognised style makes both baseline strings undefined and `baselineOffset` throw, and only such a style does |
| ExportUrl.FormEncode | static-content/GraphServices.js:58-64 | reference definition; its properties are stated in `FormEncodeReplacesEverySpace` and `FormEncodeIdempotent` |
| ExportUrl.AxisRange | static-content/GraphServices.js:11-40 | reference definition; its properties are stated in `AxisRangeWarnsIff` and `AxisRangeRoundTrip` |
| ExportUrl.FormEncodeReplacesEverySpace | static-content/GraphServices.js:58-64 | the recursive replace-first loop replaces every space by `+` and changes nothing else |
| ExportUrl.FormEncodeIdempotent | static-content/GraphServices.js:58-64 | the result has no space and encoding twice is encoding once |
| ExportUrl.ParseDygraphAxisRange | static-content/GraphServices.js:11-40 | the returned bounds are `AxisRange`'s and a warning is written iff the range is invalid; errors and messages are untouched |
| ExportUrl.AxisRangeWarnsIff | static-content/GraphServices.js:13-38 | the warning is written iff the string is non-empty and has no `:` |
| ExportUrl.DygraphAxisRangeToString | static-content/GraphServices.js:42-56 | the printed range is bracketed |
| ExportUrl.AxisRangeRoundTrip | static-content/GraphServices.js:11-56 | parsing a printed `[lo:hi]` gives back both bounds without a warning, for numbers, absent bounds and NaN alike |
| ExportUrl.CheckAxes | static-content/GraphServices.js:381-394 | the axis loop is valid iff `AxisSides` is defined, and then reports its left/right usage |
| ExportUrl.AxisSidesIff | static-content/GraphServices.js:383-394 | the axes are invalid iff some metric passes neither test (left: own axis null or `x1y1`, or forced `x1y1`; right: own axis `x1y2` or forced `x1y2`); the left axis is used iff some metric passes the left test, the right iff some metric passes only the right one |
| ExportUrl.AxisSidesInvalidPrefix | static-content/GraphServices.js:390-393 | one invalid metric makes the whole URL undefined, whatever follows it |
| ExportUrl.ForcedRightAxisCountsAsLeft | static-content/GraphServices.js:366-388 | forcing `x1y2` on a metric with no axis annotates it `x1y2` but counts it as using the left axis |
| ExportUrl.GraphUrl | static-content/GraphServices.js:359-463 | reference definition; its properties are stated in `AxisSidesInvalidPrefix`, `SquashNegativeRange`, `KeyTextEncoded`, `GraphUrlExistsIff`, `GraphUrlStart` and `GraphUrlPrefix` |
| ExportUrl.SquashNegativeRange | static-content/GraphServices.js:403-408 | without an explicit range, `squashNegative` writes `&<p>range=[0:]` after the optional label and format and before the log flag |
| ExportUrl.KeyTextEncoded | static-content/GraphServices.js:432-447 | the key position is form-encoded, so it carries no space |
| Services.GraphServices.TsdbGraphUrl | static-content/GraphServices.js:359-463 | the export URL is `GraphUrl` of the main query (annotated with the axis of each metric, `noIgnore` = not `addIgnore`) and undefined with the error written when the axes are invalid |
| Services.GraphUrlExistsIff | static-content/GraphServices.js:375-393 | the export URL is defined iff the query string was built without error and every metric passes one of the two axis tests |
| Services.GraphUrlStart | static-content/GraphServices.js:360-379 | a defined export URL starts with the base URL, the path (`/#` by default) and the query string |
| Services.GraphUrlPrefix | static-content/GraphServices.js:364-379 | a defined export URL begins with `base + path` followed by any prefix of the query string |
| Planner.Names | static-content/GraphServices.js:554-562 | the key order of `metricIndexes` has no repeated name |
| Planner.NamesMembers | static-content/GraphServices.js:554-562 | a name is a key iff some metric has it |
| Planner.OccurrencesComplete | static-content/GraphServices.js:556-560 | every metric's index is listed under its name, in ascending order |
| Planner.MaxCountIsLargestMultiplicity | static-content/GraphServices.js:555-561 | `maxCount` bounds every name's multiplicity and some name reaches it |
| Planner.RankIsPosition | static-content/GraphServices.js:565-571 | metric j is the i-th occurrence of its name iff i is the number of earlier metrics with that name |
| Planner.ColumnMembers | static-content/GraphServices.js:565-576 | set i holds metric j iff j is the i-th occurrence of its name |
| Planner.Partition | static-content/GraphServices.js:554-579 | reference definition (one set per possible rank); its properties are stated in `PartitionProperties`, `PartitionSetsNonEmpty`, `ColumnMembers` and `PartitionExample` |
| Planner.PartitionProperties | static-content/GraphServices.js:554-579 | the number of sets is the largest multiplicity; every metric is in exactly the set numbered by its rank; no set repeats a name |
| Planner.PartitionSetsNonEmpty | static-content/GraphServices.js:565-579 | no set is empty |
| Planner.PartitionExample | static-content/GraphServices.js:554-579 | `[a1, a2, b]` with `a1`, `a2` sharing a name splits into `[[a1, b], [a2]]` (first-appearance order within a set) |
| Planner.DictsMatchSets | static-content/GraphServices.js:566-577 | the i-th dictionary maps each name of the i-th set to exactly that set's metric, and has no other key |
| Planner.IndexMetrics | static-content/GraphServices.js:554-562 | the first loop builds the names, `metricIndexes` and `maxCount` of the specification |
| Planner.SetOf | static-content/GraphServices.js:566-576 | the inner loop builds the i-th dictionary and array |
| Planner.SeparateMetrics | static-content/GraphServices.js:554-579 | the arrays are `Partition(metrics)` and the dictionaries are the matching `Dicts(metrics)` |
| Planner.UrlSuffixIsJoin | static-content/GraphServices.js:588-603 | the suffix is `&` + its parameters joined by `&` |
| Planner.UrlSuffixParams | static-content/GraphServices.js:588-603 | the suffix starts with `&` and splits into: `show_tsuids` (then `global_annotations` when global) when annotations are supported and asked for, else `no_annotations`; then `ms`; `arrays` when required; `show_query` |
| Planner.Merge | static-content/GraphServices.js:623-636 | reference definition; its properties are stated in `MergeKeepsSeries`, `MergePosition` and `MergeTagsMatchNames` |
| Planner.MergeKeepsSeries | static-content/GraphServices.js:623-636 | merging keeps every series of every response, in order |
| Planner.MergePosition | static-content/GraphServices.js:625-633 | the i-th series of response j lands after the earlier responses' series, tagged with its response's metric of that name |
| Planner.MergeTagsMatchNames | static-content/GraphServices.js:630-631 | a series tagged with a metric carries that metric's name |
| Planner.MergeJsons | static-content/GraphServices.js:623-636 | the nested loops compute `Merge` |
| Planner.Range | static-content/GraphServices.js:684-691 | the ids of the requests issued: exactly 0 … n-1 |
| Planner.QueryRun.constructor | static-content/GraphServices.js:609-621 | the initial state: no response, no error, every request pending, expected baseline count 0 unless there are baseline requests |
| Planner.QueryRun.MainSuccess | static-content/GraphServices.js:639-652 | ignored after an error; otherwise records the response and, on the last outstanding one, merges and calls `processJson` iff the baseline is complete too |
| Planner.QueryRun.BaselineSuccess | static-content/GraphServices.js:662-674 | the same for a baseline response, calling `processJson` iff the main batch is complete |
| Planner.QueryRun.Failure | static-content/GraphServices.js:653-658 | unguarded: every error writes `Error loading data: <arg>` to the messages, sets the error flag and calls `errorResponse` once more |
| Planner.Settled | static-content/GraphServices.js:638-682 | once every request has answered, `processJson` was called at most once, and exactly once iff no request failed and there was at least one set; then with the merged main and (when baselining) baseline series |
| Planner.NotYetProcessed | static-content/GraphServices.js:640-651 | while requests are outstanding or after an error, `processJson` has not been called |
| Services.Plan | static-content/GraphServices.js:581-606 | reference definition; its properties are stated in `PlanShape`, `PlanMainNormal`, `PlanAbruptStays`, `PlanMainRequests`, `PlanMainIgnoreTokens` and `IgnoredRequestsDiffer` |
| Services.PlanShape | static-content/GraphServices.js:581-606 | `constructUrls` yields one request per set, carrying that set's dictionary |
| Services.PlanMainNormal | static-content/GraphServices.js:260-264 | building the main requests never throws |
| Services.PlanAbruptStays | static-content/GraphServices.js:581-606 | an exception in one set's query string ends the construction with that exception |
| Services.SetArgsThrowUniformly | static-content/GraphServices.js:254-258 | whether the baseline query string throws does not depend on the metrics, so either the first set throws or none does |
| Services.PlanMainRequests | static-content/GraphServices.js:581-606 | over non-empty sets with a start date, no main query records an error and the i-th request is `base/api/query?` + the query of set i built on counter `count + i` (or `count` when no ignore token is written) + the suffix |
| Services.PlanMainIgnoreTokens | static-content/GraphServices.js:286-290 | when the ignore token is written, the i-th request carries `ignore=count+i+1` |
| Services.IgnoredRequestsDiffer | static-content/GraphServices.js:581-606 | when the ignore token is written, two different requests of one `constructUrls` call have different URLs |
| Services.MainRequestsOfMetrics | static-content/GraphServices.js:552-606 | with a non-empty start date, the main requests of the actual partition of any metric list satisfy `PlanMainRequests` |
| Services.ErrorsAfterTwice | static-content/GraphServices.js:268-274 | a later error overwrites an earlier one for the same graph |
| Services.WarningsAfterTwice | static-content/GraphServices.js:314 | the warning is present after two queries iff either wrote it |
| Services.GraphServices.ConstructUrls | static-content/GraphServices.js:552-606 | the requests, the counter and the render maps are those of `Plan` over the partition (or the first exception) |
| Services.GraphServices.PerformQueries | static-content/GraphServices.js:550-692 | builds the main requests (never throwing), the baseline requests only when baselining is on and supported (propagating their exception), and a fresh run with all requests pending, the expected counts and the counter/maps of both plans |
| SeriesName.LeTotal | static-content/GraphServices.js:510 | the order `sort()` uses is total |
| SeriesName.LeAntisymmetric | static-content/GraphServices.js:510 | and antisymmetric |
| SeriesName.LeTransitive | static-content/GraphServices.js:510 | and transitive |
| SeriesName.Sort | static-content/GraphServices.js:510 | sorting permutes the names |
| SeriesName.SortSorted | static-content/GraphServices.js:510 | sorting yields ascending order |
| SeriesName.SortedUnique | static-content/GraphServices.js:510 | two ascending permutations of the same names are equal, so any correct sort agrees with this one |
| SeriesName.SortIdempotent | static-content/GraphServices.js:510-513 | the second `sort()` changes nothing |
| SeriesName.CollectTagNames | static-content/GraphServices.js:504-509 | the legacy loop collects every tag key once |
| SeriesName.LegacyOrderIrrelevant | static-content/GraphServices.js:504-510 | whatever order the keys are visited in, the sorted names are the same |
| SeriesName.TagkOrder | static-content/GraphServices.js:473-481 | the keys of `filtersByTagk` in first-appearance order: no repeats, exactly the tag keys some filter names |
| SeriesName.GroupFilters | static-content/GraphServices.js:473-479 | the first filter loop buckets the filters by tag key, in order, keys in first-appearance order |
| SeriesName.TagkSummary | static-content/GraphServices.js:482-492 | the per-key loop reports whether any filter groups and writes `tagk=type(filter)` entries joined by `,` |
| SeriesName.SummarizeFilters | static-content/GraphServices.js:481-500 | the key loop yields the grouped keys as tag names and the other keys' texts, joined by `,`, as the ungrouped string |
| SeriesName.AnyGroupByIff | static-content/GraphServices.js:486-489 | a key's `groupBy` flag is set iff some filter on it has `group_by` |
| SeriesName.GroupedTagksIff | static-content/GraphServices.js:493-499 | a key becomes a tag name iff some filter on it groups |
| SeriesName.UngroupedNonEmptyIff | static-content/GraphServices.js:493-497 | the ungrouped string is non-empty iff some filtered key has no grouping filter |
| SeriesName.WritePairs | static-content/GraphServices.js:515-519 | the final loop appends the `name=value` pairs joined by `,` (a missing tag reads `undefined`) |
| SeriesName.WriteName | static-content/GraphServices.js:511-524 | braces are written iff there is a tag name or an ungrouped string; the second pair only for an ungrouped string |
| SeriesName.SeriesNameOf | static-content/GraphServices.js:465-526 | reference definition; its properties are stated in `TagNamesOfSeries`, `PlainNameIff`, `LegacyName`, `OnlyUngroupedShape`, `FilterExample` and `LegacyExample` |
| SeriesName.TimeSeriesName | static-content/GraphServices.js:465-526 | the method returns `SeriesNameOf(series)` |
| SeriesName.TagNamesOfSeries | static-content/GraphServices.js:469-510 | the shown tag names are ascending; legacy mode shows exactly the series' tag keys, filter mode exactly the keys some filter groups on, and a query without filters none |
| SeriesName.PlainNameIff | static-content/GraphServices.js:511-525 | the bare metric name comes back iff there is no tag name and no ungrouped string; always so for a query without filters |
| SeriesName.LegacyName | static-content/GraphServices.js:504-519 | in legacy mode the name is bare iff the series has no tags, and every shown value is the series' own |
| SeriesName.OnlyUngroupedShape | static-content/GraphServices.js:511-523 | only ungrouped filters give `metric{}{…}`, the empty first block kept |
| SeriesName.FilterExample | static-content/GraphServices.js:465-526 | a grouping wildcard on `host` plus a `dc` filter and a second `host` filter give `cpu{host=web01}{dc=literal_or(lon)}` |
| SeriesName.LegacyExample | static-content/GraphServices.js:504-519 | tags stored as region, host print as `cpu{host=web01,region=eu}` |

## Left out

- HTTP and credentials (`$http.get`, `withCredentials`, lines 639 and 662) are not modelled. A request is an id in a pending set. Its answer is a call of `MainSuccess`, `BaselineSuccess` or `Failure`, and the environment is assumed to answer each request exactly once, on one thread.
- moment.js parsing, formatting and unit arithmetic (`add`/`subtract` of `n` units) are parameters of the model. They form a `Calendar` record of functions, and instants are integer milliseconds. A duration is either a number of milliseconds (from `diff`) or `n` units of a period, so months, quarters and years keep their calendar-aware lengths.
- BaselineIsShiftedMainWindow: it assumes `RoundTrips` (formatting then parsing gives back the instant truncated to the second) and `ParsesWholeSeconds` (every parsed instant is a whole second), as hypotheses on the calendar. Dates outside the four-digit-year format and invalid dates, which break them, are not modelled. Its equalities hold up to that truncation, not to the millisecond: the format `YYYY/MM/DD HH:mm:ss` drops milliseconds.
- BaselineIsShiftedMainWindow: the non-anchored end of the `from` and `to` styles, and equal window lengths, are promised only for an absolute main window or under `Linear` (the unit has a fixed length). With calendar units they can fail. For example, the window "1y" ending 2024-02-29 spans 366 days, while the same year measured from a 2023 anchor spans 365.
- MainDurationIsWindowLength: the main duration's length in milliseconds equals the window's only under `Linear`. For a relative window in months or years the model promises only that subtracting the period from the end gives the start.
- The wall clock (`moment.utc()` when no datum is given, lines 146, 167 and 282) is the parameter `now`, read once per call. Every read within one call of Services.GraphServices.PerformQueries, Services.GraphServices.ConstructUrls or Services.GraphServices.TsdbGraphUrl, and so within Services.PlanMainRequests and TimeWindow.BaselineIsShiftedMainWindow, sees that same instant. The source reads the clock afresh at each of those lines: once per window function (each baseline string calls them on its own, lines 190-191, 208, 223-224 and 244) and once per set for the auto-reload end (`constructUrls` builds one query string per set, line 586). Across a second boundary its sets can therefore carry different `&end=` seconds, and the two ends of a relative baseline can come from two different readings; the model does not capture that.
- `dygraph_render` and `dygraph_setAnnotations` (lines 528-548) are left out: they are DOM and charting-library calls.
- `$tsdbClient.versionNumber >= TSDB_2_2` is the boolean `filtersSupported`.
- `for … in` is assumed to visit keys in insertion order (lines 568 and 481). JavaScript visits integer-like keys first, in numeric order; that ordering is not modelled.
- Lookups such as `metricsByMetric[metric]` and `filtersByTagk[tagk]` are treated as own-property lookups. Inherited `Object.prototype` names such as `constructor` are not modelled.
- `parseInt` skips leading white space, reads an optional sign and a `0x` prefix, and then reads digits; no digit gives NaN. Number precision and exponent notation are not modelled. The `try`/`catch` at lines 18-30 is dead because `parseInt` does not throw, and the model has no exception path there.
- SeriesName.Le: `sort()` compares UTF-16 code units, and the model compares Unicode scalar values. The two orders differ only when a character outside the Basic Multilingual Plane is compared with one in U+E000–U+FFFF.
- SeriesName.TimeSeriesName: there are two deviations from the source.
  - The in-place `tagNames.sort()` is the library call `Array.prototype.sort`, and the model computes it as the pure function `Sort` on a sequence.
  - In legacy mode the key order of the tag object is left open (a nondeterministic choice), which `LegacyOrderIrrelevant` shows does not matter.
- QueryString.RateString: saved graphs hold `rateCounterMax` and `rateCounterReset` as numbers, and the tests at lines 104 and 110 are the loose `!= ""`, under which a numeric `0` counts as absent (`0 == ""`). The model holds these options as their decimal text, so a max of `0` is the text `"0"` and gives `rate{counter,0}` where the source writes `rate{counter}`. A numeric 0 counting as absent is not modelled.
- Values that are absent but read as text (`label`, `format`, `range`, `style`, a missing tag value concatenated as `undefined`) are `Option` values or the literal `"undefined"` where the source concatenates them. A `null` metric list is the empty list.
- Services.BaselineArgs: the baseline wrapper drops its `noIgnore` argument (line 257), and the model passes `false` as the source does. The ignore branch is unreachable for a baseline query anyway, as `BaselineIgnoresAutoReload` states.
- Planner.QueryRun.constructor: the callbacks `processJson` and `errorResponse` are recorded, not called: a `processed` list of the arguments and an `errorCalls` count.
- With no metrics, `perform_queries` issues no request. `processJson` is then never called, and no error is written either, because the builder's `No metrics specified` is reached only through a set. `Settled` states this: processing needs at least one set.
