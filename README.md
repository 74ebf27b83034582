# Cross-encoder benchmark: a verified model of its metrics, batching and configuration logic

The system benchmarks cross-encoder inference servers. A client sends query and document pairs in batches. A server tokenises, batches and scores them on a pool of model instances. Polling dashboards chart the metrics the server records. This project models the deterministic core of that system in Dafny and proves properties of the model.

- **Dashboard transforms.** The stage breakdown bars (`main.js`), the chart label axis, tick thinning, the multi-line transpose and colour cycling (`charts.js` in both dashboards). Also the reference "top three and Other" bucketing of the stage-breakdown tests.
- **History recording.** The parallel history series of both dashboard servers and the dashboard models. The Prometheus range-query timestamps, merging and alignment. The markdown timeseries writer and the parser that reads its files back.
- **Metric trackers.** The stage, padding, latency, throughput, worker and per-instance trackers, the collectors with their frozen snapshots, and the stage timer.
- **Batching and routing.** The length estimates and length-aware sort with its inverse permutation. The scatter of batch scores back to requests in the three batching schedulers and the queue pipeline. The five routers. The model pool and the benchmark client's cyclic batches.
- **Configuration.** The recursive dictionary merge, section parsers and loaders of every configuration flavour. The sweep expansion and sweep names. The typed server configuration with its legacy-model conversion, the client's experiment settings and the Hydra-to-client conversion.

Pure code is modelled as functions and lemmas. Objects whose methods update their fields are classes whose methods are proved against specification functions. Python dictionaries of arbitrary values are a `Value` datatype. Percentages and latencies are `real`s, so "sums to 100" holds exactly. Clocks are `now` parameters. Numpy statistics and model backends are function parameters.

The three `_deep_merge`/`deep_merge` copies (`src/models/config_loader.py:20-28`, `src/server/utils/config_loader.py:18-25`, `ml_inference_server/utils/config_loader.py:7-17`) behave the same way. All three are modelled by `ConfigValue.Merged`.

Where the written code and its surrounding description differ, the model follows the code. Two cases:
- The reference bucketing discards an entry literally named "other" instead of adding it to the remainder.
- The live page (`main.js`) neither ranks nor buckets the stages.

## Model

| member | source | states |
|---|---|---|
| Charts.TickStride | src/frontend/static/js/charts.js:53 | the stride ⌈n/8⌉ is the least c with 8·c ≥ n, and at least 1 for a non-empty axis |
| Charts.TickThinning | src/frontend/static/js/charts.js:50-57 | with 12 or fewer labels every tick shows its label; with more, a tick shows its label exactly when its index is a multiple of ⌈n/8⌉ and is blank otherwise, and at most eight ticks show |
| Charts.Labels | src/frontend/static/js/charts.js:321 | missing timestamps give no labels; otherwise exactly one label per timestamp |
| Charts.LabelReadsBack | src/frontend/static/js/charts.js:321 | every label is the timestamp rounded to a whole second followed by "s", and dropping the "s" reads that number back |
| Charts.DatasetColours | src/frontend/static/js/charts.js:156-161 | one line colour per instance name |
| Charts.ColoursCycle | src/frontend/static/js/charts.js:96-105 | the eight-colour palette is reused cyclically: datasets eight apart share a colour and the first eight differ |
| Charts.InstanceSeries | src/frontend/static/js/charts.js:309-311 | an instance's series has one entry per time point |
| Charts.Transposed | src/frontend/static/js/charts.js:306-312 | the transpose has one series per dataset (instance name), whatever the width of the time points |
| Charts.TransposedAt | src/frontend/static/js/charts.js:309-311 | entry (i, t) is element i of time point t when present, and 0 when the time point is null or shorter than i+1; every series has one entry per time point |
| Charts.TransposeTwice | src/frontend/static/js/charts.js:304-312 | on a full rectangular table the transpose loses nothing: transposing twice gives the table back |
| Charts.Chart.Single | src/frontend/static/js/charts.js:16-30 | a new single chart has no labels and one empty dataset in the given colour |
| Charts.Chart.MultiLine | src/frontend/static/js/charts.js:156-170 | a new multi-line chart has no labels and one empty dataset per instance, coloured cyclically |
| Charts.UpdateChart | src/frontend/static/js/charts.js:291-296 | missing data changes nothing; otherwise labels and the first dataset are replaced wholesale, not appended, and the colours stay |
| Charts.UpdateMultiLineChart | src/frontend/static/js/charts.js:299-315 | a missing chart or missing or empty data changes nothing; otherwise labels are replaced and the datasets become the transpose of the time points, one per existing dataset |
| Charts.ChartData | src/frontend/static/js/charts.js:323-333 | the eleven single charts read eleven history series, and the overhead chart always has data (missing reads as []) |
| Charts.Dashboard.constructor | src/frontend/static/js/charts.js:108-153 | eleven distinct empty single charts and no instance charts |
| Charts.Dashboard.InitInstanceCharts | src/frontend/static/js/charts.js:241-288 | instance charts are shown iff there are more than one instance name; the two multi-line charts are created, blank and coloured one colour per instance, on the first showing call only and kept afterwards |
| Charts.Dashboard.UpdateMainCharts | src/frontend/static/js/charts.js:322-332 | each of the eleven charts with data takes the labels and has its series 0 replaced by that data; charts without data and the instance charts are untouched |
| Charts.Dashboard.UpdateAllCharts | src/frontend/static/js/charts.js:318-344 | a missing history changes nothing; otherwise the label array of the timestamps goes to every chart with data and its series 0 becomes that data; with more than one instance name the instance charts are shown, the utilisation chart takes the timestamps' labels and the transposed utilisation rows when there are any, and the idle chart the transposed idle rows only alongside them |
| DashboardMain.Places | src/frontend/static/js/main.js:26 | never more than two fraction digits, and exactly the requested number when it is at most 2 |
| DashboardMain.FmtReadsBack | src/frontend/static/js/main.js:24-27 | `fmt` text reads back as the value rounded to min(decimals, 2) places, and a non-number shows as 0 |
| DashboardMain.FmtAtMostTwoPlaces | src/frontend/static/js/main.js:24-27 | the text has no point for 0 decimals and otherwise exactly min(decimals, 2) digits after its one point |
| DashboardMain.Fmt | src/frontend/static/js/main.js:24-27 | the text is never empty and starts with a minus sign only for a negative number (see FmtReadsBack and FmtAtMostTwoPlaces) |
| DashboardMain.StagePct | src/frontend/static/js/main.js:118-122 | an absent stage percentage reads as 0, a present one as itself |
| DashboardMain.Percentages | src/frontend/static/js/main.js:115-123 | one percentage per declared component, in the declared order, absent map or key reading as 0 |
| DashboardMain.BreakdownAllZero | src/frontend/static/js/main.js:125-133 | when the percentages sum to exactly 0 every bar is width 0 with text "0", so the widths sum to 0 |
| DashboardMain.BarFor | src/frontend/static/js/main.js:125-139 | a zero total gives width 0 and text "0"; otherwise the width times the total is the percentage times 100 and the text is the percentage to one place |
| DashboardMain.Share | src/frontend/static/js/main.js:136 | the share times the total is the percentage times 100 |
| DashboardMain.Breakdown | src/frontend/static/js/main.js:125-141 | one bar per percentage, each the bar of that percentage against the sum of all |
| DashboardMain.BreakdownFillsBar | src/frontend/static/js/main.js:125-141 | otherwise the widths (pct / total · 100) add up to exactly 100, and each text reads back as the raw, not the normalised, percentage to one place |
| DashboardMain.BreakdownKeepsOrder | src/frontend/static/js/main.js:117-139 | nothing is ranked or bucketed: with a positive total a larger percentage never gets a narrower bar |
| DashboardMain.StageBars.UpdateStageBreakdown | src/frontend/static/js/main.js:114-143 | the five bars become the breakdown of the five percentages, in their declared order |
| DashboardMain.TotalQpsConcat | src/frontend/static/js/main.js:244-250 | the aggregate throughput of two groups of workers is the sum of the two aggregates |
| DashboardMain.TotalQps | src/frontend/static/js/main.js:245-249 | the reduce equals the sum of the per-worker rates, 0 for a worker without a rate |
| DashboardMain.Rates | src/frontend/static/js/main.js:249 | one rate per worker, its `throughput_qps` or 0 |
| DashboardMain.AggregateThroughput | src/frontend/static/js/main.js:244-250 | absent worker stats give 0, present ones the sum of their rates |
| DashboardMain.MissingThroughputIsZero | src/frontend/static/js/main.js:244-250 | a worker without `throughput_qps` adds nothing, and absent worker stats aggregate to 0 |
| DashboardMain.TotalQpsBoundsEach | src/frontend/static/js/main.js:245-249 | with non-negative per-worker rates the aggregate is at least every single worker's rate |
| DashboardMain.TotalQpsNonNegative | src/frontend/static/js/main.js:245-249 | non-negative per-worker rates give a non-negative aggregate |
| StageBuckets.Positive | tests/test_stage_breakdown.py:202-205 | exactly the components with a positive percentage are kept, in list order |
| StageBuckets.InsertRanked | tests/test_stage_breakdown.py:202-206 | inserting a later component into a ranked list keeps it ranked by descending percentage with ties in list order |
| StageBuckets.SortRanked | tests/test_stage_breakdown.py:202-206 | the stable descending sort ranks by percentage, ties in list order |
| StageBuckets.AlreadyRanked | tests/test_stage_breakdown.py:202-206 | a list already in non-increasing order is left unchanged: equal percentages are never swapped |
| StageBuckets.Reduce | tests/test_stage_breakdown.py:202-213 | the top holds min(3, number of positive components) entries and is a prefix of the sorted list; the display total is the top sum plus the folded rest |
| StageBuckets.ReduceRanks | tests/test_stage_breakdown.py:202-209 | the sorted list is a permutation of the positive components, ranked, and every top component ranks before every remaining one |
| StageBuckets.SortedAreThePositives | tests/test_stage_breakdown.py:202-206 | a component is sorted iff it is an input component with a positive percentage |
| StageBuckets.TiesKeepListOrder | tests/test_stage_breakdown.py:202-206 | two components with equal percentage keep their list order |
| StageBuckets.LiteralOtherDiscarded | tests/test_stage_breakdown.py:212 | a literal "other" among the remaining components adds nothing to the folded rest |
| StageBuckets.NamedRestFolded | tests/test_stage_breakdown.py:212 | every other remaining component adds its percentage to the folded rest |
| StageBuckets.DisplayTotalSign | tests/test_stage_breakdown.py:212-216 | the display total is never negative, and positive exactly when some component is positive |
| StageBuckets.DisplayFillsBar | tests/test_stage_breakdown.py:215-220 | with a non-zero display total the top parts and the folded rest, scaled by 100 / total, add up to exactly 100 |
| StageBuckets.OtherNotDoubleCounted | tests/test_stage_breakdown.py:207-213 | four components at x and "other" at y ≤ x fold to x in the rest, not x + y, and display a total of 4x |
| ServerCharts.SeriesOf | ml_inference_server/dashboard/static/js/charts.js:138-144 | the server page's seven charts read seven history series |
| ServerCharts.ServerDashboard.constructor | ml_inference_server/dashboard/static/js/charts.js:93-122 | seven distinct single charts, each with no labels and one empty dataset |
| ServerCharts.ServerDashboard.UpdateAllCharts | ml_inference_server/dashboard/static/js/charts.js:125-145 | a null history changes nothing; otherwise the one label array computed from the timestamps goes to every chart with data, whose data is replaced (not appended), charts without data are untouched, and a complete history leaves every chart with one label per point (the tick callback at lines 50-57 is the main page's, modelled by `Charts.TickThinning`) |
| CollectorSummary.Lookup | src/frontend/server.py:69 | `d.get(key, default)`: the stored value when the key is present, the default otherwise |
| CollectorSummary.PointLatency | src/frontend/server.py:75-77 | a point's latency is the instant latency, else the mean latency, else 0 |
| CollectorSummary.PointOf | src/frontend/server.py:72-89 | the query count is taken unrounded; the latency lies within 0.005 of the point latency and the timestamp within 0.05 of the elapsed time, non-negative for a non-negative one |
| CollectorSummary.PathOnly | src/frontend/server.py:141 | the dispatched path never contains "?", and a path without a query is kept as it is |
| CollectorSummary.QueryIgnored | src/frontend/server.py:141 | appending "?query" to a path does not change the dispatched path |
| CollectorSummary.StaticPrefix | src/frontend/server.py:149-150 | a "/static/" path matches the prefix and `path[8:]` is exactly what follows it |
| FrontendServer.DashboardState.constructor | src/frontend/server.py:41-48 | the first initialisation has an empty history, no collector, last count 0 and the clock started now |
| FrontendServer.DashboardState.SetMetricsCollector | src/frontend/server.py:54-55 | attaches the given collector and changes nothing else |
| FrontendServer.DashboardState.Reset | src/frontend/server.py:57-62 | empties the history, zeroes the last count, restarts the clock, and resets an attached collector: counts zeroed, lists emptied, clocks restarted now |
| FrontendServer.DashboardState.UpdateHistory | src/frontend/server.py:64-92 | without a collector, or unless running with a count strictly above the last one, nothing changes; otherwise all eleven series grow by exactly one entry (staying as long as the timestamps), the other three lists stay, and the last count becomes the current one so the same summary cannot record twice |
| FrontendServer.DashboardState.AppendPoint | src/frontend/server.py:73-90 | appends one value to each of the eleven recorded series and leaves the overhead and tokenizer-worker lists alone |
| FrontendServer.DashboardState.GetMetricsResponse | src/frontend/server.py:94-103 | updates the history first; with a collector the reply is the summary plus the history, without one it is {"error": "No metrics available", "history": ...} and the history is unchanged |
| FrontendServer.DashboardStateSingleton.Get | src/frontend/server.py:33-48 | every `DashboardState()` call returns the same instance; the first call creates it initialised |
| FrontendServer.RouteIgnoresQuery | src/frontend/server.py:140-153 | dispatch depends on the path only, never on the query string |
| FrontendServer.StaticRoute | src/frontend/server.py:149-151 | every "/static/" path is served as a file from the static directory with the prefix stripped |
| FrontendServer.IndexRoute | src/frontend/server.py:143-144 | "/" and "/index.html", with or without a query, ask for the page |
| FrontendServer.StaticEscapesAsWritten | src/frontend/server.py:128-151 | as written, "/static/../name" is answered with the file next to the static directory, outside it |
| FrontendServer.SendStatic | ml_inference_server/metrics/http_server.py:162-171 | with the containment check a file is sent only when it exists and lies inside the static directory; otherwise 404 |
| FrontendServer.SendStaticKeepsPlainPaths | src/frontend/server.py:128-132 | the containment check refuses nothing that a relative path without ".." reaches |
| Paths.NormaliseStaysWithin | ml_inference_server/metrics/http_server.py:166-169 | resolving segments without ".." never leaves the starting directory |
| Paths.ParentEscapes | ml_inference_server/metrics/http_server.py:166-169 | "../name" from a non-root directory resolves to a sibling, which `relative_to` rejects |
| MetricsHttpServer.MetricsHistory.constructor | ml_inference_server/metrics/http_server.py:36-49 | a new history has nine empty series, last count 0 and the clock started now |
| MetricsHttpServer.MetricsHistory.Reset | ml_inference_server/metrics/http_server.py:51-63 | empties all nine series, restarts the clock and zeroes the count, so every dictionary entry is [] |
| MetricsHttpServer.MetricsHistory.ToDict | ml_inference_server/metrics/http_server.py:65-77 | exactly the nine series keys, each with its list; GPU utilisation, padding and overhead are not exposed |
| MetricsHttpServer.MetricsHistory.EmptyDict | ml_inference_server/metrics/http_server.py:51-77 | after a reset `to_dict` holds nine empty lists |
| MetricsHttpServer.MetricsHistory.AppendPoint | ml_inference_server/metrics/http_server.py:119-127 | all nine series grow together by the point's values; clock and count stay |
| MetricsHttpServer.MetricsServer.constructor | ml_inference_server/metrics/http_server.py:90-95 | the server keeps the collector it is given and starts with a fresh empty history |
| MetricsHttpServer.MetricsServer.UpdateHistory | ml_inference_server/metrics/http_server.py:110-128 | a point is added to all nine series only while running with a count strictly above the last one, which the count then becomes; otherwise nothing changes |
| MetricsHttpServer.MetricsServer.ResetHistory | ml_inference_server/metrics/http_server.py:130-133 | the history is emptied, its count zeroed and its clock restarted, and the collector is reset: components cleared, clocks restarted, no frozen snapshot, inactive |
| MetricsHttpServer.MetricsServer.HandleMetrics | ml_inference_server/metrics/http_server.py:205-212 | the history is updated first, then the reply is the summary with exactly the nine history series |
| MetricsHttpServer.RouteIgnoresQuery | ml_inference_server/metrics/http_server.py:185-198 | dispatch depends on the path only, never on the query string |
| MetricsHttpServer.IndexOnlyAtRoot | ml_inference_server/metrics/http_server.py:189-223 | only "/" is the page ("/index.html" is 404), and "/static/x" is the static file x with the prefix stripped at [8:] |
| MetricsHttpServer.SendFile | ml_inference_server/metrics/http_server.py:160-171 | a file is sent iff it exists and resolves inside the dashboard directory; otherwise 404 |
| MetricsHttpServer.StaticStaysInside | ml_inference_server/metrics/http_server.py:160-223 | a static request never reaches a file outside the dashboard directory, and reaches every existing file that a path without ".." names below the static directory |
| DashboardModels.AllSeriesComplete | src/models/dashboard.py:12-25 | the history has exactly fourteen series and none is missing from the set of all series |
| DashboardModels.DashboardHistory.constructor | src/models/dashboard.py:12-25 | a new history has fourteen empty lists |
| DashboardModels.DashboardHistory.ToDict | src/models/dashboard.py:27-43 | exactly the fourteen keys, each mapped to its list's contents (a value copy, so later changes to either side do not reach the other) |
| DashboardModels.DashboardHistory.Reset | src/models/dashboard.py:45-59 | every list is emptied, so `to_dict` maps all fourteen keys to [] |
| DashboardModels.DashboardHistory.EmptyDict | src/models/dashboard.py:27-59 | a cleared history yields fourteen empty lists |
| DashboardModels.StatsOf | src/models/dashboard.py:82-92 | an empty list gives avg/min/max/p50/p95 all 0; otherwise avg is the mean, min and max the smallest and largest sample, p50 and p95 the two percentiles, with min ≤ avg ≤ max |
| DashboardModels.DashboardMetrics.constructor | src/models/dashboard.py:66-77 | every kept list starts empty |
| DashboardModels.DashboardMetrics.GetSummary | src/models/dashboard.py:79-103 | exactly the eight summarised series have an entry; latencies and throughput have none |
| DashboardModels.DashboardMetrics.SummaryOfSeries | src/models/dashboard.py:79-103 | each summarised series' entry is all zeros when the series is empty, otherwise its mean, minimum, maximum and 50th/95th percentiles, the mean between the extremes |
| PrometheusTimeseries.Trunc | src/client/prometheus_timeseries.py:78 | Python `int()` truncates toward zero: the floor for non-negative values, 0 just below zero |
| PrometheusTimeseries.BuildTimestamps | src/client/prometheus_timeseries.py:74-79 | no timestamps for step ≤ 0; otherwise point i is start + i·step, and for end ≥ start there are ⌊(end−start)/step⌋+1 of them |
| PrometheusTimeseries.TimestampsCoverRange | src/client/prometheus_timeseries.py:74-79 | for end ≥ start the grid starts at start, never passes end, and one more step would pass it |
| PrometheusTimeseries.CombineMeaning | src/client/prometheus_timeseries.py:105-115 | the combined dictionary holds exactly the timestamps with a numeric sample, each with the sum of its samples across all result sets (NaN and unparseable samples skipped), keys listed once each |
| PrometheusTimeseries.NoSampleNoTotal | src/client/prometheus_timeseries.py:113-115 | a timestamp without a numeric sample totals nothing |
| PrometheusTimeseries.Items | src/client/prometheus_timeseries.py:116 | the dictionary's pairs, one per listed key |
| PrometheusTimeseries.InsertByTime | src/client/prometheus_timeseries.py:116 | inserting keeps the pairs sorted by time and adds exactly the one pair |
| PrometheusTimeseries.SortByTime | src/client/prometheus_timeseries.py:116 | the result is sorted by time and a permutation of the input |
| PrometheusTimeseries.MergedMeaning | src/client/prometheus_timeseries.py:105-116 | for a successful reply the merged series is strictly ascending in time, each value is the sum of that timestamp's numeric samples, and every sampled timestamp is present |
| PrometheusTimeseries.Merged | src/client/prometheus_timeseries.py:81-116 | a failed request, a non-success status or an empty result gives no points, and the points are sorted by time |
| PrometheusTimeseries.SortedItems | src/client/prometheus_timeseries.py:116 | sorting the items of a dictionary gives strictly ascending times, each with its dictionary value, and loses no item |
| PrometheusTimeseries.QueryRange | src/client/prometheus_timeseries.py:81-116 | the nested loops compute the merged series, and a failed request, a non-success status or an empty result gives [] |
| PrometheusTimeseries.TableMeaning | src/client/prometheus_timeseries.py:123 | the lookup has a key for exactly the times that round to it, and holds the value of the last pair rounding there |
| PrometheusTimeseries.Align | src/client/prometheus_timeseries.py:118-124 | exactly one entry per timestamp |
| PrometheusTimeseries.AlignMeaning | src/client/prometheus_timeseries.py:121-124 | a grid point is None iff no sample rounds to its time (never dropped, never zero-filled); otherwise it holds a sample's value at that time |
| PrometheusTimeseries.Collect | src/client/prometheus_timeseries.py:25-36 | end < start gives only an empty grid; otherwise the grid plus one series per query name, each aligned to exactly one entry per grid point |
| TimeseriesWriter.Decimals | src/client/timeseries_writer.py:72-76 | a present value is printed with at most two decimals, and an integral value with none |
| TimeseriesWriter.Fmt | src/client/timeseries_writer.py:66-76 | a cell is "-" exactly when the index is past the end of the series or the value there is None |
| TimeseriesWriter.Row | src/client/timeseries_writer.py:46-62 | a data row has one cell per column title: the row index, then the cell of each metric in table order, missing metrics read as empty series |
| TimeseriesWriter.RowLines | src/client/timeseries_writer.py:44-63 | one table line per recorded timestamp, line i being row i |
| TimeseriesWriter.Preamble | src/client/timeseries_writer.py:19-24 | the title first only when the file is started afresh, then the experiment line, a run line only for a non-empty label, and the generated line last, each followed by a blank line |
| TimeseriesWriter.TableLines | src/client/timeseries_writer.py:25-64 | the title row and separator, then one row line per timestamp, then a blank line |
| TimeseriesWriter.SectionLines | src/client/timeseries_writer.py:9-64 | the preamble followed by the table |
| TimeseriesWriter.Writer.constructor | src/client/timeseries_writer.py:6-7 | the writer starts from the file's present state and contents |
| TimeseriesWriter.Writer.Write | src/client/timeseries_writer.py:9-24 | appending to an existing file adds the section (without the title) after the old contents; otherwise the file is replaced by the title and the section |
| TimeseriesWriter.Writer.WritePreamble | src/client/timeseries_writer.py:19-24 | the title only on a fresh file, the experiment line, the run line only for a non-empty label, the generated line, each as its own line |
| TimeseriesWriter.Writer.WriteTable | src/client/timeseries_writer.py:25-64 | the table adds the title line, the separator, the rows and a blank line after what was written |
| TimeseriesWriter.Writer.WriteRows | src/client/timeseries_writer.py:44-63 | the loop writes exactly one row line per timestamp, in index order |
| TimeseriesWriter.Writer.Emit | src/client/timeseries_writer.py:42-43 | a write appends its lines, each ending in a newline, and leaves the earlier text in place |
| Screenshot.FindFrom | src/screenshot.py:25 | the first occurrence of a pattern at or after a position, or none when there is none |
| Screenshot.HeaderIndex | src/screenshot.py:32-36 | the first line starting with "\| Index \|", with no earlier line starting so, or none when no line does |
| Screenshot.ReadCell | src/screenshot.py:49-55 | a cell is None exactly when its text is "-"; it stays text only when it is not a numeral |
| Screenshot.EmptyTable | src/screenshot.py:41 | every title starts with an empty column |
| Screenshot.MaxLength | src/screenshot.py:57 | the length of the longest column: no column is longer and one column is that long (0 when all are empty) |
| Screenshot.Present | src/screenshot.py:63-71 | the kept cells contain no None and are no more than the column held |
| Screenshot.Outputs | src/screenshot.py:60-72 | every output key is present in the parsed dictionary, read from its column or empty |
| Screenshot.Indices | src/screenshot.py:58 | the synthetic timestamps are 0.0, 1.0, … one per row of the longest column |
| Screenshot.ParseTimeseriesMarkdown | src/screenshot.py:21-72 | the method's header search, row loop and column maximum compute the parse the functions define |
| Screenshot.ParseWith | src/screenshot.py:21-72 | no table header gives the "Could not find timeseries table" error; a parse has a header, the experiment name read, timestamps 0, 1, … (at least one) and a series for every column asked for |
| Screenshot.ParseTimeseries | src/screenshot.py:21-72 | the parser as written: the missing-table error, at least one timestamp and a series for each of its columns |
| Screenshot.FindHeader | src/screenshot.py:32-39 | the loop stops at the first table title line, or runs off the end exactly when there is none |
| Screenshot.CollectRows | src/screenshot.py:41-55 | the row loop fills the columns as the row-reading function defines, stopping at the first non-table line and skipping ragged rows |
| Screenshot.LongestColumn | src/screenshot.py:57 | the loop finds the longest column |
| Screenshot.AppendRow | src/screenshot.py:48-55 | the zip loop appends each value to its own title's column |
| Screenshot.SeriesStats | src/screenshot.py:76-87 | zeros and a count of 0 for an empty series; otherwise the count is the length, avg the mean, min and max the smallest and largest value, p50 and p95 the percentiles, and every value and the mean lie between min and max |
| Screenshot.Shares | src/screenshot.py:93-104 | with a positive total latency the four stage shares sum to exactly 100; otherwise all four are 0 |
| Screenshot.SharesBounded | src/screenshot.py:98-102 | when the stage times are non-negative and do not exceed the total latency, each share lies in [0, 100] |
| Screenshot.LastOrZero | src/screenshot.py:109-129 | the last element of a series, or 0 for an empty one |
| Screenshot.ComputeSummaryStats | src/screenshot.py:75-151 | no summary exactly when there are no latencies; otherwise the count and query count are the number of latencies, the instant latency the last, avg/p50/p95/p99 the mean and percentiles, the throughput, stage and padding "last" values the last sample (0 when none), the averages of throughput, CPU, GPU and padding the mean (0 when none), the three stage statistics those of their series, the queue-wait mean and p95 those of its statistics, and the stage shares |
| Screenshot.FindTimeseriesFile | src/screenshot.py:262-273 | the result is a present candidate, the second only when the first is absent, and none exactly when neither candidate exists |
| Screenshot.CandidatesStripResults | src/screenshot.py:263-266 | for an experiment named `<a>_results` the second name tried is `<a>_timeseries.md` |
| TimeseriesRoundTrip.CellsOfPipeRow | src/screenshot.py:45 | splitting a written table line on bars and stripping gives back the written cells, when they are clean |
| TimeseriesRoundTrip.FmtClean | src/client/timeseries_writer.py:66-76 | every formatted cell is clean: no surrounding blanks, bars or newlines |
| TimeseriesRoundTrip.HeadersDistinct | src/client/timeseries_writer.py:25-41 | the fifteen column titles are pairwise distinct |
| TimeseriesRoundTrip.FileSplit | src/screenshot.py:28 | splitting a written file on newlines gives back its lines and a final empty string, for single-line labels |
| TimeseriesRoundTrip.FirstTitle | src/screenshot.py:32-36 | the header search lands on the first title line after preamble lines that cannot be mistaken for one |
| TimeseriesRoundTrip.FileHeaderIndex | src/screenshot.py:32-36 | in a written file the header search lands on the written title line, and the rows follow the separator |
| TimeseriesRoundTrip.AddRowDistinct | src/screenshot.py:48-55 | under distinct titles one row appends exactly one cell to each titled column and leaves every other column unchanged |
| TimeseriesRoundTrip.ReadWrittenRows | src/screenshot.py:42-55 | the row loop reads every written row and stops at the blank line after the table |
| TimeseriesRoundTrip.HoldsLength | src/screenshot.py:57 | after reading n written rows the longest column has length n |
| TimeseriesRoundTrip.FileExperimentName | src/screenshot.py:25-26 | only the experiment line of a fresh file matches the experiment pattern, so the parser reads back the stripped name |
| TimeseriesRoundTrip.ReadWrittenCell | src/screenshot.py:49-55 | the parser reads a written cell back as None for a dash and otherwise as the value rounded to the printed precision |
| TimeseriesRoundTrip.PresentColumn | src/screenshot.py:63-71 | dropping the dashes of a written column leaves exactly the written values of the series |
| TimeseriesRoundTrip.OutputsAt | src/screenshot.py:63-71 | each output series is the non-None cells of its own column's title |
| TimeseriesRoundTrip.ParsedFile | src/screenshot.py:21-72 | parsing a freshly written file gives the experiment name, one timestamp per row and the columns the rows hold; a file without rows fails as the empty max() does |
| TimeseriesRoundTrip.FileColumnAbsent | src/screenshot.py:63-71 | a column whose title the writer never emits reads back empty from a written file |
| TimeseriesRoundTrip.CorrectedRoundTrip | src/client/timeseries_writer.py:25-63 | the parser with the writer's queue-wait title reads a written file back completely: name, timestamps and every series as printed |
| TimeseriesRoundTrip.ColumnsRoundTrip | src/screenshot.py:60-72 | reading a written file through columns whose titles all sit in the table gives back each series as printed |
| TimeseriesRoundTrip.AsWrittenQueueWaitEmpty | src/screenshot.py:70 | the parser as written always reads the queue wait of a written file back as an empty series |
| TimeseriesRoundTrip.QueueWaitLost | src/screenshot.py:70 | for a file with any recorded queue wait the parser as written returns an empty series where the corrected parser returns the written values |
| ServerMetrics.AllStagesComplete | src/models/server_metrics.py:188-198 | the nine stage names cover every timed stage of the collector |
| ServerMetrics.StageStatsOf | src/models/server_metrics.py:28-38 | zeros for a stage with no samples; otherwise the count of samples, the mean between the smallest and largest sample, and the 50th/95th/99th percentiles |
| ServerMetrics.RecordStages | src/models/server_metrics.py:347-391 | each stage's list gets its time appended exactly when the time given is positive; no stage is added or lost |
| ServerMetrics.RecordLast | src/models/server_metrics.py:347-391 | a stage's last value becomes its time when that is positive and is kept otherwise |
| ServerMetrics.RecordKeepsStagesValid | src/models/server_metrics.py:347-391 | recording keeps every stage list positive and each last value equal to the newest recorded time, or 0 |
| ServerMetrics.PushIfPositive | src/models/server_metrics.py:199-201 | a positive time enters the 200-entry deque, anything else leaves it unchanged; the deque stays bounded and positive |
| ServerMetrics.Shares | src/models/server_metrics.py:510-527 | each stage's percentage is its average over the mean latency times 100, or 0 when the mean is not positive |
| ServerMetrics.OtherPct | src/models/server_metrics.py:529-542 | the unaccounted rest is never negative; it completes the nine stages to exactly 100 when they do not exceed it and is 0 when they do |
| ServerMetrics.CombinedCompletes | src/models/server_metrics.py:585-607 | tokenize, queue wait, inference and the combined rest make exactly 100 unless the stages alone exceed 100, in which case they make the stages' total |
| ServerMetrics.SharesOfWhole | src/models/server_metrics.py:510-542 | with a positive mean the nine percentages add up to the stage averages' share of the mean; when the stages account for the whole mean they make 100 and leave no rest |
| ServerMetrics.PercentagesOf | src/models/server_metrics.py:584-607 | every reported percentage is its unrounded value rounded to one decimal |
| ServerMetrics.RecordPadding | src/models/server_metrics.py:392-413 | the ratio is always recorded and becomes the last; the token totals move only for a non-negative padded count, together by the total tokens; a positive max or average length is appended and becomes the last, a non-positive one leaves list and last value as they were |
| ServerMetrics.PaddingSummaryOf | src/models/server_metrics.py:464-478 | zeros without ratios; otherwise the mean and last ratio as percentages and the last average length, rounded to one decimal, and the last maximum length |
| ServerMetrics.Rate | src/models/server_metrics.py:59-83 | a rate is 0 for a non-positive elapsed time and otherwise times the elapsed time gives back the amount; never negative for a non-negative amount |
| ServerMetrics.RecordWorker | src/models/server_metrics.py:54-57 | one more latency, one more request and numQueries more queries; the id and start time stay |
| ServerMetrics.RecordTokenizer | src/models/server_metrics.py:101-104 | one more latency, one more request and totalTokens more tokens; the id and start time stay |
| ServerMetrics.WorkerStatsOf | src/models/server_metrics.py:59-83 | zeros without samples; otherwise the mean of the latencies (between the extremes), the 50th, 95th and 99th percentiles, the request and query counts, and the queries per elapsed second |
| ServerMetrics.TokenizerStatsOf | src/models/server_metrics.py:106-130 | zeros without samples; otherwise the mean of the latencies (between the extremes), the 50th, 95th and 99th percentiles, the request count and the tokens per elapsed second |
| ServerMetrics.ResetWorker | src/models/server_metrics.py:84-90 | the worker keeps its id and restarts with no samples and no counts at the reset time |
| ServerMetrics.ResetTokenizer | src/models/server_metrics.py:131-136 | the tokenizer worker keeps its id and restarts with no samples and no counts at the reset time |
| ServerMetrics.RecordWorkerIn | src/models/server_metrics.py:414-425 | a new id gets an entry started now and appended to the order; a known id is recorded into; every other entry and the order stay as they were |
| ServerMetrics.RecordTokenizerIn | src/models/server_metrics.py:426-439 | as for workers: a new id gets an entry started now, a known id is recorded into, nothing else changes |
| ServerMetrics.MetricsCollector.constructor | src/models/server_metrics.py:168-238 | a fresh collector has no requests, empty stage lists with last values 0, no padding, no workers, and started now |
| ServerMetrics.MetricsCollector.SetExperimentInfo | src/models/server_metrics.py:244-252 | the experiment metadata is replaced and nothing else changes |
| ServerMetrics.MetricsCollector.ActiveWithin30 | src/models/server_metrics.py:253-278 | the collector is active exactly when it has requests and the newest came less than 30 seconds ago |
| ServerMetrics.MetricsCollector.Record | src/models/server_metrics.py:336-345 | the latency is appended, request and query counts grow by 1 and numQueries, both deques take the new sample, and the collector is active afterwards |
| ServerMetrics.MetricsCollector.RecordStageTimings | src/models/server_metrics.py:347-391 | the stage lists and last values move as the recording functions say, and the three charted deques take their positive times |
| ServerMetrics.MetricsCollector.RecordPaddingStats | src/models/server_metrics.py:392-413 | the padding log becomes the recorded one and the collector stays consistent |
| ServerMetrics.MetricsCollector.RecordWorkerStats | src/models/server_metrics.py:414-425 | the worker table becomes the recorded one |
| ServerMetrics.MetricsCollector.RecordTokenizerWorkerStats | src/models/server_metrics.py:426-439 | the tokenizer worker table becomes the recorded one |
| ServerMetrics.MetricsCollector.InstantQps | src/models/server_metrics.py:450-455 | the queries recorded in the last second |
| ServerMetrics.MetricsCollector.InstantLatency | src/models/server_metrics.py:457-462 | the last latency when the last second holds none, otherwise the mean of that second's latencies, which lies between their smallest and largest |
| ServerMetrics.MetricsCollector.GpuUtilization | src/models/server_metrics.py:313-334 | always between 0 and 100; 0 with no inference in the last second, otherwise that second's inference time over 10, capped at 100 |
| ServerMetrics.MetricsCollector.StageAverages | src/models/server_metrics.py:500-509 | every stage's average is its mean, 0 when never recorded, and never negative |
| ServerMetrics.MetricsCollector.Summary | src/models/server_metrics.py:480-626 | metadata only before the first request; afterwards the count, the mean latency (between the extremes) and its 50th, 95th and 99th percentiles, the instant latency, the overall and last-second rates, utilisation in [0, 100], every stage's stats with the queue-wait average and p95 taken from them, the rounded percentages with a non-negative rest, padding and each worker's stats in registration order |
| ServerMetrics.MetricsCollector.Reset | src/models/server_metrics.py:627-672 | counters zero, every list and deque empty, every last value 0, no padding, restarted now; the workers stay in order, each reset at now |
| DtoMetrics.StageTracker.constructor | src/server/dto/metrics/stage.py:22-26 | a new tracker has no samples, a last value of 0 and an empty history, tracked only when asked for |
| DtoMetrics.StageTracker.Record | src/server/dto/metrics/stage.py:28-37 | a non-positive value changes nothing; a positive one is appended and becomes the last value, and enters the bounded history only when it is tracked and a timestamp is given |
| DtoMetrics.StageTracker.Reset | src/server/dto/metrics/stage.py:39-44 | no samples, last value 0, empty history |
| DtoMetrics.LastKeyInjective | src/server/dto/metrics/stage.py:75-79 | distinct stage names are reported under distinct `last_<name>_ms` keys |
| DtoMetrics.StageTrackerManager.constructor | src/server/dto/metrics/stage.py:48-50 | no trackers |
| DtoMetrics.StageTrackerManager.Register | src/server/dto/metrics/stage.py:52-57 | a fresh, empty tracker of that name replaces any earlier one; the others stay |
| DtoMetrics.StageTrackerManager.Unregister | src/server/dto/metrics/stage.py:59-61 | the name is gone afterwards and nothing else changes |
| DtoMetrics.StageTrackerManager.Get | src/server/dto/metrics/stage.py:63-64 | the tracker of that name exactly when it is registered, otherwise a KeyError naming it |
| DtoMetrics.StageTrackerManager.Record | src/server/dto/metrics/stage.py:66-68 | an unknown name changes nothing; otherwise only that stage's tracker records the value |
| DtoMetrics.StageTrackerManager.ResetAll | src/server/dto/metrics/stage.py:70-73 | every registered tracker is emptied and the registrations stay |
| DtoMetrics.StageTrackerManager.LastValues | src/server/dto/metrics/stage.py:75-79 | one key per registered stage holding its newest value, and no other key |
| DtoMetrics.PercentagesWithin | src/server/dto/metrics/padding.py:50-64 | ratios in [0, 1] give reported percentages in [0, 100] |
| DtoMetrics.PaddingTracker.constructor | src/server/dto/metrics/padding.py:5-13 | an empty padding log |
| DtoMetrics.PaddingTracker.Record | src/server/dto/metrics/padding.py:15-48 | a ratio outside [0, 1] or a padded count outside [0, total] changes nothing; an accepted sample is recorded, and the token totals never shrink |
| DtoMetrics.PaddingTracker.Stats | src/server/dto/metrics/padding.py:50-64 | equals PaddingSummaryOf(log): zeros before any sample; afterwards the mean and the last ratio as percentages rounded to one decimal, the last max length and the last average length rounded to one decimal; both percentages within [0, 100] |
| DtoMetrics.PaddingTracker.Reset | src/server/dto/metrics/padding.py:66-74 | the log is empty again |
| DtoMetrics.WorkerMetrics.constructor | src/server/dto/metrics/base.py:8-13 | a new worker record of the given kind and id, with no samples or counts, started now |
| DtoMetrics.WorkerMetrics.Record | src/server/dto/metrics/base.py:15-18 | one more latency and request, numQueries more queries, and for a tokenizer worker totalTokens more tokens; the start time stays |
| DtoMetrics.WorkerMetrics.Stats | src/server/dto/metrics/base.py:24-32 | the id, one request per latency, the query count, latency statistics equal to StageStatsOf(latencies, percentile) (mean, p50/p95/p99 through the percentile, the count), the mean between the extremes, and query and token rates that times the elapsed time give the counts, 0 when no time has passed; tokens only for a tokenizer worker |
| DtoMetrics.WorkerMetrics.Reset | src/server/dto/metrics/base.py:38-42 | no samples or counts, restarted now |
| DtoMetrics.WorkerStatsManager.constructor | src/server/dto/metrics/worker.py:50-53 | no workers |
| DtoMetrics.WorkerStatsManager.GetOrCreate | src/server/dto/metrics/worker.py:55-58 | the existing record when the id is known, with nothing changed; otherwise a fresh record started now, appended to the order |
| DtoMetrics.WorkerStatsManager.Record | src/server/dto/metrics/worker.py:60-63 | the worker's record, created if needed, takes the sample; every other record is untouched |
| DtoMetrics.WorkerStatsManager.AllStats | src/server/dto/metrics/worker.py:65-67 | equals ReportsOf(order, now, percentile): one report per worker in first-seen order, each with that worker's id and request count |
| DtoMetrics.WorkerStatsManager.ReportsOf | src/server/dto/metrics/worker.py:65-67 | the reports of the given workers, in the given order |
| DtoMetrics.WorkerStatsManager.ResetAll | src/server/dto/metrics/worker.py:69-72 | all records are dropped |
| ServerDto.DefaultResult | src/server/dto/inference.py:8-31 | a result built from scores alone carries those scores, zero timings and sizes, worker ids of -1 and status 200 |
| ServerDto.ScoreAll | src/server/backends/base.py:51 | one score per pair, in the pairs' order, each that pair's score |
| ServerDto.Infer | src/server/backends/base.py:46-56 | an error exactly when the backend fails; otherwise the scores of the pairs with the backend's timing |
| ServerDto.PendingRequest.constructor | src/server/dto/scheduler.py:10-15 | a new pending request holds its pairs and submit time, with no result, no error and its event not set |
| MlComponents.LatencyTracker.constructor | ml_inference_server/metrics/components/latency.py:35-38 | no latencies, an empty recent deque and a last latency of 0 |
| MlComponents.LatencyTracker.Record | ml_inference_server/metrics/components/latency.py:40-51 | the latency is appended, becomes the last one and enters the 200-entry deque; the count grows by one |
| MlComponents.LatencyTracker.InstantLatency | ml_inference_server/metrics/components/latency.py:53-75 | the last latency when the deque or the window is empty, otherwise the mean of the window's latencies |
| MlComponents.LatencyTracker.Stats | ml_inference_server/metrics/components/latency.py:77-98 | all zero before any latency; otherwise the count, minimum, maximum and mean of all latencies, p50/p95/p99 the percentiles of the latencies and the spread their std |
| MlComponents.LatencyTracker.Reset | ml_inference_server/metrics/components/latency.py:100-105 | no latencies, an empty deque, a last latency of 0 and a count of 0 |
| MlComponents.ThroughputTracker.constructor | ml_inference_server/metrics/components/throughput.py:29-33 | started now with no queries, no requests and an empty deque |
| MlComponents.ThroughputTracker.Record | ml_inference_server/metrics/components/throughput.py:35-46 | one more request, numQueries more queries, and the sample enters the 200-entry deque; the start time stays |
| MlComponents.ThroughputTracker.InstantQps | ml_inference_server/metrics/components/throughput.py:48-68 | 0 with no samples; a ZeroDivisionError for a zero window; otherwise a rate that times the window gives the queries of the window |
| MlComponents.ThroughputTracker.AvgQps | ml_inference_server/metrics/components/throughput.py:70-81 | 0 when no time has passed, otherwise a rate that times the elapsed time gives the query count |
| MlComponents.ThroughputTracker.Stats | ml_inference_server/metrics/components/throughput.py:83-111 | the one-second instant rate, the average rate, the totals and the elapsed time |
| MlComponents.ThroughputTracker.Reset | ml_inference_server/metrics/components/throughput.py:113-119 | restarted now with no queries, no requests and an empty deque |
| MlComponents.WastedPct | ml_inference_server/metrics/components/padding.py:95-98 | the padded share of all tokens in percent, 0 with no tokens, and within [0, 100] for non-negative counts |
| MlComponents.WastedRoundedWithin | ml_inference_server/metrics/components/padding.py:104 | the rounded wasted share stays within [0, 100] for non-negative counts |
| MlComponents.MeanPct | ml_inference_server/metrics/components/padding.py:93-101 | the mean ratio as a percentage rounded to one decimal, never negative |
| MlComponents.TruncatedMean | ml_inference_server/metrics/components/padding.py:106 | the truncated mean of positive lengths is never negative and equals the integer quotient of their sum by their number, which is what `int()` of the mean gives for positive lengths |
| MlComponents.PaddingAnalyzer.constructor | ml_inference_server/metrics/components/padding.py:36-43 | nothing recorded |
| MlComponents.PaddingAnalyzer.RecordBatch | ml_inference_server/metrics/components/padding.py:46-80 | a positive ratio is appended and becomes the last, a zero one is ignored; totals move only for a positive padded count, together by the total tokens; lengths are kept only when positive |
| MlComponents.PaddingAnalyzer.Stats | ml_inference_server/metrics/components/padding.py:82-110 | all zero without a ratio; otherwise the mean, p50 and p95 of the ratios as percentages rounded to one decimal, the last ratio as a percentage, the wasted share, which lies in [0, 100] while the real total is non-negative, the average max length as sum div count (0 with none), the average of the average lengths rounded (0 with none), and the last max and last average length |
| MlComponents.PaddingAnalyzer.Reset | ml_inference_server/metrics/components/padding.py:112-122 | nothing recorded |
| MlComponents.AllMlStagesComplete | ml_inference_server/metrics/components/stages.py:74-78 | the five stage names cover every stage of the group |
| MlComponents.RawSplit | ml_inference_server/metrics/components/stages.py:154-162 | 0/0/100 with nothing to divide by; otherwise tokenize and inference are their averages' shares of the total and the three parts always sum to 100 |
| MlComponents.OtherCanBeNegative | ml_inference_server/metrics/components/stages.py:162 | "other" is not clamped: stages averaging 60 and 60 in a 100 ms request leave -20 |
| MlComponents.StageMetricsGroup.constructor | ml_inference_server/metrics/components/stages.py:74-90 | nothing recorded |
| MlComponents.StageMetricsGroup.Record | ml_inference_server/metrics/components/stages.py:92-132 | each positive time is appended to its stage; tokenize, queue wait and inference also enter their deque, and the two gRPC stages do not |
| MlComponents.StageMetricsGroup.RecordTokenize | ml_inference_server/metrics/components/stages.py:116-119 | the time is appended, becomes the last and enters the deque |
| MlComponents.StageMetricsGroup.RecordQueueWait | ml_inference_server/metrics/components/stages.py:121-124 | the time is appended, becomes the last and enters the deque |
| MlComponents.StageMetricsGroup.RecordInference | ml_inference_server/metrics/components/stages.py:126-129 | the time is appended, becomes the last and enters the deque |
| MlComponents.StageMetricsGroup.AllStats | ml_inference_server/metrics/components/stages.py:134-142 | every stage's statistics, each counting that stage's samples |
| MlComponents.StageMetricsGroup.Percentages | ml_inference_server/metrics/components/stages.py:144-168 | 0/0/100 for a non-positive total; otherwise the raw split with each part rounded to one decimal |
| MlComponents.StageMetricsGroup.QueueWaitReport | ml_inference_server/metrics/components/stages.py:170-191 | the queue-wait count, its average, p50, p95, p99 (through the percentile; 0 with no samples) and last value rounded to two decimals, and its share of the latency, 0 with no latency |
| MlComponents.StageMetricsGroup.Reset | ml_inference_server/metrics/components/stages.py:193-206 | nothing recorded |
| InstanceMetrics.Registered | ml_inference_server/metrics/components/instance_metrics.py:65-73 | a new instance has no requests, is idle, has no busy start and no latencies |
| InstanceMetrics.InstanceName | ml_inference_server/metrics/components/instance_metrics.py:66 | the given name, or "instance-<id>" when it is empty |
| InstanceMetrics.Utilization | ml_inference_server/metrics/components/instance_metrics.py:158 | 0 when no time has passed; otherwise busy time over elapsed time in percent, within [0, 100] when the busy time is |
| InstanceMetrics.StatsOf | ml_inference_server/metrics/components/instance_metrics.py:147-176 | the instance's name, count and busy flag; busy and idle time add up to the elapsed time; utilisation and idle share rounded to two decimals; the mean latency, 0 with none |
| InstanceMetrics.StatsWithin | ml_inference_server/metrics/components/instance_metrics.py:154-172 | while the busy time lies within the elapsed time, utilisation and idle share both lie in [0, 100], and the mean latency is never negative |
| InstanceMetrics.SummaryOf | ml_inference_server/metrics/components/instance_metrics.py:185-216 | with no instances 0/[]/0/100/0; otherwise one row per instance, the total requests, and the mean utilisation and its complement rounded to two decimals |
| InstanceMetrics.SummaryWithin | ml_inference_server/metrics/components/instance_metrics.py:196-214 | when every instance's utilisation is in [0, 100], so are the summary's utilisation and idle share |
| InstanceMetrics.SnapshotOf | ml_inference_server/metrics/components/instance_metrics.py:225-232 | four parallel lists, one entry per instance in the same order |
| InstanceMetrics.InstanceMetricsTracker.constructor | ml_inference_server/metrics/components/instance_metrics.py:51-54 | no instances, started now |
| InstanceMetrics.InstanceMetricsTracker.RegisterInstance | ml_inference_server/metrics/components/instance_metrics.py:56-73 | a fresh record under the id, replacing any earlier one |
| InstanceMetrics.InstanceMetricsTracker.MarkBusy | ml_inference_server/metrics/components/instance_metrics.py:75-88 | an unknown id changes nothing; otherwise only that instance becomes busy with its start time now |
| InstanceMetrics.InstanceMetricsTracker.MarkIdle | ml_inference_server/metrics/components/instance_metrics.py:90-119 | an unknown id changes nothing; otherwise the busy interval is added, the request counted, and a positive latency kept among the last 100; other instances are untouched |
| InstanceMetrics.InstanceMetricsTracker.InstanceStatsAt | ml_inference_server/metrics/components/instance_metrics.py:121-135 | the "unknown" stats for an unregistered id, otherwise that instance's computed stats |
| InstanceMetrics.InstanceMetricsTracker.AllStats | ml_inference_server/metrics/components/instance_metrics.py:137-145 | the stats of exactly the registered instances, in ascending id order |
| InstanceMetrics.InstanceMetricsTracker.GetSummary | ml_inference_server/metrics/components/instance_metrics.py:178-216 | equals SummaryOf(AllStats(now)): one row per registered instance by ascending id, the averages rounded to two places and the total requests, as SummaryOf states; the empty summary with no instances |
| InstanceMetrics.InstanceMetricsTracker.HistorySnapshot | ml_inference_server/metrics/components/instance_metrics.py:218-232 | equals SnapshotOf(AllStats(now)): each instance's utilisation, idle share, request count and busy flag, one entry per registered instance in each of the four lists |
| InstanceMetrics.InstanceMetricsTracker.Reset | ml_inference_server/metrics/components/instance_metrics.py:234-244 | every instance keeps its name and loses everything else; the clock restarts now |
| MlCollector.MetricsCollector.constructor | ml_inference_server/metrics/collector.py:70-87 | four fresh, empty components, blank experiment metadata, both clocks started now and no frozen snapshot |
| MlCollector.MetricsCollector.SetExperimentInfo | ml_inference_server/metrics/collector.py:105-119 | the experiment metadata is replaced and nothing else changes |
| MlCollector.MetricsCollector.Record | ml_inference_server/metrics/collector.py:136-156 | one more latency and request, numQueries more queries, the update time now, the frozen snapshot dropped, and the experiment active afterwards |
| MlCollector.MetricsCollector.RecordStageTimings | ml_inference_server/metrics/collector.py:158-182 | the timings are forwarded to the stage group, which records each positive one |
| MlCollector.MetricsCollector.RecordPaddingStats | ml_inference_server/metrics/collector.py:184-208 | the sample is forwarded to the padding analyser, which keeps a positive ratio; a positive padded count adds to the padded total and the total minus it to the real total, otherwise both stay; a positive max or average length is appended to its list |
| MlCollector.MetricsCollector.ComputeMetrics | ml_inference_server/metrics/collector.py:210-292 | nothing before the first latency; otherwise every component's statistics, with the stage and queue-wait shares taken of the mean latency, and the last tokenize, inference and queue-wait times (0 before any) |
| MlCollector.MetricsCollector.Summarize | ml_inference_server/metrics/collector.py:294-326 | metadata alone before any latency; a stopped experiment with a snapshot gets it; otherwise fresh metrics, and the first summary of a stopped experiment freezes exactly what it returns; a running one never freezes |
| MlCollector.MetricsCollector.Reset | ml_inference_server/metrics/collector.py:328-338 | every component cleared, clocks restarted now, the snapshot dropped, and the experiment no longer active |
| StageTimer.ToDict | ml_inference_server/utils/stage_timer.py:32-41 | exactly the seven keys, each holding its field |
| StageTimer.Share | ml_inference_server/utils/stage_timer.py:52-55 | a share that times a positive total gives the part in percent, 0 for a negative total |
| StageTimer.LogBreakdown | ml_inference_server/utils/stage_timer.py:43-63 | a ZeroDivisionError exactly for a zero sample rate; a line exactly for every sample-rate-th id with a non-zero total, carrying the pair count and total, and with a positive total shares adding up to the stages' share |
| StageTimer.ElapsedMs | ml_inference_server/utils/stage_timer.py:88-95 | the time between two ordered clock readings is never negative |
| StageTimer.TimedStage | ml_inference_server/utils/stage_timer.py:125-138 | the wrapped function's result, together with the elapsed milliseconds |
| StageTimer.StageTimer.constructor | ml_inference_server/utils/stage_timer.py:82-86 | a timer started at the given clock reading with all timings zero |
| StageTimer.StageTimer.RecordStage | ml_inference_server/utils/stage_timer.py:97-108 | the named stage's field takes the duration, replacing an earlier one; any other name changes nothing |
| StageTimer.StageTimer.Stage | ml_inference_server/utils/stage_timer.py:88-95 | a timed block gives its stage the elapsed time between its clock readings |
| StageTimer.StageTimer.SetNumPairs | ml_inference_server/utils/stage_timer.py:110-112 | only the pair count changes |
| StageTimer.StageTimer.Finalize | ml_inference_server/utils/stage_timer.py:114-117 | the total is the time since the timer started; the stage durations are untouched |
| StageTimer.StageTimer.GetTimings | ml_inference_server/utils/stage_timer.py:119-122 | the same as finalising |
| ProcessPool.WorkerIds | ml_inference_server/server/process_pool.py:281-301 | the workers are numbered 0 to n - 1 in configuration order |
| ProcessPool.RawUtil | ml_inference_server/server/process_pool.py:419 | a worker's share of all requests in percent, 0 when there are none, and within [0, 100] when its count is part of the total |
| ProcessPool.Counts | ml_inference_server/server/process_pool.py:452-454 | one count per worker, an absent worker reading as 0 |
| ProcessPool.Rows | ml_inference_server/server/process_pool.py:413-431 | one summary row per configured instance, in worker order, each built from that worker's count and the total |
| ProcessPool.CountAtMostTotal | ml_inference_server/server/process_pool.py:412-416 | a worker's count never exceeds the sum of all counts |
| ProcessPool.SummaryWithin | ml_inference_server/server/process_pool.py:410-445 | one row per instance carrying its id and count; every share and both averages lie in [0, 100]; no instances give an average of 0 |
| ProcessPool.PoolSummary | ml_inference_server/server/process_pool.py:410-445 | one row per configured instance, each the row of its count and the total, and the total over every count |
| ProcessPool.PoolHistory | ml_inference_server/server/process_pool.py:447-456 | four lists of one entry per worker: utilisation 0, idle 100, the worker's count (0 when absent) and not busy |
| ProcessPool.UtilizationsSumTo100 | ml_inference_server/server/process_pool.py:412-419 | once start has given every worker a count and no other key exists, the total is the sum of the workers' counts and their unrounded shares add up to exactly 100 |
| ProcessPool.HistoryMatchesSummary | ml_inference_server/server/process_pool.py:447-456 | the history lists one entry per worker, with the same count the summary reports, utilisation 0, idle 100 and not busy |
| ProcessPool.ModelPool.constructor | ml_inference_server/server/process_pool.py:236-267 | a pool of one worker per configured instance, not started, request counter 0 and no counts |
| ProcessPool.ModelPool.Start | ml_inference_server/server/process_pool.py:269-314 | a started pool is left alone; otherwise every worker's count is set to 0, and the pool starts exactly when every worker is ready, else a RuntimeError names the first worker that is not |
| ProcessPool.ModelPool.Stop | ml_inference_server/server/process_pool.py:316-339 | the pool is no longer started; counts and the request counter stay |
| ProcessPool.ModelPool.Infer | ml_inference_server/server/process_pool.py:343-384 | before start a RuntimeError and nothing changes; afterwards the next request id is handed out and the answering worker's count grows by one |
| ProcessPool.ModelPool.GetPoolInfo | ml_inference_server/server/process_pool.py:390-408 | the instance count, routing name, "process" mode, running flag, a copy of the counts and one entry per configured instance with its count |
| ProcessPool.ModelPool.GetInstanceMetricsSummary | ml_inference_server/server/process_pool.py:410-445 | the loop builds exactly the pool summary of the counts |
| ProcessPool.BuildRows | ml_inference_server/server/process_pool.py:415-431 | one row per configured instance, in order, each the instance's row for its count and the total |
| ProcessPool.ModelPool.GetInstanceMetricsHistory | ml_inference_server/server/process_pool.py:447-456 | the pool history of the counts |
| ArgSort.InsertByKey | ml_inference_server/utils/length_aware_batching.py:81 | inserting a position into sorted positions keeps them sorted, adds exactly that position, and places it after every key not greater than its own |
| ArgSort.InsertKeepsDistinct | ml_inference_server/utils/length_aware_batching.py:81 | inserting a new position keeps the positions distinct |
| ArgSort.Argsort | ml_inference_server/utils/length_aware_batching.py:81 | a permutation of the positions that puts the keys in non-decreasing order |
| ArgSort.Permute | ml_inference_server/utils/length_aware_batching.py:82 | the elements read through the positions, in the positions' order |
| ArgSort.SortInts | ml_inference_server/utils/length_aware_batching.py:236 | the keys in non-decreasing order, a permutation of the input (the same multiset) |
| ArgSort.SumSortInts | ml_inference_server/utils/length_aware_batching.py:236 | sorting moves the keys without changing their sum |
| ArgSort.PermuteMultiset | ml_inference_server/utils/length_aware_batching.py:82 | reading a sequence through a permutation of its positions neither adds nor loses an element |
| LengthAwareBatching.Trunc | ml_inference_server/utils/length_aware_batching.py:22-37 | Python's int() of a float truncates toward zero |
| LengthAwareBatching.EstimateTokenLength | ml_inference_server/utils/length_aware_batching.py:22-37 | at least one token; a ZeroDivisionError exactly for a rate of 0 |
| LengthAwareBatching.EstimateTokenLengthIs | ml_inference_server/utils/length_aware_batching.py:22-37 | for a positive rate the whole number of rate-sized blocks in the text, or 1 when there is less than one; a negative rate gives 1 |
| LengthAwareBatching.EstimateMonotone | ml_inference_server/utils/length_aware_batching.py:22-37 | a longer text never gets a smaller estimate |
| LengthAwareBatching.EstimatePairLength | ml_inference_server/utils/length_aware_batching.py:40-57 | the two texts' estimates plus three special tokens, so at least 5; a ZeroDivisionError exactly for a rate of 0 |
| LengthAwareBatching.Lengths | ml_inference_server/utils/length_aware_batching.py:78 | one estimate per pair, position by position |
| LengthAwareBatching.InverseBothWays | ml_inference_server/utils/length_aware_batching.py:84-87 | a table that undoes every step of a permutation also redoes it |
| LengthAwareBatching.SortPairsByLength | ml_inference_server/utils/length_aware_batching.py:60-89 | a ZeroDivisionError exactly for a rate of 0 with pairs; otherwise the argsort of the estimates, the pairs in that order and its inverse permutation |
| LengthAwareBatching.SortedPairsNonDecreasing | ml_inference_server/utils/length_aware_batching.py:60-89 | the estimates read along the sorted pairs never decrease |
| LengthAwareBatching.UnsortScores | ml_inference_server/utils/length_aware_batching.py:175-177 | an IndexError exactly when an unsort position is past the end of the scores; otherwise the scores read through the unsort positions |
| LengthAwareBatching.UnsortRestoresOrder | ml_inference_server/utils/length_aware_batching.py:165-179 | scores produced in the sorted order come back in the caller's order: the score at position j belongs to pair j |
| LengthAwareBatching.BucketOf | ml_inference_server/utils/length_aware_batching.py:119-124 | the first bucket whose boundary is at least the length, or the extra last one when there is none |
| LengthAwareBatching.BucketMembership | ml_inference_server/utils/length_aware_batching.py:116-126 | an entry is in a bucket exactly when it is a pair with its own index whose estimate selects that bucket, so every pair lands in exactly one bucket |
| LengthAwareBatching.BucketAscending | ml_inference_server/utils/length_aware_batching.py:116-126 | within a bucket the original indices ascend |
| LengthAwareBatching.FindBucket | ml_inference_server/utils/length_aware_batching.py:120-124 | the search loop finds the bucket the length belongs to |
| LengthAwareBatching.PlaceNext | ml_inference_server/utils/length_aware_batching.py:126 | placing the next pair extends its own bucket and leaves the others alone |
| LengthAwareBatching.BucketPairsByLength | ml_inference_server/utils/length_aware_batching.py:92-128 | a ZeroDivisionError exactly for a rate of 0 with pairs; otherwise one bucket per boundary plus one, each holding its entries in index order |
| LengthAwareBatching.BatchesFrom | ml_inference_server/utils/length_aware_batching.py:194-197 | every batch is non-empty, at most the batch size, with as many indices as pairs |
| LengthAwareBatching.BatchesCover | ml_inference_server/utils/length_aware_batching.py:194-197 | the batches joined back together are exactly the sorted pairs and indices |
| LengthAwareBatching.BatchesAligned | ml_inference_server/utils/length_aware_batching.py:194-197 | every batch's pairs are the original pairs at that batch's indices |
| LengthAwareBatching.NewBatcher | ml_inference_server/utils/length_aware_batching.py:149-163 | a ZeroDivisionError exactly for a rate of 0 with pairs; otherwise the sorted order and the estimates of the given pairs |
| LengthAwareBatching.IterBatches | ml_inference_server/utils/length_aware_batching.py:181-197 | a ValueError exactly for a batch size of 0; no batches for a negative size; otherwise batches that joined back give the sorted pairs and indices |
| LengthAwareBatching.Stats | ml_inference_server/utils/length_aware_batching.py:253-269 | the totals as given, padding plus real tokens make the total, and the padding share is in [0, 100] when the real tokens fit |
| LengthAwareBatching.ReductionPct | ml_inference_server/utils/length_aware_batching.py:249-251 | saving part of the padding gives a reduction in [0, 100] |
| LengthAwareBatching.PaddedFromAtLeast | ml_inference_server/utils/length_aware_batching.py:240-245 | padding each batch to its own longest entry takes at least the real tokens |
| LengthAwareBatching.PaddedFromAtMost | ml_inference_server/utils/length_aware_batching.py:240-245 | and at most what padding every pair to a common bound takes |
| LengthAwareBatching.AwareWithinRandom | ml_inference_server/utils/length_aware_batching.py:228-247 | the sorted batches need at least the real tokens and at most the slots of padding every pair to the global longest |
| LengthAwareBatching.AwareTotals | ml_inference_server/utils/length_aware_batching.py:236-245 | the batch loop counts the slots of the sorted batches and the sum of the estimates |
| LengthAwareBatching.EstimatePaddingReduction | ml_inference_server/utils/length_aware_batching.py:211-272 | only a zero reduction with no pairs; a ValueError exactly for a batch size of 0; otherwise both sides' totals, length-aware padding between 0 and the global-max padding, the tokens saved and a reduction in [0, 100] |
| LengthAwareBatching.ReorderPairsForEfficientBatching | ml_inference_server/utils/length_aware_batching.py:275-302 | an error exactly for pairs with a rate or batch size of 0; otherwise a permutation of the indices ordering the estimates, with each reordered pair the original pair at its index |
| MlScheduler.ScoreAll | ml_inference_server/server/scheduler.py:92-94 | one score per pair, each the backend's score of that pair |
| MlScheduler.InferredPairs | ml_inference_server/server/scheduler.py:86-89 | the pairs themselves unless length-aware batching is on with more than one pair; otherwise the same number of pairs ordered by non-decreasing estimated length |
| MlScheduler.SortedByLength | ml_inference_server/server/scheduler.py:86-89 | the pairs read in argsort order have non-decreasing estimated lengths |
| MlScheduler.SortedAreInferred | ml_inference_server/server/scheduler.py:86-89 | the sorted pairs of the batcher are the pairs the backend is given |
| MlScheduler.SortForInference | ml_inference_server/server/scheduler.py:86-89 | the backend's pairs, and exactly when they were sorted, positions that find each caller's pair among them |
| MlScheduler.Scheduler.constructor | ml_inference_server/server/scheduler.py:29-58 | the given configuration and collector, or a fresh collector |
| MlScheduler.Scheduler.Schedule | ml_inference_server/server/scheduler.py:62-119 | the queue wait recorded first and only with an arrival time; a pool error exactly when the pool is not loaded or empty; otherwise one score per pair in the caller's order, each the score of that pair, the elapsed time, and the tokenize, inference, padding, latency and query counts recorded once |
| MlScheduler.Scheduler.RecordQueueWait | ml_inference_server/server/scheduler.py:82-84 | the milliseconds since arrival are added to the queue-wait stage when an arrival time is given and positive; no other stage changes |
| MlScheduler.Scheduler.RecordInference | ml_inference_server/server/scheduler.py:98-117 | the tokenize and inference stages, the padding ratio, one latency and the query count are added; the queue-wait and gRPC stages stay |
| MlScheduler.Scheduler.GetInfo | ml_inference_server/server/scheduler.py:121-131 | the scheduler's configuration and the pool's instance count and loaded flag |
| Routing.ParseStrategy | ml_inference_server/server/routing.py:215-246 | one of the five strategy names gives that strategy; any other name is a ValueError naming it |
| Routing.ParseStrategyName | ml_inference_server/server/routing.py:215-246 | every strategy's own name parses back to it |
| Routing.Available | ml_inference_server/server/routing.py:63 | exactly the idle backends, each once, in list order |
| Routing.LeastPending | ml_inference_server/server/routing.py:99 | the earliest backend with the fewest pending requests |
| Routing.FirstIdleIndex | ml_inference_server/server/routing.py:124-126 | none exactly when all are busy; otherwise an idle backend with only busy ones before it |
| Routing.SelectLeastBusy | ml_inference_server/server/routing.py:93-104 | a ValueError exactly for no backends; otherwise the earliest least-pending backend |
| Routing.SelectFirstAvailable | ml_inference_server/server/routing.py:119-129 | a ValueError exactly for no backends; the first idle backend when there is one, the first backend when all are busy |
| Routing.SelectFirstIdle | ml_inference_server/server/routing.py:145-161 | a ValueError exactly for no backends; the first idle backend when there is one, the earliest least-pending one when all are busy |
| Routing.RoundRobinPick | ml_inference_server/server/routing.py:56-77 | a backend in the list, idle whenever any backend is idle |
| Routing.RoundRobinVisitsEveryIdle | ml_inference_server/server/routing.py:56-77 | with the load unchanged, any run of as many calls as there are idle backends visits every idle backend |
| Routing.ScanFrom | ml_inference_server/server/routing.py:194-199 | the cyclic scan returns the first idle backend at or after the offset, and none only when every backend from there on is busy |
| Routing.ScanFindsIdle | ml_inference_server/server/routing.py:192-199 | the scan from the start finds a backend whenever one is idle |
| Routing.SmartIdlePick | ml_inference_server/server/routing.py:181-207 | a backend in the list |
| Routing.SmartIdlePrefersIdle | ml_inference_server/server/routing.py:181-207 | an idle backend whenever there is one, else the earliest least-pending one |
| Routing.SmartIdleRotates | ml_inference_server/server/routing.py:181-207 | with every backend idle the pick is the starting position modulo the list, so successive calls rotate |
| Routing.Pick | ml_inference_server/server/routing.py:23-37 | every strategy's pick is a backend in the list |
| Routing.PickPrefersIdle | ml_inference_server/server/routing.py:44-207 | every strategy but least-busy picks an idle backend when one exists; least-busy, and first-idle when all are busy, pick the earliest least-pending backend |
| Routing.Router.constructor | ml_inference_server/server/routing.py:52-54 | the strategy with round robin's counter and smart idle's position at 0 |
| Routing.Router.SelectRoundRobin | ml_inference_server/server/routing.py:56-77 | round robin's pick for the current counter, which goes up by one |
| Routing.Router.SelectSmartIdle | ml_inference_server/server/routing.py:181-207 | smart idle's pick from the last position; the next scan starts after the backend picked |
| Routing.Router.SelectBackend | ml_inference_server/server/routing.py:23-37 | a ValueError and no state change for no backends; otherwise the strategy's pick |
| Routing.Router.Reset | ml_inference_server/server/routing.py:79-82 | round robin's counter or smart idle's position goes back to 0; the other strategies keep their state |
| Routing.CreateRouter | ml_inference_server/server/routing.py:215-246 | a fresh router of the named strategy, or the ValueError of an unknown name |
| MlModelPool.PoolStrategyParses | ml_inference_server/server/model_pool.py:65-69 | both routing names a pool configuration admits parse to their router, so building the router cannot fail |
| MlModelPool.BusyCountComplementsAvailable | ml_inference_server/server/model_pool.py:200 | the busy backends and the idle ones the routers see add up to the pool |
| MlModelPool.TotalPendingZero | ml_inference_server/server/model_pool.py:201 | the pending total is non-negative, and 0 exactly when no backend has anything pending |
| MlModelPool.FromLegacyConfig | ml_inference_server/server/model_pool.py:74-100 | one instance routed round robin, each field from the model section or its default; a ValueError exactly for an unknown backend name |
| MlModelPool.ModelPool.constructor | ml_inference_server/server/model_pool.py:46-72 | the configuration, the given router or a fresh router of the configured strategy, and no backend loaded |
| MlModelPool.ModelPool.LoadAll | ml_inference_server/server/model_pool.py:102-124 | every configured instance appended in order, and the pool loaded |
| MlModelPool.ModelPool.AcquireBackend | ml_inference_server/server/model_pool.py:126-147 | a RuntimeError before loading and a ValueError for an empty pool, with the router untouched; otherwise the strategy's pick, a position in the pool |
| MlModelPool.ModelPool.GetPoolInfo | ml_inference_server/server/model_pool.py:193-202 | the instance count, strategy name, loaded flag, instances, busy count and pending total of the live backends |
| MlModelPool.ModelPool.ResetRouter | ml_inference_server/server/model_pool.py:204-206 | the router's own reset |
| QueuePipeline.ModeOf | src/server/pipeline/queue_based.py:169-175 | the three mode names select their modes and every other name is kept as an unknown mode |
| QueuePipeline.Deliver | src/server/pipeline/queue_based.py:181-222 | the workers signal the request when they finish, setting its stage waits and either the model's error, the tokenized batch or the inference result, which in inference-only mode scores the random rows rather than the pairs; nothing else changes |
| QueuePipeline.OrZero | src/server/pipeline/queue_based.py:272-274 | a missing wait reads as 0 |
| QueuePipeline.EstimatedLength | src/server/pipeline/queue_based.py:189-197 | a quarter of the first pair's characters, truncated, capped at the maximum length and raised to at least 1 |
| QueuePipeline.SyntheticBatch | src/server/pipeline/queue_based.py:199-213 | a batch of the given size and length whose tokens are all real, with no padding and no tokenize time |
| QueuePipeline.TokenizedOnlyResult | src/server/pipeline/queue_based.py:234-251 | no scores, status 204, the elapsed time, and -1 worker ids |
| QueuePipeline.WithQueueWaits | src/server/pipeline/queue_based.py:268-278 | the queue wait is the tokenizer wait plus the model wait, each 0 when missing, and the total is the elapsed time |
| QueuePipeline.StageGuard | src/server/pipeline/queue_based.py:169-175 | no error exactly when the stages the mode needs are started |
| QueuePipeline.QueueBasedPipeline.constructor | src/server/pipeline/queue_based.py:22-42 | batching off with 8 requests and 100 ms, an empty batch queue and no batch thread |
| QueuePipeline.QueueBasedPipeline.Setup | src/server/pipeline/queue_based.py:44-72 | the inference queue created first; a RuntimeError exactly without pools or metrics; with batching configured the batch settings adopted and the batch thread running |
| QueuePipeline.QueueBasedPipeline.Start | src/server/pipeline/queue_based.py:74-113 | full and tokenization-only modes start tokenization, full and inference-only modes start inference, and an unused stage keeps its flag |
| QueuePipeline.QueueBasedPipeline.Stop | src/server/pipeline/queue_based.py:115-135 | both shutdown events set, the batch thread stopped and neither stage started |
| QueuePipeline.QueueBasedPipeline.Schedule | src/server/pipeline/queue_based.py:137-166 | with batching on and requests waiting, a fresh request joins the back of the batch queue; otherwise the direct path's answer |
| QueuePipeline.QueueBasedPipeline.AwaitQueued | src/server/pipeline/queue_based.py:155-164 | a timeout, the batch's error or a missing result fail the caller; otherwise the result handed to it |
| QueuePipeline.QueueBasedPipeline.ScheduleDirect | src/server/pipeline/queue_based.py:168-283 | the mode's stage error with nothing changed; otherwise a registered request answered as the workers decide, the synthetic batch of random rows being scored in inference-only mode, and unregistered again |
| QueuePipeline.QueueBasedPipeline.GetBatchingInfo | src/server/pipeline/queue_based.py:397-404 | the batch settings and the number of waiting requests |
| QueuePipeline.QueueBasedPipeline.SubmitPipeline | src/server/pipeline/queue_based.py:412-415 | refused with a RuntimeError exactly when tokenization is not started |
| QueuePipeline.QueueBasedPipeline.TakeBatch | src/server/pipeline/queue_based.py:285-323 | nothing when shutting down or with an empty queue; otherwise a prefix of the queue of one request plus as many as the size bound, the deadline and the queue allow |
| QueuePipeline.QueueBasedPipeline.ProcessBatch | src/server/pipeline/queue_based.py:325-395 | one pipeline request with the next id; on success each caller gets its slice of the scores and its own queue wait added; on failure every caller gets the error; every caller is signalled |
| QueuePipeline.QueueBasedPipeline.HandOut | src/server/pipeline/queue_based.py:364-389 | each caller gets its slice at the running offset, the pipeline's measurements and the whole batch's size, and is signalled |
| QueuePipeline.RunDirect | src/server/pipeline/queue_based.py:176-266 | a fresh request handed to the workers, as a synthetic batch of random rows in inference-only mode, and waited for answers as the direct path decides |
| QueuePipeline.RunBatch | src/server/pipeline/queue_based.py:339-362 | the batch's pipeline request answers as the batch path decides |
| QueuePipeline.AwaitDirect | src/server/pipeline/queue_based.py:224-283 | a timeout of 30.0 or 300.0 seconds, the request's error, a missing tokenized batch or result fail the call; otherwise the result with its queue waits and elapsed time |
| QueuePipeline.BatchAnswer | src/server/pipeline/queue_based.py:354-362 | a 30s timeout, the model's error or a missing result fail the batch; otherwise the scores of the joined pairs |
| QueuePipeline.AwaitBatch | src/server/pipeline/queue_based.py:354-362 | the batch's wait: a timeout, the request's error or its missing result fail it, else its result |
| QueuePipeline.BatchEntry | src/server/pipeline/queue_based.py:366-387 | the caller's slice of the scores, its batch wait plus the pipeline's queue wait, the whole batch's size, and the pipeline's other measurements |
| QueuePipeline.DirectSuccess | src/server/pipeline/queue_based.py:168-278 | a successful direct request has a finished model and a queue wait that sums the stage waits; its scores are the model's scores of its pairs in full mode, the scores of one random row per pair in inference-only mode, and none with status 204 in tokenization-only mode |
| QueuePipeline.DirectFailure | src/server/pipeline/queue_based.py:168-283 | every direct failure has a cause: an empty inference-only request, unfinished workers, the model's error or a missing result |
| QueuePipeline.DirectAnswer | src/server/pipeline/queue_based.py:224-283 | success needs finished workers, no model error and, in inference-only mode, at least one pair; outside tokenization-only mode it carries one score per pair |
| QueuePipeline.InferenceOnlyIgnoresText | src/server/pipeline/queue_based.py:187-221 | in inference-only mode the answer depends on the number of pairs, not on their text |
| QueuePipeline.ModelResult | src/server/pipeline/queue_based.py:199-221 | the stored result scores the random rows of a synthetic batch and the pairs otherwise, with the model's timing |
| QueuePipeline.RowScores | src/server/pipeline/queue_based.py:199 | one score per random row, row i scored as the model scores it |
| QueuePipeline.BatchCallerShare | src/server/pipeline/queue_based.py:325-389 | a caller of a successful batch gets as many scores as it has pairs, its own wait plus the pipeline's, and, outside length-aware mode, the scores of its own pairs |
| BatchScatter.ConcatStep | src/server/scheduler.py:85-86 | joining one more group appends it, and the next offset moves past it |
| BatchScatter.ConcatPrefix | src/server/scheduler.py:85-86 | the first groups join to a prefix of the whole |
| BatchScatter.GroupAtOffset | src/server/scheduler.py:85-86 | each group sits, unchanged, at its offset in the joined list |
| BatchScatter.OffsetWithin | src/server/scheduler.py:95-104 | every offset lies within the joined list |
| BatchScatter.GatherPairs | src/server/scheduler.py:84-86 | the loop joins the requests' pairs in order |
| BatchScatter.LengthKeys | src/server/scheduler.py:89 | each key is the two texts' combined length |
| BatchScatter.SortByLength | src/server/scheduler.py:89 | a rearrangement of the pairs in non-decreasing key order |
| BatchScatter.InferenceOrder | src/server/scheduler.py:88-89 | a rearrangement of the pairs, the pairs themselves outside length-aware mode |
| BatchScatter.Scatter | src/server/scheduler.py:95-104 | each request's slice runs from its offset for as many scores as it has pairs, clipped as Python slices are |
| BatchScatter.ScatterPartitions | src/server/scheduler.py:95-104 | with one score per joined pair each slice has its request's size and the slices join back to all the scores |
| BatchScatter.ScatterPrefix | src/server/scheduler.py:95-104 | the first k slices join to the scores before the k-th offset |
| BatchScatter.ScatterStep | src/server/scheduler.py:95-104 | one more slice extends that prefix to the next offset |
| BatchScatter.ScatterAt | src/server/scheduler.py:98 | each slice is the scores between its offset and the next |
| BatchScatter.ScatterInOrder | src/server/scheduler.py:95-104 | scores computed in joined order give each request the scores of its own pairs |
| BatchScatter.UnsortedAssignsOwnScores | src/server/scheduler.py:83-104 | without the length-aware sort every request receives the scores of its own pairs |
| BatchScatter.LengthAwareMisassigns | src/server/scheduler.py:88-98 | with the length-aware sort, a long pair queued before a short one hands the first request the short pair's score |
| BatchScatter.JoinTwo | src/server/scheduler.py:85-86 | the two requests of that example join to the long pair and then the short one |
| BatchScatter.ShortPairFirst | src/server/scheduler.py:89 | the sort puts the short pair first |
| BatchScatter.IndexOf | src/server/scheduler.py:89 | the position of an element of the list |
| BatchScatter.Inverse | src/server/scheduler.py:89 | for a permutation, where each position went |
| BatchScatter.RestoreAfterPermute | src/server/scheduler.py:89 | permuting and then applying the inverse gives back the original list |
| BatchScatter.RestoredAssignsOwnScores | src/server/scheduler.py:83-104 | with the scores put back into joined order before slicing, every request receives the scores of its own pairs in both modes |
| SrcScheduler.EntryFor | src/server/scheduler.py:97-103 | the request's slice of the scores, the batch's stage timings and total, and its own pair count as batch size |
| SrcScheduler.Scheduler.constructor | src/server/scheduler.py:28-49 | the configuration, an empty queue, and the batch thread running exactly with batching |
| SrcScheduler.Scheduler.Schedule | src/server/scheduler.py:51-65 | without batching the pool's answer; with batching a fresh request at the back of the queue |
| SrcScheduler.Scheduler.Collect | src/server/scheduler.py:64-65 | the caller gets whatever result was stored, None when the batch failed |
| SrcScheduler.Scheduler.TakeBatch | src/server/scheduler.py:67-81 | a prefix of the queue, as long as the batch bound, the polls and the queue allow |
| SrcScheduler.Scheduler.ProcessBatch | src/server/scheduler.py:83-109 | on success each request gets its slice at its offset; on failure each keeps no result; every request is signalled |
| SrcScheduler.Scheduler.HandOut | src/server/scheduler.py:94-105 | each request gets its entry at the running offset and is signalled |
| SrcScheduler.Scheduler.GetInfo | src/server/scheduler.py:111-118 | the configuration and the queue length |
| SrcScheduler.Scheduler.Stop | src/server/scheduler.py:120-121 | the batch loop's condition turns false |
| SrcScheduler.SignalAll | src/server/scheduler.py:106-109 | every request signalled with nothing else changed |
| SrcScheduler.Min3 | src/server/scheduler.py:71 | the smallest of three counts |
| SrcScheduler.BatchEntries | src/server/scheduler.py:83-104 | each request of a successful batch gets as many scores as it has pairs and, outside length-aware mode, its own pairs' scores |
| SchedulerService.EntryFor | src/server/services/scheduler_service.py:127-143 | the request's slice, the batch's measurements, its own queue wait and the whole batch's size |
| SchedulerService.SchedulerService.constructor | src/server/services/scheduler_service.py:18-49 | the configuration, an empty queue and the batch thread running exactly with batching |
| SchedulerService.SchedulerService.WaitTimeoutSec | src/server/services/scheduler_service.py:67 | ten batch timeouts, in seconds |
| SchedulerService.SchedulerService.Schedule | src/server/services/scheduler_service.py:51-62 | without batching tokenize then infer; with batching a fresh request at the back of the queue |
| SchedulerService.SchedulerService.Await | src/server/services/scheduler_service.py:67-79 | a timeout, the stored error or a missing result fail the caller; otherwise its result |
| SchedulerService.SchedulerService.TakeBatch | src/server/services/scheduler_service.py:81-105 | nothing from an empty queue; otherwise the first request and as many more as the bound, the shutdown flag, the polls and the queue allow |
| SchedulerService.SchedulerService.ProcessBatch | src/server/services/scheduler_service.py:107-151 | on success each request gets its slice with its own queue wait; on failure each gets the error; every request is signalled |
| SchedulerService.SchedulerService.HandOut | src/server/services/scheduler_service.py:121-144 | each request gets its entry at the running offset and is signalled |
| SchedulerService.SchedulerService.GetInfo | src/server/services/scheduler_service.py:153-160 | the configuration and the queue length |
| SchedulerService.SchedulerService.Stop | src/server/services/scheduler_service.py:162-165 | the batch thread told to stop |
| SchedulerService.FailAll | src/server/services/scheduler_service.py:145-151 | every request gets the error and its event, and keeps its result |
| SchedulerService.CallerOutcome | src/server/services/scheduler_service.py:107-151 | a caller of a successful batch gets its share of the scores, its own pairs' scores outside length-aware mode; a caller of a failed batch gets the error |
| PipelineBase.PipelineRequest.constructor | src/server/dto/pipeline.py:21-50 | nothing produced yet, worker ids -1 and both queue waits 0.0 |
| PipelineBase.BasePipeline.constructor | src/server/pipeline/base.py:31-68 | ids from 0, nothing registered or counted, no stage started, the window starting now |
| PipelineBase.BasePipeline.GetNextRequestId | src/server/pipeline/base.py:70-72 | the next id, one above the last, never one in flight |
| PipelineBase.BasePipeline.TrackRequestMetrics | src/server/pipeline/base.py:74-86 | the request counted; a window of a second or more restarts at now with its counters at 0 |
| PipelineBase.BasePipeline.CreateRequest | src/server/pipeline/base.py:88-103 | the request counted, given the next id and registered under it |
| PipelineBase.BasePipeline.CleanupRequest | src/server/pipeline/base.py:105-108 | the id no longer registered; an unknown id changes nothing |
| PipelineBase.BasePipeline.GetMetrics | src/server/pipeline/base.py:190-194 | a RuntimeError exactly without a metrics service |
| PipelineBase.BasePipeline.GetTokenizerWorkerMetrics | src/server/pipeline/base.py:196-200 | nothing unless tokenization is started, else the pool's report |
| PipelineBase.BasePipeline.GetInferenceWorkerMetrics | src/server/pipeline/base.py:207-211 | nothing unless inference is started, else the pool's report |
| PipelineBase.BasePipeline.GetGpuMemoryMb | src/server/pipeline/base.py:226-230 | 0.0 unless inference is started, else the pool's reading |
| PipelineBase.ConsecutiveIds | src/server/pipeline/base.py:70-72 | n calls hand out the n consecutive ids from the counter, strictly increasing and none of them pending, and the counter moves on by n |
| PipelineBase.CreateThenCleanup | src/server/pipeline/base.py:88-108 | creating and cleaning up a request leaves the registry as it was |
| ClientRunner.StartOf | src/client/runner.py:147 | a request's first pair is a position in the list |
| ClientRunner.CreateBatch | src/client/runner.py:146-151 | a ZeroDivisionError exactly for an empty list of pairs; otherwise at most the batch size |
| ClientRunner.Window | src/client/runner.py:148-150 | the slice from the start topped up from the front holds at most the batch size |
| ClientRunner.WindowWraps | src/client/runner.py:148-150 | the window holds the batch size unless the list from the start round to the end once more is shorter, and pair j is the pair j places after the start, going round the list |
| ClientRunner.BatchWraps | src/client/runner.py:146-151 | a request's batch is the window at its start position |
| ClientRunner.BatchLength | src/client/runner.py:146-151 | a batch holds exactly the batch size when that many fit in the list |
| ClientRunner.BatchesCycle | src/client/runner.py:146-151 | successive requests take the pairs in turn: pair j of request i is pair i times the batch size plus j of the list repeated without end |
| ClientRunner.PrepareBatches | src/client/runner.py:153-157 | no batches for no requests, a ZeroDivisionError for requests over no pairs, otherwise one batch per request, batch i being request i's batch |
| ClientRunner.WorkerIndices | src/client/runner.py:119-125 | worker w takes the indices w, w plus the concurrency, and so on, one per request it sent |
| ClientRunner.WorkersPartition | src/client/runner.py:119-125 | no two workers' steps take the same index, and every index is taken by the worker of its remainder at the step of its quotient |
| ClientRunner.ErrorMessage | src/client/runner.py:132-133 | the error text appears exactly when no request completed |
| ClientRunner.Result | src/client/runner.py:132-143 | no completed request gives the interrupted error result; otherwise the count of completed requests and the pairs they carried |
| ClientRunner.TotalPairsCarried | src/client/runner.py:119-139 | when a batch fits in the list, the reported pair count is the number of pairs the completed requests carried, whichever they were |
| ClientRunner.Phases | src/client/runner.py:19-51 | the warm-up first when asked for, then a timed run for a positive duration, otherwise the fixed count |
| ModelsSweep.Field | src/models/sweep.py:24-25 | present exactly when the section exists and holds the key, and then the value at that path |
| ModelsSweep.FieldIsGuardedRead | src/models/sweep.py:24-25 | whenever the guarded read `section in config and key in config[section]` does not raise, it reads what Field reads |
| ModelsSweep.ListParam | src/models/sweep.py:24-27 | a parameter exactly when the field holds a list, with that path and list, on a path that runs along dictionaries |
| ModelsSweep.SweepParams | src/models/sweep.py:20-39 | the swept fields in the order they are checked, on paths along dictionaries that part pairwise |
| ModelsSweep.AppendSweepable | src/models/sweep.py:20-39 | a parameter whose path parts from every earlier one keeps the list sweepable |
| ModelsSweep.PathsPart | src/models/sweep.py:27-39 | two different section.key paths part in both directions |
| ModelsSweep.ValuesOf | src/models/sweep.py:47 | one list of values per swept field |
| ModelsSweep.Apply | src/models/sweep.py:51-61 | the copy reads each swept field's value of the combination, and every path apart from the swept ones reads as in the configuration |
| ModelsSweep.ExpandSweep | src/models/sweep.py:8-65 | TypeError exactly when a guard cannot search its section; otherwise the configuration alone without a swept field, else one configuration per combination in product order, each reading its combination at the swept fields and the original elsewhere |
| ModelsSweep.TimeoutPart | src/models/sweep.py:79-82 | a number gives its integer part followed by "ms", anything else nothing |
| ModelsSweep.BatchPart | src/models/sweep.py:85-88 | an int gives "batch" and its digits, anything else nothing |
| ModelsSweep.NameParts | src/models/sweep.py:70-88 | at most the three parts, backend then timeout then batch size |
| ModelsSweep.SweepName | src/models/sweep.py:68-90 | TypeError exactly when a guard cannot search its section; otherwise the base name alone when there are no parts |
| ModelsSweep.UnsearchableModelRaises | src/models/sweep.py:70-88 | a `model` section of None or a string holding "backend", or a numeric `batching` section, makes the guards raise TypeError |
| ModelsSweep.SweepNameSplits | src/models/sweep.py:68-90 | a name that is produced splits back at "_" into the base name and the parts when none of them holds "_" |
| ModelsSweep.NameLeadsWithBackend | src/models/sweep.py:73-76 | a string backend is the first part of the name |
| ModelsSweep.NumericPartsRead | src/models/sweep.py:82-88 | integer timeouts name as "<n>ms" and batch sizes as "batch<n>", whose number reads back |
| ServerSweep.Padded | src/server/utils/sweep.py:91-92 | the list keeps its items and is extended with empty dictionaries up to the index |
| ServerSweep.SetFinal | src/server/utils/sweep.py:104-115 | a dictionary gets the key set; a list gets the key set in its first element, adding or replacing that element as needed; anything else is left alone |
| ServerSweep.SetAt | src/server/utils/sweep.py:79-115 | a digit segment meeting a non-list is a ValueError and a word segment meeting a non-dictionary a TypeError; otherwise a list padded to the index, or a dictionary gaining the key |
| ServerSweep.SetAtCreates | src/server/utils/sweep.py:99-101 | a missing key becomes a list exactly when a digit segment follows it, otherwise a dictionary |
| ServerSweep.SetAtReadsBack | src/server/utils/sweep.py:79-115 | setting a reachable path succeeds, reads back the value, and leaves every path apart from it as it was |
| ServerSweep.SetAtKeepsReachable | src/server/utils/sweep.py:79-115 | setting one path keeps every path apart from it reachable |
| ServerSweep.PathOf | src/server/utils/sweep.py:79 | every field's path has a parent and a final key |
| ServerSweep.PathWords | src/server/utils/sweep.py:79-87 | the segments of every field path are words, except the instance index "0" |
| ServerSweep.ApartAt | src/server/utils/sweep.py:79-87 | paths equal up to a segment holding different words part there |
| ServerSweep.KnobsApart | src/server/utils/sweep.py:12-66 | the paths of two different fields part |
| ServerSweep.Reach2 | src/server/utils/sweep.py:15-17 | a present section.key field is reachable and reads as found |
| ServerSweep.Reach3 | src/server/utils/sweep.py:27-30 | a present section.sub.key field is reachable and reads as found |
| ServerSweep.ReachFirst | src/server/utils/sweep.py:34-41 | a key of the first dictionary in a non-empty list is reachable through index 0 |
| ServerSweep.FieldIsGuardedRead | src/server/utils/sweep.py:15-16 | whenever the guarded read `section in config and key in config[section]` does not raise, it reads what Field reads |
| ServerSweep.Current | src/server/utils/sweep.py:12-66 | a field's value where the source looks for it is reachable at its path and reads there |
| ServerSweep.ListParam | src/server/utils/sweep.py:12-66 | a parameter exactly when the field holds a list, with that field and list |
| ServerSweep.Collect | src/server/utils/sweep.py:12-66 | the fields that hold a list, in the given order, sweepable |
| ServerSweep.SweepParams | src/server/utils/sweep.py:12-66 | the swept fields in the source's order, each once, each holding a list |
| ServerSweep.ValuesOf | src/server/utils/sweep.py:72 | one list of values per swept field |
| ServerSweep.ApplyStep | src/server/utils/sweep.py:78-115 | setting the next field succeeds and keeps the earlier fields set, the later ones reachable and every other path unchanged |
| ServerSweep.ApplyStart | src/server/utils/sweep.py:76 | before any field is set the copy is the configuration |
| ServerSweep.Apply | src/server/utils/sweep.py:76-115 | each swept field reads its value of the combination and every path apart from them reads as in the configuration |
| ServerSweep.ApartDiverge | src/server/utils/sweep.py:79-87 | paths that part also differ as plain keys |
| ServerSweep.EffectPathsApart | src/server/utils/sweep.py:117-128 | the paths the quantization side effects write part from every swept field and from each other |
| ServerSweep.Position | src/server/utils/sweep.py:118-120 | where a field sits among the swept ones, or nowhere |
| ServerSweep.QuantModeOf | src/server/utils/sweep.py:118-120 | the combination's quantization mode, when that field is swept |
| ServerSweep.QuantEffects | src/server/utils/sweep.py:117-128 | an unknown or unswept mode changes nothing; the only failure is a TypeError |
| ServerSweep.AtWord | src/server/utils/sweep.py:99-102 | a path read through a word goes through a dictionary holding it |
| ServerSweep.EffectsSetup | src/server/utils/sweep.py:117-128 | with the mode swept, model is a dictionary, model.quantized can be written and the written paths part from the swept fields, with model.mps unchanged |
| ServerSweep.MpsNavigable | src/server/utils/sweep.py:124-127 | with model.mps absent or a dictionary, model.mps.fp16 can be written |
| ServerSweep.Int8Expands | src/server/utils/sweep.py:121-122 | "int8" sets model.quantized and nothing else |
| ServerSweep.FpExpands | src/server/utils/sweep.py:123-128 | "fp16" and "fp32" set model.mps.fp16 to whether the mode is fp16, clear model.quantized, and change nothing else |
| ServerSweep.EffectsExpand | src/server/utils/sweep.py:117-128 | the side effects succeed unless model.mps blocks them, and leave an expansion |
| ServerSweep.BlockedFails | src/server/utils/sweep.py:124-127 | a model.mps that is not a dictionary makes "fp16" and "fp32" fail with a TypeError |
| ServerSweep.EffectsFail | src/server/utils/sweep.py:117-128 | the side effects fail only on a blocked model.mps |
| ServerSweep.EffectsSucceed | src/server/utils/sweep.py:117-128 | side effects that succeed leave an expansion |
| ServerSweep.MpsApart | src/server/utils/sweep.py:124-127 | model.mps parts from every swept field |
| ServerSweep.ExpandSweep | src/server/utils/sweep.py:6-132 | TypeError whenever a guard cannot search its section; otherwise the configuration alone without a swept field, a TypeError only when model.mps blocks fp16 or fp32, else one expansion per combination in product order |
| ServerSweep.ShortMode | src/server/utils/sweep.py:159-160 | the three known compile modes get shorter names and every other mode keeps its own |
| ServerSweep.Part | src/server/utils/sweep.py:140-190 | at most one part per field; every field but the timeout and batch size names itself only when it is a string |
| ServerSweep.Parts | src/server/utils/sweep.py:138-190 | at most one part per field, in order |
| ServerSweep.SweepName | src/server/utils/sweep.py:135-192 | TypeError exactly when a guard cannot search its section; otherwise the base name alone when no field names a part |
| ServerSweep.PartInName | src/server/utils/sweep.py:138-190 | every present field's part is in the name |
| ServerSweep.CompileModeNamed | src/server/utils/sweep.py:153-160 | a compile mode shows by its short name, "max-autotune" as "ma" |
| ServerSweep.SweepNameSplits | src/server/utils/sweep.py:135-192 | a name that is produced splits back at "_" into the base name and the parts when none holds "_" |
| Combinations.Prefixed | src/server/utils/sweep.py:75 | one combination per tail, each the head followed by that tail |
| Combinations.SpreadSize | src/server/utils/sweep.py:75 | each head before every tail gives heads times tails combinations |
| Combinations.SpreadAt | src/server/utils/sweep.py:75 | entry q times the tail count plus r is head q before tail r |
| Combinations.SpreadMembers | src/server/utils/sweep.py:75 | every entry is a head followed by a tail |
| Combinations.SpreadHas | src/server/utils/sweep.py:75 | every head followed by every tail is an entry |
| Combinations.ProductSize | src/server/utils/sweep.py:75 | there are as many combinations as the product of the list lengths |
| Combinations.ProductAt | src/server/utils/sweep.py:75 | the product's order: combination q times m plus r takes element q of the first list followed by combination r of the others |
| Combinations.ProductPicks | src/server/utils/sweep.py:75 | every combination picks one element from each list, in list order |
| Combinations.ProductComplete | src/server/utils/sweep.py:75 | every way of picking one element from each list is a combination |
| ConfigValue.Or | src/models/config_loader.py:136 | Python's or: the first value when it is truthy, else the second |
| ConfigValue.Get | src/server/utils/config_loader.py:36 | a dictionary's value for the key or the default; anything else has no get |
| ConfigValue.Lookup | src/server/utils/config_loader.py:37 | a dictionary's value for the key or the default |
| ConfigValue.ParseInt | src/server/utils/sweep.py:89 | a string of digits reads as its number |
| ConfigValue.Truncate | src/server/utils/sweep.py:185 | int() of a float drops the fraction toward zero |
| ConfigValue.IntOf | src/server/utils/sweep.py:185 | int() of ints, booleans and floats, and a TypeError exactly for None and containers |
| ConfigValue.FloatOf | src/server/utils/config_loader.py:176 | float() of numbers and booleans, and a TypeError exactly for None and containers |
| ConfigValue.IntOfText | src/server/utils/sweep.py:185 | a number written out reads back as itself |
| ConfigValue.Merged | src/server/utils/config_loader.py:18-25 | the merge holds every key of either side |
| ConfigValue.MergeDocuments | src/server/utils/config_loader.py:115-129 | the merge of two loaded documents succeeds exactly when both are dictionaries, and is their merge |
| ConfigValue.DeepMerge | src/server/utils/config_loader.py:18-25 | the loop computes the merge: base keys kept, dictionaries on both sides merged, every other override value taken |
| ConfigValue.MergeOverrideWins | src/server/utils/config_loader.py:18-25 | a leaf the override sets is what the merge holds there |
| ConfigValue.MergeBaseFills | src/server/utils/config_loader.py:18-25 | a path the override is silent about reads as in the base |
| ConfigValue.MergeSelf | src/server/utils/config_loader.py:18-25 | merging a dictionary into itself changes nothing |
| ConfigValue.MergeIdempotent | src/server/utils/config_loader.py:18-25 | merging the same override twice is merging it once |
| ConfigValue.MergeEmpty | src/server/utils/config_loader.py:18-25 | an empty side contributes nothing |
| ConfigValue.SetIn | src/models/sweep.py:55-61 | setting along dictionaries gives a dictionary, and the only failure is a TypeError |
| ConfigValue.SetInReadsBack | src/models/sweep.py:55-61 | setting a navigable path succeeds, reads back, and leaves every path that parts from it as it was |
| ConfigValue.AtEmpty | src/models/sweep.py:58-59 | below a fresh dictionary only the empty path holds something |
| ConfigValue.DivergeAbsent | src/models/sweep.py:58-59 | what is built inside a fresh dictionary is invisible from any path that parts from the one set |
| ConfigValue.SetInKeepsNavigable | src/models/sweep.py:55-61 | setting one path keeps every path that parts from it navigable |
| ModelsConfigLoader.Fp16Fallback | src/models/config_loader.py:43-45 | "fp16" exactly when use_fp16 is missing or truthy, otherwise "fp32" |
| ModelsConfigLoader.EntryOf | src/models/config_loader.py:38-48 | an AttributeError exactly for an entry that is not a dictionary; otherwise every key the entry has is kept and every missing one falls back on its default |
| ModelsConfigLoader.SourceOf | src/models/config_loader.py:36-75 | unsearchable when the model_pool guard raises; otherwise model_pool.instances first, then models, then model, else nothing |
| ModelsConfigLoader.Elements | src/models/config_loader.py:37 | a list yields its items; None, booleans and numbers cannot be iterated |
| ModelsConfigLoader.Entries | src/models/config_loader.py:37-61 | every entry read in order exactly when every entry is a dictionary; otherwise an AttributeError |
| ModelsConfigLoader.Instances | src/models/config_loader.py:31-77 | TypeError for an unsearchable model_pool, one named default instance without any model section, and one instance for a single model section |
| ModelsConfigLoader.InstancesAsWritten | src/models/config_loader.py:31-77 | the same instances whenever some model section is present |
| ModelsConfigLoader.EmptyConfigInstances | src/models/config_loader.py:74-75 | an empty configuration fails as written, and the corrected loader gives the default instance an empty model section would give |
| ModelsConfigLoader.ParseModelInstances | src/models/config_loader.py:31-77 | the loop computes the instances, with the named default when no model section is present |
| ModelsConfigLoader.PoolFirst | src/models/config_loader.py:36-50 | model_pool.instances wins over models and model |
| ModelsConfigLoader.ListedBeforeSingle | src/models/config_loader.py:50-62 | models wins over model |
| ModelsConfigLoader.PoolQuantization | src/models/config_loader.py:43-57 | a pool entry without quantization takes "fp32" exactly when use_fp16 is false; a models entry takes "fp16" |
| ModelsConfigLoader.Section | src/models/config_loader.py:85 | a missing section reads as none; only a dictionary has get |
| ModelsConfigLoader.ParseBatching | src/models/config_loader.py:80-91 | the class defaults without the section; otherwise each key the section has, else the same defaults |
| ModelsConfigLoader.ParseTokenizer | src/models/config_loader.py:94-104 | the class defaults without the section; otherwise each key it has, else disabled with one worker |
| ModelsConfigLoader.ParseServer | src/models/config_loader.py:107-118 | the class defaults without the section; otherwise each key it has, else the same defaults |
| ModelsConfigLoader.SectionDefaults | src/models/config_loader.py:80-118 | an empty batching or server section reads like a missing one; an empty tokenizer-pool section is disabled with one worker where a missing one is enabled with three |
| ModelsConfigLoader.Document | src/models/config_loader.py:132-136 | a falsy document reads as an empty dictionary |
| ModelsConfigLoader.Build | src/models/config_loader.py:141-154 | the configuration exactly when every section parses, with the instances as written, holding those sections and the name; a ValidationError on name without any model section |
| ModelsConfigLoader.Loaded | src/models/config_loader.py:121-154 | a FileNotFoundError exactly for a missing file |
| ModelsConfigLoader.LoadConfig | src/models/config_loader.py:121-154 | the loader reads the documents, merges them and builds the configuration, refusing a merge without any model section |
| ModelsConfigLoader.LoadedMerges | src/models/config_loader.py:127-139 | two non-empty documents load to the configuration of their merge |
| ModelsConfigLoader.NameOverride | src/models/config_loader.py:138-152 | the experiment's name overrides the base's, and the base's fills in when the experiment has none |
| ModelsConfigLoader.ServerFromBase | src/models/config_loader.py:138-145 | a server section only the base has is read from the base |
| ModelsConfigLoader.ExperimentName | src/models/config_loader.py:157-162 | the configuration's name when it is not empty, else the file's stem |
| ModelsConfigLoader.UnnamedUsesFileName | src/models/config_loader.py:157-162 | an unnamed experiment in dir/base.yaml is called base |
| ServerConfigLoader.ParseNetwork | src/server/utils/config_loader.py:101-112 | the class defaults without the section; otherwise each key it has, grpc_port falling back on port and then 50051 |
| ServerConfigLoader.GrpcPortPrecedence | src/server/utils/config_loader.py:108 | the gRPC port is grpc_port if given, else port, else 50051 |
| ServerConfigLoader.Build | src/server/utils/config_loader.py:115-143 | the configuration exactly when every section parses, with one named default instance when no model section is present |
| ServerConfigLoader.Loaded | src/server/utils/config_loader.py:115-143 | a FileNotFoundError exactly for a missing file |
| ServerConfigLoader.LoadConfig | src/server/utils/config_loader.py:115-143 | the loader reads the documents, merges them and builds the configuration |
| ServerConfigLoader.EmptyFileLoads | src/server/utils/config_loader.py:70-71 | an empty experiment with no base loads one default instance here, while the client-side loader as written fails with a ValidationError on name |
| ServerConfigLoader.HydraEntryOf | src/server/utils/config_loader.py:151-162 | an AttributeError exactly for an entry that is not a dictionary; missing keys fall back, quantization on "fp16" and compile mode on None |
| ServerConfigLoader.HydraEntries | src/server/utils/config_loader.py:150-163 | every entry read in order exactly when every entry is a dictionary |
| ServerConfigLoader.HydraInstances | src/server/utils/config_loader.py:149-165 | TypeError when the model_pool guard raises, the pool's instances when it holds them, otherwise one default instance |
| ServerConfigLoader.ReadHydraInstances | src/server/utils/config_loader.py:149-165 | the loop computes the instances |
| ServerConfigLoader.HydraSection | src/server/utils/config_loader.py:168 | an absent section reads as empty; a section that is not a dictionary has no get |
| ServerConfigLoader.HydraToConfig | src/server/utils/config_loader.py:146-195 | success exactly when the instances, the three sections and the timeout are well formed; then the instances are those read, every tokenizer-pool, batching and server field is the section's value or its fallback (enabled with three workers, timeout 100.0 as a float), and the name and description are read with "" as fallback |
| ServerConfigLoader.HydraEmpty | src/server/utils/config_loader.py:146-195 | no sections give one default instance, an enabled tokenizer pool of three workers and the batching and server defaults |
| ServerConfigLoader.HydraTimeout | src/server/utils/config_loader.py:176 | an integer timeout converts to the same number as a float |
| ServerConfigLoader.ExperimentName | src/server/utils/config_loader.py:198-203 | the name when not empty, else the path's stem, else "experiment" |
| ServerConfigLoader.UnnamedUsesFileName | src/server/utils/config_loader.py:198-203 | an unnamed experiment in dir/base.yaml is called base |
| MlConfigLoader.BasePath | ml_inference_server/utils/config_loader.py:32-34 | a base path that is given is used as it is |
| MlConfigLoader.Loaded | ml_inference_server/utils/config_loader.py:36-52 | a FileNotFoundError for the base file first, then for the experiment file |
| MlConfigLoader.LoadExperimentConfig | ml_inference_server/utils/config_loader.py:20-52 | the loader merges the experiment over the base and writes the three metadata keys |
| MlConfigLoader.LoadedMetadata | ml_inference_server/utils/config_loader.py:44-50 | two dictionaries load to their merge plus the experiment's name ("unnamed" without one), its description ("" without one) and its path; every other key is the merge's |
| MlConfigLoader.Chosen | ml_inference_server/utils/config_loader.py:70-72 | never more paths than listed names |
| MlConfigLoader.ChosenMembers | ml_inference_server/utils/config_loader.py:70-72 | a path is chosen exactly when it joins the directory with a ".yaml" name other than base_config.yaml |
| MlConfigLoader.ListAvailableExperiments | ml_inference_server/utils/config_loader.py:55-74 | the listing is sorted and a permutation of the chosen paths |
| MlConfigLoader.ListedPaths | ml_inference_server/utils/config_loader.py:69-74 | the sorted listing holds exactly the chosen paths |
| MlConfigLoader.BaseNotListed | ml_inference_server/utils/config_loader.py:71 | the base document is never listed |
| FileNames.Components | src/models/config_loader.py:162 | the path components kept are never empty or "." |
| FileNames.Name | src/models/config_loader.py:162 | a file name holds no separator |
| FileNames.LastIndex | src/models/config_loader.py:162 | the last occurrence of a character, or -1 when it does not occur |
| FileNames.DotAt | src/models/config_loader.py:162 | the extension starts at the last dot, which is neither the first nor the last character |
| FileNames.Suffix | src/models/config_loader.py:162 | the suffix is empty or a dot followed by no other dot |
| FileNames.StemSuffix | src/server/utils/config_loader.py:202 | the stem followed by the suffix is the file name |
| FileNames.YamlFile | src/server/utils/config_loader.py:202 | dir/base.yaml has the name base.yaml, the stem base and the suffix .yaml |
| FileNames.SplitPartFree | src/models/config_loader.py:162 | no component holds a separator |
| FileNames.LastPiece | src/models/config_loader.py:162 | the name of dir/n is n for a plain name n |
| CoreConfig.ParseBackend | ml_inference_server/core/config.py:16-19 | a backend exactly for the five admitted names, and its name is the one parsed |
| CoreConfig.DefaultInstance | ml_inference_server/core/config.py:11-27 | every instance option at its declared default |
| CoreConfig.MakeBatching | ml_inference_server/core/config.py:43-52 | a batching section exactly when the batch size is at least 1 and the timeout non-negative |
| CoreConfig.MakeNetwork | ml_inference_server/core/config.py:55-61 | a network section exactly when both ports lie in 1..65535 and there is at least one gRPC worker |
| CoreConfig.MakeExperiment | ml_inference_server/core/config.py:64-70 | an experiment section exactly when it asks for at least one request and no negative warm-up count |
| CoreConfig.DefaultsWithinBounds | ml_inference_server/core/config.py:43-70 | the declared defaults satisfy the field bounds |
| CoreConfig.EnsureModelConfig | ml_inference_server/core/config.py:124-132 | with neither pool nor model the default legacy model is installed, else nothing changes; a pool or a model is set afterwards |
| CoreConfig.ConvertLegacy | ml_inference_server/core/config.py:153-189 | a ValueError exactly for a backend outside the admitted five; name, device and backend copied; each backend's options from its own section, an absent key at its default; pytorch keeps every default |
| CoreConfig.GetModelPoolConfig | ml_inference_server/core/config.py:134-151 | the configured pool, else the converted legacy model alone with round-robin routing, else a ValueError |
| CoreConfig.ValidatedConfigHasPool | ml_inference_server/core/config.py:124-151 | after validation a pool is always found unless the legacy backend is not admitted; with nothing configured it is the default model on pytorch |
| ClientExperimentConfig.Ints | src/client/experiment_config.py:21 | the conversion succeeds exactly when every element converts, element by element, and otherwise fails with some element's error |
| ClientExperimentConfig.Listify | src/client/experiment_config.py:17-22 | None gives the fallback, a list each element converted, anything else a list of one |
| ClientExperimentConfig.ListSetting | src/client/experiment_config.py:30-33 | the argument's conversion error comes first; a missing key gives the argument alone |
| ClientExperimentConfig.Duration | src/client/experiment_config.py:35-38 | the document's duration unless it is None, else the argument's, as a float |
| ClientExperimentConfig.Prefill | src/client/experiment_config.py:39-42 | the document's warm-up count unless it is None, else the argument's, a falsy value giving 0 |
| ClientExperimentConfig.FromSources | src/client/experiment_config.py:25-53 | a truthy non-dictionary document has no get; otherwise name and description are read with their fallbacks (see DocumentValuesWin for the other fields) |
| ClientExperimentConfig.DocumentValuesWin | src/client/experiment_config.py:25-53 | a value in the experiment section wins over the argument: its batch-size and concurrency lists, a non-zero request count or dataset size, its prefill count and its duration |
| ClientExperimentConfig.BatchSizesOverride | src/client/experiment_config.py:25-53 | batch_sizes [1, 2] in the document with batch_size 8 as argument gives batch sizes [1, 2] |
| ClientExperimentConfig.NoDocumentUsesArgs | src/client/experiment_config.py:26-43 | no document and an empty one both give the arguments' settings |
| ClientExperimentConfig.SpelledOutMatchesArgs | src/client/experiment_config.py:25-53 | a document spelling out the non-zero arguments gives the same settings as none |
| ClientExperimentConfig.IntsOne | src/client/experiment_config.py:21 | a list of one convertible value converts to a list of one |
| ClientExperimentConfig.ZeroSettings | src/client/experiment_config.py:34-43 | a zero request count or data-set size falls back on the arguments, but a zero duration or warm-up count is kept |
| HydraToClient.ConfigPath | scripts/hydra_to_client_config.py:16-19 | the given path, else conf/experiment/<name>.yaml under the project root |
| HydraToClient.WithQuantization | scripts/hydra_to_client_config.py:45-53 | other keys kept; "fp16" sets mps.fp16, "fp32" clears it, "int8" marks the model quantized in mode int8 |
| HydraToClient.ModelOf | scripts/hydra_to_client_config.py:38-53 | the model block carries the instance's name, backend and device or their defaults |
| HydraToClient.FirstModel | scripts/hydra_to_client_config.py:35-43 | no block for an empty value; otherwise that of the first instance, which must be a dictionary |
| HydraToClient.BatchingOf | scripts/hydra_to_client_config.py:56-63 | exactly the four client keys, each from its source key or the converter's default |
| HydraToClient.PoolModel | scripts/hydra_to_client_config.py:35-36 | TypeError when the model_pool guard raises, a block only when model_pool has instances, none otherwise |
| HydraToClient.Assemble | scripts/hydra_to_client_config.py:29-67 | name and description with their fallbacks; model, batching and experiment present exactly when given; no other key |
| HydraToClient.Converted | scripts/hydra_to_client_config.py:25-69 | a loaded value that is not a dictionary has no get; otherwise the name falls back on the experiment name |
| HydraToClient.Loaded | scripts/hydra_to_client_config.py:21-22 | a FileNotFoundError exactly for a missing file |
| HydraToClient.HydraToClientConfig | scripts/hydra_to_client_config.py:11-69 | the dictionary built key by key is the converted one |
| HydraToClient.PrecisionFlags | scripts/hydra_to_client_config.py:46-53 | "fp16" or no quantization sets mps.fp16, "fp32" clears it, "int8" marks the model quantized |
| HydraToClient.ClientReadsFirstInstance | scripts/hydra_to_client_config.py:35-43 | the client loader reads the converted document as one instance with the first pool instance's name, device and backend |
| HydraToClient.ConvertedModel | scripts/hydra_to_client_config.py:39 | the pool's model block is the converted document's model |
| HydraToClient.ReadsModelBlock | scripts/hydra_to_client_config.py:39-43 | a document with only a model block is read as one instance |
| HydraToClient.BatchingRenamed | scripts/hydra_to_client_config.py:56-63 | the batching settings keep their values under the client's names |
| ConfigValue.GuardedRead | src/models/sweep.py:24-25 | None when the section is missing or lacks the key, the value when the section is a dictionary holding it, and TypeError exactly when the section is None, a bool, a number, or a string or list in which `in` finds the key |
| ConfigValue.GuardedReadCases | src/models/sweep.py:24 | a dictionary section never raises, a None or numeric section always does, and a string section raises exactly when the key occurs in it |
| Text.Contains | src/models/sweep.py:24 | `in` on strings: true exactly when the key occurs at some position of the string |
| Decimal.RoundScaled | src/models/server_metrics.py:474-477 | an integer with the value's sign |
| Decimal.RoundScaledWithin | src/models/server_metrics.py:474-477 | the integer lies within one half of the value times 10^d |
| Decimal.Rounded | src/models/server_metrics.py:585-586 | non-negative for a non-negative value |
| Decimal.RoundedWithin | src/models/server_metrics.py:585-586 | the rounded value lies within half a unit of the last kept place of the value |
| Decimal.RoundedAtMost | src/models/server_metrics.py:585-586 | rounding never lifts a value above a whole-number bound it respects |
| Decimal.ParseFixedText | src/client/timeseries_writer.py:75-76 | the fixed-point text reads back through float() as exactly the rounded value |
| Text.IntToString | src/models/sweep.py:82 | never empty |
| Text.IntToStringReads | src/models/sweep.py:82 | a non-negative integer's digits, or a minus sign and its magnitude's digits, which read back as the integer |
| Text.SplitJoin | src/models/sweep.py:90 | splitting a join at a separator none of the parts contains gives the parts back |
| Text.StripPadded | src/screenshot.py:45 | a trimmed cell padded with one space on each side strips back to the cell |
| Text.StripNonBlank | src/screenshot.py:43 | text that starts with a non-space character does not strip to "" |
| Text.ReplaceAll | src/screenshot.py:265 | text shorter than the pattern is unchanged (see ReplaceAllUnchanged, ReplaceAllSkips and StripResultsSuffix) |
| Text.ReplaceAllUnchanged | src/screenshot.py:265 | text without the pattern is unchanged, and the pattern alone becomes the replacement |
| Text.ReplaceAllSkips | src/screenshot.py:265 | the text before the first occurrence is copied unchanged and the scan continues after it |
| Text.ReplaceAllFirst | src/screenshot.py:265 | the first occurrence, inside longer text, becomes the replacement |
| Text.StripResultsSuffix | src/screenshot.py:265 | a name ending in "_results" and not holding it elsewhere loses exactly that suffix |
| Text.SortStrings | ml_inference_server/utils/config_loader.py:74 | sorted in Python's string order and a permutation of the input |
| PyDict.Empty | src/models/server_metrics.py:225 | no entries and an empty insertion order |
| PyDict.Put | src/models/server_metrics.py:422-423 | the key maps to the value; a new key is appended to the insertion order and an existing one keeps its place; every key stays listed once |
| PyDict.Remove | src/server/dto/metrics/stage.py:59-61 | the key leaves both the entries and the order, the rest keep their order, and an absent key changes nothing |
| PyDict.Values | src/models/server_metrics.py:443 | one result per key in insertion order, each the function of that key's entry |
| PyDict.MapValues | src/models/server_metrics.py:661-664 | the same keys in the same order, each entry replaced by the function of itself |
| SeqMath.Push | src/models/server_metrics.py:184 | a deque with maxlen never holds more than the cap |
| SeqMath.PushKeepsNewest | src/models/server_metrics.py:184 | appending grows the deque by one until it is full, then drops the oldest; the new entry is last |
| SeqMath.PySlice | src/server/scheduler.py:98 | within range the ordinary slice, and bounds past the end clamped: the length is the clamped span |
| SeqMath.PySliceEntries | src/server/scheduler.py:98 | whatever the bounds, entry i of the slice is the source's entry a + i |

## Left out

- Sockets, HTTP and gRPC transport, Prometheus and system probes, file and directory I/O: a file's content or a directory listing is a parameter, and a missing file is an absent one.
- Processes, threads, queues, events and locks: the batch threads, worker pools and waits are modelled as one sequential step at a time. Interleavings and timeouts measured against a real clock are not modelled.
- Inference backends and tokenizers are foreign calls: a backend is a scoring function, its timing fields and an optional exception.
- `torch.randint` in inference-only mode: the random token ids are not modelled; the model's score of each random row is an input of the workers (`rowScore`).
- numpy percentiles, standard deviation and `_get_percentile` are function parameters; no property of them is assumed.
- Rounding: Python's `round(x, n)` and `f"{x:.nf}"` work on the binary double nearest to x and break exact ties to even. Decimal.RoundScaled, Decimal.Rounded and Decimal.FixedText round the exact decimal half away from zero instead. The two disagree on every tie: `round(0.25, 1)` is 0.2 and `round(0.15, 1)` is 0.1 in Python, but 0.3 and 0.2 in the model; `f"{0.125:.2f}"` is "0.12" and `f"{100.5:.0f}"` is "100", but "0.13" and "101" in the model. JavaScript `toFixed` rounds an exact tie up, as the model does; it differs only where the double lies below the decimal, as with 1.005.
- ServerMetrics.PercentagesOf: rounds half away from zero on exact decimals, not half to even on doubles (see Rounding).
- ServerMetrics.PaddingSummaryOf: rounds half away from zero on exact decimals, not half to even on doubles (see Rounding).
- DtoMetrics.PaddingTracker.Stats: rounds half away from zero on exact decimals, not half to even on doubles (see Rounding).
- MlComponents.MeanPct: rounds half away from zero on exact decimals, not half to even on doubles (see Rounding).
- MlComponents.StageMetricsGroup.Percentages: rounds half away from zero on exact decimals, not half to even on doubles (see Rounding).
- MlComponents.PaddingAnalyzer.Stats: rounds half away from zero on exact decimals, not half to even on doubles (see Rounding).
- MlComponents.StageMetricsGroup.QueueWaitReport: rounds half away from zero on exact decimals, not half to even on doubles (see Rounding).
- TimeseriesWriter.Fmt: formats with `.1f` and `.2f` rounding half away from zero on exact decimals, not half to even on doubles (see Rounding).
- Text.IsSpace: `strip()` removes only the six ASCII whitespace characters. Python also strips Unicode whitespace such as U+00A0 and U+2028. A markdown cell padded with such characters keeps them in Screenshot and TimeseriesRoundTrip.
- ClientExperimentConfig.FromSources: `name` and `description` are kept as the values read, not passed through `str()`. A string is unaffected. A number, bool, list or dictionary stays that value rather than becoming its text, because Python's `str()` of floats and containers is not modelled.
- Screenshot.ComputeSummaryStats: keeps the stage percentages unrounded, where the source rounds them for display.
- Floating-point overflow, NaN and infinity are not modelled; Python `float()` is modelled on decimal text of the form `[-]digits[.digits]`.
- DOM and Chart.js plumbing, polling timers and card templates: only the values written into charts and bars are modelled.
- argsort: numpy's `argsort` is not stable. It is modelled by a stable insertion argsort, and only sortedness and permutation are proved about it.
- LengthAwareBatching: `get_length_stats` and the logging in `reorder_pairs_for_efficient_batching` are not modelled.
- The ML collector's CPU and GPU readings are parameters.
- SchedulerService.SchedulerService.Await: the timeout error carries its message without the number of seconds.
- MlScheduler.Scheduler.Schedule: `ModelPool.infer` and `infer_with_timing` are folded into this step, with the backend as a parameter.
- DtoMetrics.StageTracker.constructor: requires a non-negative `maxlen`, where Python raises ValueError for a negative one.
- PipelineBase: the `reset_*_worker_metrics` forwarders and the signal handlers are not modelled.
- MlModelPool.ModelPool.ReleaseBackend: it is a no-op in the source, so it has no contract.
- `load_config_from_dict` in `ml_inference_server/core/config.py` is a pydantic constructor call with no logic of its own beyond the legacy-key rename; it is not modelled.
- Pydantic's coercion of field values (strings to numbers and the like) is not modelled; the `Make...` functions check only the declared bounds.
- The `__main__` command-line handling of `scripts/hydra_to_client_config.py` is not modelled.

## Findings

| source | as written | input that shows it | evidently intended | confidence | as-written member | corrected member |
|---|---|---|---|---|---|---|
| src/screenshot.py:70 | the parser looks for a "Queue (ms)" column; the writer titles it "Queue Wait (ms)" (src/client/timeseries_writer.py:34) | any written file with a queue-wait value | the queue-wait series reads back as written | not executed | TimeseriesRoundTrip.QueueWaitLost | TimeseriesRoundTrip.CorrectedRoundTrip |
| src/models/config_loader.py:75 | with no model section, `ModelConfig()` is built without its required `name` and validation fails | the empty configuration `{}` | a single default model instance, as src/server/utils/config_loader.py:71 builds | not executed | ModelsConfigLoader.EmptyConfigInstances | ModelsConfigLoader.Instances |
| src/frontend/server.py:149-151 | the path after "/static/" is joined to the static directory without a containment check | GET "/static/../server.py" | only files inside the static directory are served, as ml_inference_server/metrics/http_server.py:162-171 checks | not executed | FrontendServer.StaticEscapesAsWritten | FrontendServer.SendStatic |
| src/server/scheduler.py:89-98 | with length-aware batching, the joined pairs are sorted by length and the sorted scores are sliced by request, without restoring the order (also src/server/services/scheduler_service.py:116, 130 and src/server/pipeline/queue_based.py:336, 371) | requests [("aaaa","aaaa")] then [("a","a")] | each request receives the scores of its own pairs | not executed | BatchScatter.LengthAwareMisassigns | BatchScatter.RestoredAssignsOwnScores |
