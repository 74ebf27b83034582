/** Reading a markdown timeseries file back for the static dashboard, the
    summary statistics computed from it, and the search for the file of an
    experiment (src/screenshot.py). */
module Screenshot {
  import opened Wrappers
  import opened Text
  import opened Decimal
  import opened SeqMath

  /** A parsed table cell: "-" is None, a numeral is a float, anything else
      stays a string. */
  datatype Cell = Missing | Number(value: real) | Word(text: string)

  /** Cells by column title (`data` in the source). */
  type Table = map<string, seq<Cell>>

  /** The dictionary `parse_timeseries_markdown` returns: the experiment name,
      the synthetic timestamps and one series per output key. */
  datatype Parsed = Parsed(experimentName: string, timestamps: seq<real>, series: map<string, seq<Cell>>)

  const Marker: string := "**Experiment:** "
  const TablePrefix: string := "| Index |"

  /** The first position at or after i where `pat` occurs in `line`. */
  function FindFrom(line: string, pat: string, i: nat): (r: Option<nat>)
    decreases |line| - i
    ensures r.Some? ==> i <= r.value && OccursAt(line, pat, r.value)
    ensures r.Some? ==> forall k :: i <= k < r.value ==> !OccursAt(line, pat, k)
    ensures r.None? ==> forall k :: i <= k ==> !OccursAt(line, pat, k)
  {
    if i + |pat| > |line| then None
    else if line[i..i + |pat|] == pat then Some(i)
    else FindFrom(line, pat, i + 1)
  }

  /** What `\*\*Experiment:\*\* (.+)` captures within one line: the rest of
      the line after the first marker, provided it is not empty. A later
      marker on the same line would end past the line, and `.` never
      crosses a newline, so the first marker of a line decides that line. */
  function MarkerMatch(line: string): Option<string>
  {
    match FindFrom(line, Marker, 0)
    case None => None
    case Some(i) => if i + |Marker| < |line| then Some(line[i + |Marker|..]) else None
  }

  /** `re.search` over the whole text, then `.group(1).strip()`, or
      "Unknown Experiment" when nothing matches. */
  function ExperimentName(lines: seq<string>): string
  {
    if lines == [] then "Unknown Experiment"
    else match MarkerMatch(lines[0])
      case Some(g) => Strip(g)
      case None => ExperimentName(lines[1..])
  }

  /** The first line at or after `from` that starts with "| Index |". */
  function HeaderIndex(lines: seq<string>, from: nat): (r: Option<nat>)
    decreases |lines| - from
    ensures r.Some? ==> from <= r.value < |lines| && StartsWith(lines[r.value], TablePrefix)
    ensures r.Some? ==> forall k :: from <= k < r.value ==> !StartsWith(lines[k], TablePrefix)
    ensures r.None? ==> forall k :: from <= k < |lines| ==> !StartsWith(lines[k], TablePrefix)
  {
    if from >= |lines| then None
    else if StartsWith(lines[from], TablePrefix) then Some(from)
    else HeaderIndex(lines, from + 1)
  }

  /** `parts[1:-1]`. */
  function Inner(parts: seq<string>): seq<string>
  {
    if |parts| < 2 then [] else parts[1..|parts| - 1]
  }

  function StripAll(parts: seq<string>): (r: seq<string>)
    ensures |r| == |parts|
    ensures forall i :: 0 <= i < |parts| ==> r[i] == Strip(parts[i])
  {
    seq(|parts|, i requires 0 <= i < |parts| => Strip(parts[i]))
  }

  /** `[v.strip() for v in line.split("|")[1:-1]]`. */
  function Cells(line: string): seq<string>
  {
    StripAll(Inner(Split(line, '|')))
  }

  /** One cell: "-" is None; otherwise `float(value)`, or the text itself
      when that raises. */
  function ReadCell(v: string): (c: Cell)
    ensures c == Missing <==> v == "-"
    ensures c.Word? ==> c.text == v && ParseFloat(v).None?
  {
    if v == "-" then Missing
    else match ParseFloat(v)
      case Some(x) => Number(x)
      case None => Word(v)
  }

  /** `data.get(h, [])`. */
  function Lookup(t: Table, h: string): seq<Cell>
  {
    if h in t then t[h] else []
  }

  /** `for header, value in zip(headers, values)`: each value appended to
      the list under its header. */
  function AddRow(t: Table, headers: seq<string>, values: seq<string>): Table
    requires |headers| == |values|
    decreases |headers|
  {
    if headers == [] then t
    else AddRow(t[headers[0] := Lookup(t, headers[0]) + [ReadCell(values[0])]], headers[1..], values[1..])
  }

  /** A blank line or one not starting with a bar ends the table. */
  predicate EndOfTable(line: string)
  {
    Strip(line) == "" || !StartsWith(line, "|")
  }

  /** The data rows from `rows` on: a row with the wrong number of cells is
      skipped, the first blank or non-table line stops the reading. */
  function ReadRows(rows: seq<string>, headers: seq<string>, t: Table): Table
  {
    if rows == [] || EndOfTable(rows[0]) then t
    else
      var values := Cells(rows[0]);
      ReadRows(rows[1..], headers, if |values| == |headers| then AddRow(t, headers, values) else t)
  }

  /** `{h: [] for h in headers}`. */
  function EmptyTable(headers: seq<string>): (t: Table)
    ensures forall h :: h in headers ==> Lookup(t, h) == []
  {
    map h | h in headers :: []
  }

  /** The longest column; the order and repetition of `headers` do not
      matter, so this is the maximum over `data.values()`. */
  function MaxLength(t: Table, headers: seq<string>): (n: nat)
    ensures forall i :: 0 <= i < |headers| ==> |Lookup(t, headers[i])| <= n
    ensures n == 0 || exists i :: 0 <= i < |headers| && |Lookup(t, headers[i])| == n
  {
    if headers == [] then 0
    else
      var rest := MaxLength(t, headers[..|headers| - 1]);
      var last := |Lookup(t, headers[|headers| - 1])|;
      if last > rest then last else rest
  }

  /** `[v for v in cells if v is not None]`. */
  function Present(cells: seq<Cell>): (r: seq<Cell>)
    ensures forall i :: 0 <= i < |r| ==> r[i] != Missing
    ensures |r| <= |cells|
  {
    if cells == [] then []
    else Present(cells[..|cells| - 1]) + (if cells[|cells| - 1] == Missing then [] else [cells[|cells| - 1]])
  }

  /** An output key and the column title it is read from. */
  datatype Column = Column(key: string, title: string)

  /** The nine output series as the source reads them. */
  const AsWrittenColumns: seq<Column> := [
    Column("gpu_memory_mb", "GPU Mem (MB)"),
    Column("gpu_utilization_pct", "GPU Util (%)"),
    Column("cpu_percent", "CPU (%)"),
    Column("latencies", "Latency (ms)"),
    Column("throughput", "Throughput"),
    Column("tokenize_ms", "Tokenize (ms)"),
    Column("inference_ms", "Inference (ms)"),
    Column("queue_wait_ms", "Queue (ms)"),
    Column("padding_pct", "Padding (%)")
  ]

  /** The same nine series, with the queue wait read from the title the
      timeseries writer actually emits. */
  const CorrectedColumns: seq<Column> := [
    Column("gpu_memory_mb", "GPU Mem (MB)"),
    Column("gpu_utilization_pct", "GPU Util (%)"),
    Column("cpu_percent", "CPU (%)"),
    Column("latencies", "Latency (ms)"),
    Column("throughput", "Throughput"),
    Column("tokenize_ms", "Tokenize (ms)"),
    Column("inference_ms", "Inference (ms)"),
    Column("queue_wait_ms", "Queue Wait (ms)"),
    Column("padding_pct", "Padding (%)")
  ]

  /** The output series, each the non-None cells of its column (a missing
      column reads as empty). */
  function Outputs(t: Table, columns: seq<Column>): (r: map<string, seq<Cell>>)
    ensures forall i :: 0 <= i < |columns| ==> columns[i].key in r
  {
    if columns == [] then map[]
    else
      var c := columns[|columns| - 1];
      Outputs(t, columns[..|columns| - 1])[c.key := Present(Lookup(t, c.title))]
  }

  /** `[float(i) for i in range(n)]`. */
  function Indices(n: nat): (r: seq<real>)
    ensures |r| == n && forall i :: 0 <= i < n ==> r[i] == i as real
  {
    seq(n, i => i as real)
  }

  /** What `parse_timeseries_markdown` returns for a file's text, the
      output series read through `columns`. */
  function ParseWith(content: string, columns: seq<Column>): (r: Result<Parsed>)
    ensures HeaderIndex(Split(content, '\n'), 0).None? ==>
      r == Err(ValueError("Could not find timeseries table in markdown file"))
    ensures r.Ok? ==> HeaderIndex(Split(content, '\n'), 0).Some?
    ensures r.Ok? ==> r.value.experimentName == ExperimentName(Split(content, '\n'))
    ensures r.Ok? ==>
      |r.value.timestamps| > 0 &&
      forall k :: 0 <= k < |r.value.timestamps| ==> r.value.timestamps[k] == k as real
    ensures r.Ok? ==> forall i :: 0 <= i < |columns| ==> columns[i].key in r.value.series
  {
    var lines := Split(content, '\n');
    match HeaderIndex(lines, 0)
    case None => Err(ValueError("Could not find timeseries table in markdown file"))
    case Some(i) =>
      var headers := Cells(lines[i]);
      if headers == [] then Err(ValueError("Could not find timeseries table in markdown file"))
      else
        var rows := if i + 2 <= |lines| then lines[i + 2..] else [];
        var t := ReadRows(rows, headers, EmptyTable(headers));
        var n := MaxLength(t, headers);
        if n == 0 then Err(ValueError("max() arg is an empty sequence"))
        else Ok(Parsed(ExperimentName(lines), Indices(n), Outputs(t, columns)))
  }

  /** The parser as written. */
  function ParseTimeseries(content: string): (r: Result<Parsed>)
    ensures HeaderIndex(Split(content, '\n'), 0).None? ==>
      r == Err(ValueError("Could not find timeseries table in markdown file"))
    ensures r.Ok? ==> |r.value.timestamps| > 0
    ensures r.Ok? ==> forall i :: 0 <= i < |AsWrittenColumns| ==> AsWrittenColumns[i].key in r.value.series
  {
    ParseWith(content, AsWrittenColumns)
  }

  /** The parser with the queue-wait title the writer uses. */
  function ParseTimeseriesCorrected(content: string): Result<Parsed>
  {
    ParseWith(content, CorrectedColumns)
  }

  /** `parse_timeseries_markdown`, loop by loop: the header search, the row
      loop with its inner zip loop, and the maximum column length. */
  method ParseTimeseriesMarkdown(content: string, columns: seq<Column>) returns (r: Result<Parsed>)
    ensures r == ParseWith(content, columns)
  {
    var lines := Split(content, '\n');
    var i := FindHeader(lines);
    if i == |lines| {
      return Err(ValueError("Could not find timeseries table in markdown file"));
    }
    var headers := Cells(lines[i]);
    if headers == [] {
      return Err(ValueError("Could not find timeseries table in markdown file"));
    }
    var rows := if i + 2 <= |lines| then lines[i + 2..] else [];
    var data := CollectRows(rows, headers);
    var n := LongestColumn(data, headers);
    if n == 0 {
      return Err(ValueError("max() arg is an empty sequence"));
    }
    r := Ok(Parsed(ExperimentName(lines), Indices(n), Outputs(data, columns)));
  }

  /** `for i, line in enumerate(lines)` up to the first table header;
      |lines| when there is none. */
  method FindHeader(lines: seq<string>) returns (i: nat)
    ensures i <= |lines|
    ensures i == |lines| <==> HeaderIndex(lines, 0).None?
    ensures i < |lines| ==> HeaderIndex(lines, 0) == Some(i)
  {
    i := 0;
    while i < |lines| && !StartsWith(lines[i], TablePrefix)
      invariant 0 <= i <= |lines|
      invariant HeaderIndex(lines, i) == HeaderIndex(lines, 0)
    {
      i := i + 1;
    }
  }

  /** `for line in lines[table_start:]`: fills the columns row by row. */
  method CollectRows(rows: seq<string>, headers: seq<string>) returns (data: Table)
    ensures data == ReadRows(rows, headers, EmptyTable(headers))
  {
    data := EmptyTable(headers);
    var k := 0;
    while k < |rows| && !EndOfTable(rows[k])
      invariant 0 <= k <= |rows|
      invariant ReadRows(rows[k..], headers, data) == ReadRows(rows, headers, EmptyTable(headers))
    {
      var values := Cells(rows[k]);
      if |values| == |headers| {
        data := AppendRow(data, headers, values);
      }
      k := k + 1;
    }
  }

  /** `max(len(v) for v in data.values() if v)`, with 0 standing for the
      empty maximum. */
  method LongestColumn(data: Table, headers: seq<string>) returns (n: nat)
    ensures n == MaxLength(data, headers)
  {
    n := 0;
    var h := 0;
    while h < |headers|
      invariant 0 <= h <= |headers|
      invariant n == MaxLength(data, headers[..h])
    {
      var len := |Lookup(data, headers[h])|;
      if len > n {
        n := len;
      }
      assert headers[..h + 1][..h] == headers[..h];
      h := h + 1;
    }
    assert headers[..h] == headers;
  }

  /** The inner `zip` loop of one row. */
  method AppendRow(data: Table, headers: seq<string>, values: seq<string>) returns (t: Table)
    requires |headers| == |values|
    ensures t == AddRow(data, headers, values)
  {
    t := data;
    var j := 0;
    while j < |headers|
      invariant 0 <= j <= |headers|
      invariant AddRow(t, headers[j..], values[j..]) == AddRow(data, headers, values)
    {
      t := t[headers[j] := Lookup(t, headers[j]) + [ReadCell(values[j])]];
      assert headers[j..][1..] == headers[j + 1..];
      assert values[j..][1..] == values[j + 1..];
      j := j + 1;
    }
  }

  /** The numeric series `compute_summary_stats` reads from a parsed file. */
  datatype SeriesData = SeriesData(
    latencies: seq<real>, throughput: seq<real>, cpuPercent: seq<real>,
    gpuMemoryMb: seq<real>, gpuUtilizationPct: seq<real>, tokenizeMs: seq<real>,
    queueWaitMs: seq<real>, inferenceMs: seq<real>, paddingPct: seq<real>)

  /** The inner `stats(arr)`; `percentile(a, q)` stands for `np.percentile`. */
  datatype Stats = Stats(avg: real, min: real, max: real, p50: real, p95: real, count: nat)

  function SeriesStats(arr: seq<real>, percentile: (seq<real>, real) -> real): (st: Stats)
    ensures arr == [] ==> st == Stats(0.0, 0.0, 0.0, 0.0, 0.0, 0)
    ensures arr != [] ==> st.count == |arr| && st.min <= st.avg <= st.max
    ensures arr != [] ==> forall i :: 0 <= i < |arr| ==> st.min <= arr[i] <= st.max
    ensures arr != [] ==> st.avg == Mean(arr) && st.min == Min(arr) && st.max == Max(arr)
    ensures arr != [] ==> st.p50 == percentile(arr, 50.0) && st.p95 == percentile(arr, 95.0)
  {
    if arr == [] then Stats(0.0, 0.0, 0.0, 0.0, 0.0, 0)
    else
      MeanBetweenMinMax(arr);
      MinMaxBound(arr);
      Stats(Mean(arr), Min(arr), Max(arr), percentile(arr, 50.0), percentile(arr, 95.0), |arr|)
  }

  /** Shares of the summed latency, before rounding. */
  datatype StageShares = StageShares(tokenize: real, queueWait: real, inference: real, other: real)

  function Shares(d: SeriesData): (sh: StageShares)
    ensures Sum(d.latencies) > 0.0 ==> sh.tokenize + sh.queueWait + sh.inference + sh.other == 100.0
    ensures Sum(d.latencies) <= 0.0 ==> sh == StageShares(0.0, 0.0, 0.0, 0.0)
  {
    var total := Sum(d.latencies);
    if total > 0.0 then
      var t := Sum(d.tokenizeMs) / total * 100.0;
      var q := Sum(d.queueWaitMs) / total * 100.0;
      var i := Sum(d.inferenceMs) / total * 100.0;
      StageShares(t, q, i, 100.0 - t - q - i)
    else StageShares(0.0, 0.0, 0.0, 0.0)
  }

  /** When the stage times are non-negative and together no more than the
      total latency, all four shares lie between 0 and 100. */
  lemma SharesBounded(d: SeriesData)
    requires Sum(d.latencies) > 0.0
    requires Sum(d.tokenizeMs) >= 0.0 && Sum(d.queueWaitMs) >= 0.0 && Sum(d.inferenceMs) >= 0.0
    requires Sum(d.tokenizeMs) + Sum(d.queueWaitMs) + Sum(d.inferenceMs) <= Sum(d.latencies)
    ensures var sh := Shares(d);
      0.0 <= sh.tokenize <= 100.0 && 0.0 <= sh.queueWait <= 100.0 &&
      0.0 <= sh.inference <= 100.0 && 0.0 <= sh.other <= 100.0
  {
    var total := Sum(d.latencies);
    var a, b, c := Sum(d.tokenizeMs), Sum(d.queueWaitMs), Sum(d.inferenceMs);
    ShareOfTotal(a + b + c, total);
    ShareOfTotal(a, total);
    ShareOfTotal(b, total);
    ShareOfTotal(c, total);
    SharesAdd(a, b, c, total);
  }

  /** Shares of a sum add up. */
  lemma SharesAdd(a: real, b: real, c: real, total: real)
    requires total > 0.0
    ensures (a + b + c) / total * 100.0 == a / total * 100.0 + b / total * 100.0 + c / total * 100.0
  {
    var x, y, z := a / total, b / total, c / total;
    assert x * total == a && y * total == b && z * total == c;
    assert (x + y + z) * total == a + b + c;
    assert (a + b + c) / total == x + y + z;
  }

  lemma ShareOfTotal(part: real, total: real)
    requires total > 0.0 && 0.0 <= part <= total
    ensures 0.0 <= part / total * 100.0 <= 100.0
  {
    assert part / total <= 1.0;
  }

  /** `series[-1] if series else 0`. */
  function LastOrZero(s: seq<real>): (v: real)
    ensures s != [] ==> v == s[|s| - 1]
    ensures s == [] ==> v == 0.0
  {
    if s == [] then 0.0 else s[|s| - 1]
  }

  /** The summary the static dashboard shows; the stage percentages are
      kept unrounded. */
  datatype Summary = Summary(
    count: nat, queryCount: nat, instantLatencyMs: real,
    avgMs: real, p50Ms: real, p95Ms: real, p99Ms: real,
    throughputQps: real, avgThroughputQps: real,
    cpuPercent: real, gpuMemoryMb: real, gpuUtilizationPct: real,
    lastTokenizeMs: real, lastInferenceMs: real, lastQueueWaitMs: real,
    tokenizeStats: Stats, queueWaitStats: Stats, inferenceStats: Stats,
    shares: StageShares, queueWaitAvgMs: real, queueWaitP95Ms: real,
    lastPaddingPct: real, avgPaddingPct: real)

  /** The mean of a series, 0 for an empty one. */
  function MeanOrZero(s: seq<real>): real
  {
    if s == [] then 0.0 else Mean(s)
  }

  /** `compute_summary_stats`: None (the empty dictionary) without latencies;
      otherwise the latency statistics, the newest throughput and stage
      times, the series means and the per-stage statistics. */
  function ComputeSummaryStats(d: SeriesData, percentile: (seq<real>, real) -> real): (r: Option<Summary>)
    ensures r.None? <==> d.latencies == []
    ensures r.Some? ==> r.value.count == |d.latencies| && r.value.queryCount == |d.latencies|
    ensures r.Some? ==> r.value.instantLatencyMs == d.latencies[|d.latencies| - 1]
    ensures r.Some? ==>
      r.value.avgMs == Mean(d.latencies) && r.value.p50Ms == percentile(d.latencies, 50.0) &&
      r.value.p95Ms == percentile(d.latencies, 95.0) && r.value.p99Ms == percentile(d.latencies, 99.0)
    ensures r.Some? ==>
      r.value.throughputQps == LastOrZero(d.throughput) &&
      r.value.lastTokenizeMs == LastOrZero(d.tokenizeMs) && r.value.lastInferenceMs == LastOrZero(d.inferenceMs) &&
      r.value.lastQueueWaitMs == LastOrZero(d.queueWaitMs) && r.value.lastPaddingPct == LastOrZero(d.paddingPct)
    ensures r.Some? ==>
      r.value.avgThroughputQps == MeanOrZero(d.throughput) &&
      r.value.cpuPercent == MeanOrZero(d.cpuPercent) && r.value.gpuMemoryMb == MeanOrZero(d.gpuMemoryMb) &&
      r.value.gpuUtilizationPct == MeanOrZero(d.gpuUtilizationPct) && r.value.avgPaddingPct == MeanOrZero(d.paddingPct)
    ensures r.Some? ==>
      r.value.tokenizeStats == SeriesStats(d.tokenizeMs, percentile) &&
      r.value.queueWaitStats == SeriesStats(d.queueWaitMs, percentile) &&
      r.value.inferenceStats == SeriesStats(d.inferenceMs, percentile)
    ensures r.Some? ==>
      r.value.queueWaitAvgMs == MeanOrZero(d.queueWaitMs) &&
      r.value.queueWaitP95Ms == r.value.queueWaitStats.p95
    ensures r.Some? ==> r.value.shares == Shares(d)
  {
    if d.latencies == [] then None
    else
      var lat := SeriesStats(d.latencies, percentile);
      var queue := SeriesStats(d.queueWaitMs, percentile);
      Some(Summary(
        |d.latencies|, |d.latencies|, d.latencies[|d.latencies| - 1],
        lat.avg, lat.p50, lat.p95, percentile(d.latencies, 99.0),
        LastOrZero(d.throughput), SeriesStats(d.throughput, percentile).avg,
        SeriesStats(d.cpuPercent, percentile).avg, SeriesStats(d.gpuMemoryMb, percentile).avg,
        SeriesStats(d.gpuUtilizationPct, percentile).avg,
        LastOrZero(d.tokenizeMs), LastOrZero(d.inferenceMs), LastOrZero(d.queueWaitMs),
        SeriesStats(d.tokenizeMs, percentile), queue, SeriesStats(d.inferenceMs, percentile),
        Shares(d), queue.avg, queue.p95,
        LastOrZero(d.paddingPct), SeriesStats(d.paddingPct, percentile).avg))
  }

  /** The two file names tried for an experiment, in order. */
  function Candidates(experimentName: string): seq<string>
  {
    [experimentName + "_timeseries.md", ReplaceAll(experimentName, "_results", "") + "_timeseries.md"]
  }

  /** An experiment named `<a>_results` also finds `<a>_timeseries.md`. */
  lemma CandidatesStripResults(a: string)
    requires !Contains(a, "_results")
    ensures Candidates(a + "_results")[1] == a + "_timeseries.md"
  {
    StripResultsSuffix(a);
  }

  /** `find_timeseries_file`: the first candidate present among `files`
      (the names in the distribution directory). */
  method FindTimeseriesFile(experimentName: string, files: set<string>) returns (r: Option<string>)
    ensures r.Some? ==> r.value in files && r.value in Candidates(experimentName)
    ensures r.Some? && r.value != Candidates(experimentName)[0] ==> Candidates(experimentName)[0] !in files
    ensures r.None? <==> forall c :: c in Candidates(experimentName) ==> c !in files
  {
    var patterns := Candidates(experimentName);
    var k := 0;
    while k < |patterns|
      invariant 0 <= k <= |patterns|
      invariant forall j :: 0 <= j < k ==> patterns[j] !in files
    {
      if patterns[k] in files {
        return Some(patterns[k]);
      }
      k := k + 1;
    }
    return None;
  }
}
