/** The chart updates of the dashboard page (src/frontend/static/js/charts.js):
    the shared label axis, the tick-thinning rule, the per-instance
    colour cycle, the transpose of per-timepoint instance arrays into
    per-instance series, and the one-time creation of the instance
    charts. A `Chart` holds what Chart.js keeps in `chart.data`. */
module Charts {
  import opened Wrappers
  import opened Decimal

  // ---------------------------------------------------------------------
  // Tick thinning (the x-axis `ticks.callback`)

  /** `Math.ceil(n / 8)`. */
  function TickStride(n: nat): (c: nat)
    ensures n > 0 ==> c >= 1
    ensures 8 * c >= n && (c > 0 ==> 8 * (c - 1) < n)
  {
    (n + 7) / 8
  }

  /** The text shown under tick `index`: with more than 12 labels only
      every `ceil(n/8)`-th label is shown and the others are blank. */
  function TickLabel(labels: seq<string>, index: nat): string
    requires index < |labels|
  {
    if |labels| > 12 then
      (if index % TickStride(|labels|) == 0 then labels[index] else "")
    else labels[index]
  }

  /** With 12 or fewer labels every label shows; with more, a label shows
      exactly at the multiples of the stride, and there are at most eight
      of them (the shown tick's ordinal is below 8). */
  lemma TickThinning(labels: seq<string>, index: nat)
    requires index < |labels|
    ensures |labels| <= 12 ==> TickLabel(labels, index) == labels[index]
    ensures |labels| > 12 ==>
      (index % TickStride(|labels|) == 0 ==> TickLabel(labels, index) == labels[index]) &&
      (index % TickStride(|labels|) != 0 ==> TickLabel(labels, index) == "")
    ensures |labels| > 12 && index % TickStride(|labels|) == 0 ==> index / TickStride(|labels|) < 8
  {
    var n := |labels|;
    if n > 12 && index % TickStride(n) == 0 {
      var c := TickStride(n);
      var k := index / c;
      assert k * c == index < n <= 8 * c;
      FactorBelow(k, 8, c);
    }
  }

  lemma FactorBelow(k: nat, m: nat, c: nat)
    requires k * c < m * c
    ensures k < m
  {
  }

  // ---------------------------------------------------------------------
  // Labels

  /** `(history.timestamps || []).map(t => t.toFixed(0) + 's')`. */
  function Labels(timestamps: Option<seq<real>>): (labels: seq<string>)
    ensures timestamps.None? ==> labels == []
    ensures timestamps.Some? ==> |labels| == |timestamps.value|
  {
    var ts := timestamps.GetOr([]);
    seq(|ts|, i requires 0 <= i < |ts| => FixedText(ts[i], 0) + "s")
  }

  /** Every label is a whole number of seconds followed by "s": dropping
      the "s" reads back the timestamp rounded to a whole second. */
  lemma LabelReadsBack(timestamps: seq<real>, i: nat)
    requires i < |timestamps|
    ensures var l := Labels(Some(timestamps))[i];
      |l| >= 2 && l[|l| - 1] == 's' &&
      ParseFloat(l[..|l| - 1]) == Some(Rounded(timestamps[i], 0))
  {
    var l := Labels(Some(timestamps))[i];
    var num := FixedText(timestamps[i], 0);
    FixedTextShape(timestamps[i], 0);
    ParseFixedText(timestamps[i], 0);
    assert l == num + "s";
    assert l[..|l| - 1] == num;
  }

  // ---------------------------------------------------------------------
  // Colours

  /** `INSTANCE_COLORS[..].line`: eight line colours. */
  const InstanceColours: seq<string> :=
    ["#58a6ff", "#3fb950", "#f0883e", "#a371f7", "#f85149", "#56d4dd", "#db61a2", "#e3b341"]

  /** The colour of dataset `i`: the palette is reused cyclically. */
  function ColourOf(i: nat): string
  {
    InstanceColours[i % |InstanceColours|]
  }

  /** The colours of `createMultiLineChartConfig(instanceNames)`. */
  function DatasetColours(count: nat): (cs: seq<string>)
    ensures |cs| == count
  {
    seq(count, i requires 0 <= i < count => ColourOf(i))
  }

  /** Datasets eight apart share a colour; the first eight are all
      different. */
  lemma ColoursCycle(count: nat, i: nat)
    requires i + 8 < count
    ensures DatasetColours(count)[i] == DatasetColours(count)[i + 8]
    ensures forall j, k :: 0 <= j < k < 8 && k < count ==> DatasetColours(count)[j] != DatasetColours(count)[k]
  {
    assert (i + 8) % 8 == i % 8;
  }

  // ---------------------------------------------------------------------
  // Transpose (updateMultiLineChart)

  /** `timePoint && timePoint[i] !== undefined ? timePoint[i] : 0`. */
  function ValueAt(timePoint: Option<seq<real>>, i: nat): real
  {
    if timePoint.Some? && i < |timePoint.value| then timePoint.value[i] else 0.0
  }

  /** The series of instance `i`: one entry per time point. */
  function InstanceSeries(dataArrays: seq<Option<seq<real>>>, i: nat): (s: seq<real>)
    ensures |s| == |dataArrays|
  {
    seq(|dataArrays|, t requires 0 <= t < |dataArrays| => ValueAt(dataArrays[t], i))
  }

  /** One series per dataset, whatever the width of the time points. */
  function Transposed(dataArrays: seq<Option<seq<real>>>, count: nat): (series: seq<seq<real>>)
    ensures |series| == count
  {
    seq(count, i requires 0 <= i < count => InstanceSeries(dataArrays, i))
  }

  /** Entry (i, t) of the transpose is element i of time point t, or 0 if
      the time point is missing or too short. */
  lemma TransposedAt(dataArrays: seq<Option<seq<real>>>, count: nat, i: nat, t: nat)
    requires i < count && t < |dataArrays|
    ensures |Transposed(dataArrays, count)[i]| == |dataArrays|
    ensures dataArrays[t].Some? && i < |dataArrays[t].value| ==> Transposed(dataArrays, count)[i][t] == dataArrays[t].value[i]
    ensures dataArrays[t].None? || i >= |dataArrays[t].value| ==> Transposed(dataArrays, count)[i][t] == 0.0
  {
  }

  /** Present rows of equal width. */
  function Rows(series: seq<seq<real>>): seq<Option<seq<real>>>
  {
    seq(|series|, i requires 0 <= i < |series| => Some(series[i]))
  }

  /** Transposing a full rectangular table twice gives it back. */
  lemma TransposeTwice(dataArrays: seq<Option<seq<real>>>, count: nat)
    requires forall t :: 0 <= t < |dataArrays| ==> dataArrays[t].Some? && |dataArrays[t].value| == count
    ensures Rows(Transposed(Rows(Transposed(dataArrays, count)), |dataArrays|)) == dataArrays
  {
    var once := Transposed(dataArrays, count);
    var twice := Transposed(Rows(once), |dataArrays|);
    forall t | 0 <= t < |dataArrays|
      ensures twice[t] == dataArrays[t].value
    {
      forall i | 0 <= i < count
        ensures twice[t][i] == dataArrays[t].value[i]
      {
        assert Rows(once)[i] == Some(once[i]);
      }
    }
  }

  // ---------------------------------------------------------------------
  // Charts and their updates

  /** The part of a Chart.js chart the dashboard writes: the x labels,
      one data series per dataset and each dataset's line colour. */
  class Chart {
    var labels: seq<string>
    var series: seq<seq<real>>
    var colours: seq<string>

    /** `createChartConfig(color)`: a single empty dataset. */
    constructor Single(colour: string)
      ensures labels == [] && series == [[]] && colours == [colour]
    {
      labels := [];
      series := [[]];
      colours := [colour];
    }

    /** `createMultiLineChartConfig(instanceNames)`: one empty dataset per
        instance, coloured cyclically. */
    constructor MultiLine(instanceNames: seq<string>)
      ensures labels == [] && |series| == |instanceNames|
      ensures forall i :: 0 <= i < |series| ==> series[i] == []
      ensures colours == DatasetColours(|instanceNames|)
    {
      labels := [];
      series := seq(|instanceNames|, _ => []);
      colours := DatasetColours(|instanceNames|);
    }
  }

  /** `updateChart(chart, labels, data)`: nothing without a chart or
      data; otherwise labels and the first dataset are replaced whole. */
  method UpdateChart(chart: Chart?, labels: seq<string>, data: Option<seq<real>>)
    requires chart != null ==> |chart.series| > 0
    modifies chart
    ensures chart != null ==> |chart.series| == |old(chart.series)| && chart.colours == old(chart.colours)
    ensures chart != null && data.None? ==> chart.labels == old(chart.labels) && chart.series == old(chart.series)
    ensures chart != null && data.Some? ==> chart.labels == labels && chart.series == old(chart.series)[0 := data.value]
  {
    if chart == null || data.None? {
      return;
    }
    chart.labels := labels;
    chart.series := chart.series[0 := data.value];
  }

  /** `updateMultiLineChart(chart, labels, dataArrays)`: a no-op without a
      chart or with missing or empty data; otherwise every dataset's
      series becomes its column of the transposed time points. */
  method UpdateMultiLineChart(chart: Chart?, labels: seq<string>, dataArrays: Option<seq<Option<seq<real>>>>)
    modifies chart
    ensures chart != null ==> chart.colours == old(chart.colours)
    ensures chart != null && (dataArrays.None? || dataArrays.value == []) ==>
      chart.labels == old(chart.labels) && chart.series == old(chart.series)
    ensures chart != null && dataArrays.Some? && dataArrays.value != [] ==>
      chart.labels == labels && chart.series == Transposed(dataArrays.value, |old(chart.series)|)
  {
    if chart == null || dataArrays.None? || |dataArrays.value| == 0 {
      return;
    }
    chart.labels := labels;
    var numInstances := |chart.series|;
    var i := 0;
    while i < numInstances
      invariant 0 <= i <= numInstances == |chart.series|
      invariant chart.labels == labels && chart.colours == old(chart.colours)
      invariant forall j :: 0 <= j < i ==> chart.series[j] == InstanceSeries(dataArrays.value, j)
      invariant forall j :: i <= j < numInstances ==> chart.series[j] == old(chart.series)[j]
    {
      chart.series := chart.series[i := InstanceSeries(dataArrays.value, i)];
      i := i + 1;
    }
  }

  /** What `/metrics` sends as `history` and the page reads (`undefined`
      fields are `None`). */
  datatype History = History(
    timestamps: Option<seq<real>>,
    latencies: Option<seq<real>>,
    throughput: Option<seq<real>>,
    queueWaitMs: Option<seq<real>>,
    tokenizeMs: Option<seq<real>>,
    inferenceMs: Option<seq<real>>,
    cpuPercent: Option<seq<real>>,
    gpuMemoryMb: Option<seq<real>>,
    queries: Option<seq<real>>,
    paddingPct: Option<seq<real>>,
    gpuUtilizationPct: Option<seq<real>>,
    overheadMs: Option<seq<real>>,
    instanceNames: Option<seq<string>>,
    instanceUtilization: Option<seq<Option<seq<real>>>>,
    instanceIdle: Option<seq<Option<seq<real>>>>)

  /** The series each of the eleven single charts shows, in the order of
      `Dashboard.charts`; `overhead_ms` falls back to `[]`. */
  function ChartData(h: History): (data: seq<Option<seq<real>>>)
    ensures |data| == 11
    ensures data[10].Some?
  {
    [h.latencies, h.throughput, h.queueWaitMs, h.tokenizeMs, h.inferenceMs, h.cpuPercent,
     h.gpuMemoryMb, h.queries, h.paddingPct, h.gpuUtilizationPct, Some(h.overheadMs.GetOr([]))]
  }

  /** `instanceNames && instanceNames.length > 1`. */
  predicate ShowsInstances(instanceNames: Option<seq<string>>)
  {
    instanceNames.Some? && |instanceNames.value| > 1
  }

  /** A multi-line chart as created: no labels and `n` empty datasets. */
  ghost predicate Blank(c: Chart, n: nat)
    reads c
  {
    c.labels == [] && |c.series| == n && forall i :: 0 <= i < n ==> c.series[i] == []
  }

  /** The page's module-level chart state: the eleven single charts
      (latency, throughput, queue, tokenize, inference, cpu, gpu, queries,
      padding, utilization, overhead), the instance charts and whether
      their container is displayed. */
  class Dashboard {
    const charts: seq<Chart>
    var instanceCharts: seq<Chart>
    var instancesShown: bool

    ghost predicate Valid()
      reads this, charts
    {
      |charts| == 11 &&
      (forall k :: 0 <= k < |charts| ==> |charts[k].series| > 0) &&
      (forall j, k :: 0 <= j < k < |charts| ==> charts[j] != charts[k]) &&
      (forall k :: 0 <= k < |charts| ==> charts[k] !in instanceCharts) &&
      (|instanceCharts| == 0 || (|instanceCharts| == 2 && instanceCharts[0] != instanceCharts[1]))
    }

    /** `initCharts()`. */
    constructor (colours: seq<string>)
      requires |colours| == 11
      ensures Valid() && fresh(charts) && instanceCharts == [] && !instancesShown
      ensures forall k :: 0 <= k < 11 ==> charts[k].labels == [] && charts[k].series == [[]]
    {
      var made: seq<Chart> := [];
      while |made| < 11
        invariant |made| <= 11
        invariant forall k :: 0 <= k < |made| ==> fresh(made[k]) && made[k].labels == [] && made[k].series == [[]]
        invariant forall j, k :: 0 <= j < k < |made| ==> made[j] != made[k]
      {
        var c := new Chart.Single(colours[|made|]);
        made := made + [c];
      }
      charts := made;
      instanceCharts := [];
      instancesShown := false;
    }

    /** `initInstanceCharts(instanceNames)`: hidden for zero or one
        instance; otherwise shown, and the two multi-line charts are
        created on the first call only. */
    method InitInstanceCharts(instanceNames: Option<seq<string>>)
      requires Valid()
      modifies this`instanceCharts, this`instancesShown
      ensures Valid()
      ensures instancesShown == ShowsInstances(instanceNames)
      ensures !ShowsInstances(instanceNames) || |old(instanceCharts)| > 0 ==> instanceCharts == old(instanceCharts)
      ensures ShowsInstances(instanceNames) && |old(instanceCharts)| == 0 ==>
        |instanceCharts| == 2 && fresh(instanceCharts[0]) && fresh(instanceCharts[1]) &&
        instanceCharts[0] != instanceCharts[1] &&
        (forall k :: 0 <= k < 2 ==>
          (Blank(instanceCharts[k], |instanceNames.value|) &&
           instanceCharts[k].colours == DatasetColours(|instanceNames.value|)))
    {
      if !ShowsInstances(instanceNames) {
        instancesShown := false;
        return;
      }
      instancesShown := true;
      if |instanceCharts| == 0 {
        var util := new Chart.MultiLine(instanceNames.value);
        var idle := new Chart.MultiLine(instanceNames.value);
        instanceCharts := [util, idle];
      }
    }

    /** `updateAllCharts(history)`: nothing for a missing history;
        otherwise one label array, computed once, goes to every chart that
        has data, and the instance charts are refreshed when there is
        more than one instance. */
    method UpdateAllCharts(history: Option<History>)
      requires Valid()
      modifies this`instanceCharts, this`instancesShown, charts, instanceCharts
      ensures Valid()
      ensures history.None? ==> instanceCharts == old(instanceCharts) && instancesShown == old(instancesShown)
      ensures history.None? ==> forall k :: 0 <= k < 11 ==>
        charts[k].labels == old(charts[k].labels) && charts[k].series == old(charts[k].series)
      ensures history.Some? ==> forall k :: 0 <= k < 11 ==>
        var data := ChartData(history.value)[k];
        (data.Some? ==> charts[k].labels == Labels(history.value.timestamps) && charts[k].series == old(charts[k].series)[0 := data.value]) &&
        (data.None? ==> charts[k].labels == old(charts[k].labels) && charts[k].series == old(charts[k].series))
      ensures history.Some? && !ShowsInstances(history.value.instanceNames) ==>
        instanceCharts == old(instanceCharts) && instancesShown == old(instancesShown)
      ensures history.Some? && ShowsInstances(history.value.instanceNames) ==>
        instancesShown && |instanceCharts| == 2 &&
        (|old(instanceCharts)| > 0 ==> instanceCharts == old(instanceCharts)) &&
        (|old(instanceCharts)| == 0 ==> (fresh(instanceCharts[0]) && fresh(instanceCharts[1]) &&
          instanceCharts[0].colours == instanceCharts[1].colours == DatasetColours(|history.value.instanceNames.value|)))
      // the utilisation chart: the transposed utilisation when there is any, otherwise as it was
      ensures history.Some? && ShowsInstances(history.value.instanceNames) ==>
        var h := history.value;
        var width := if |old(instanceCharts)| == 0 then |h.instanceNames.value| else old(|instanceCharts[0].series|);
        if h.instanceUtilization.Some? && h.instanceUtilization.value != [] then
          instanceCharts[0].labels == Labels(h.timestamps) &&
          instanceCharts[0].series == Transposed(h.instanceUtilization.value, width)
        else if |old(instanceCharts)| == 0 then Blank(instanceCharts[0], width)
        else instanceCharts[0].labels == old(instanceCharts[0].labels) && instanceCharts[0].series == old(instanceCharts[0].series)
      // the idle chart: refreshed only alongside the utilisation chart
      ensures history.Some? && ShowsInstances(history.value.instanceNames) ==>
        var h := history.value;
        var width := if |old(instanceCharts)| == 0 then |h.instanceNames.value| else old(|instanceCharts[1].series|);
        if h.instanceUtilization.Some? && h.instanceIdle.Some? && h.instanceIdle.value != [] then
          instanceCharts[1].labels == Labels(h.timestamps) &&
          instanceCharts[1].series == Transposed(h.instanceIdle.value, width)
        else if |old(instanceCharts)| == 0 then Blank(instanceCharts[1], width)
        else instanceCharts[1].labels == old(instanceCharts[1].labels) && instanceCharts[1].series == old(instanceCharts[1].series)
    {
      if history.None? {
        return;
      }
      var h := history.value;
      var labels := Labels(h.timestamps);
      UpdateMainCharts(labels, ChartData(h));
      if ShowsInstances(h.instanceNames) {
        InitInstanceCharts(h.instanceNames);
        if |instanceCharts| >= 2 && h.instanceUtilization.Some? {
          UpdateMultiLineChart(instanceCharts[0], labels, h.instanceUtilization);
          UpdateMultiLineChart(instanceCharts[1], labels, h.instanceIdle);
        }
      }
    }

    /** The eleven `updateChart` calls: chart k takes the labels and the
        k-th data list when that list is there. */
    method UpdateMainCharts(labels: seq<string>, data: seq<Option<seq<real>>>)
      requires Valid() && |data| == 11
      modifies charts
      ensures Valid()
      ensures forall k :: 0 <= k < 11 ==>
        (data[k].Some? ==> charts[k].labels == labels && charts[k].series == old(charts[k].series)[0 := data[k].value]) &&
        (data[k].None? ==> charts[k].labels == old(charts[k].labels) && charts[k].series == old(charts[k].series))
      ensures forall c :: c in instanceCharts ==> c.series == old(c.series) && c.labels == old(c.labels)
    {
      var k := 0;
      while k < 11
        invariant 0 <= k <= 11
        invariant Valid()
        invariant forall j :: 0 <= j < k ==>
          (data[j].Some? ==> charts[j].labels == labels && charts[j].series == old(charts[j].series)[0 := data[j].value]) &&
          (data[j].None? ==> charts[j].labels == old(charts[j].labels) && charts[j].series == old(charts[j].series))
        invariant forall j :: k <= j < 11 ==> charts[j].labels == old(charts[j].labels) && charts[j].series == old(charts[j].series)
        invariant forall c :: c in instanceCharts ==> c.series == old(c.series) && c.labels == old(c.labels)
      {
        UpdateChart(charts[k], labels, data[k]);
        k := k + 1;
      }
    }
  }
}
