/** The chart updates of the inference server's own dashboard
    (ml_inference_server/dashboard/static/js/charts.js): seven single
    charts fed from one shared label axis. The chart objects, `updateChart`
    and the label and tick rules are the same as the main dashboard's and
    are taken from `Charts`. */
module ServerCharts {
  import opened Wrappers
  import opened Charts

  /** The history fields this page reads (`undefined` fields are `None`). */
  datatype ServerHistory = ServerHistory(
    timestamps: Option<seq<real>>,
    latencies: Option<seq<real>>,
    throughput: Option<seq<real>>,
    tokenizeMs: Option<seq<real>>,
    inferenceMs: Option<seq<real>>,
    cpuPercent: Option<seq<real>>,
    gpuMemoryMb: Option<seq<real>>,
    queries: Option<seq<real>>)

  /** The series of the seven charts, in the order latency, throughput,
      tokenize, inference, cpu, gpu, queries. */
  function SeriesOf(h: ServerHistory): (data: seq<Option<seq<real>>>)
    ensures |data| == 7
  {
    [h.latencies, h.throughput, h.tokenizeMs, h.inferenceMs, h.cpuPercent, h.gpuMemoryMb, h.queries]
  }

  /** A history in which every series the page reads is present and has
      one value per timestamp. */
  predicate Complete(h: ServerHistory)
  {
    h.timestamps.Some? &&
    forall k :: 0 <= k < 7 ==> SeriesOf(h)[k].Some? && |SeriesOf(h)[k].value| == |h.timestamps.value|
  }

  /** The seven charts of `initCharts()`. */
  class ServerDashboard {
    const charts: seq<Chart>

    ghost predicate Valid()
      reads this, charts
    {
      |charts| == 7 &&
      (forall k :: 0 <= k < 7 ==> |charts[k].series| > 0) &&
      (forall j, k :: 0 <= j < k < 7 ==> charts[j] != charts[k])
    }

    constructor (colours: seq<string>)
      requires |colours| == 7
      ensures Valid() && fresh(charts)
      ensures forall k :: 0 <= k < 7 ==> charts[k].labels == [] && charts[k].series == [[]]
    {
      var made: seq<Chart> := [];
      while |made| < 7
        invariant |made| <= 7
        invariant forall k :: 0 <= k < |made| ==> fresh(made[k]) && made[k].labels == [] && made[k].series == [[]]
        invariant forall j, k :: 0 <= j < k < |made| ==> made[j] != made[k]
      {
        var c := new Chart.Single(colours[|made|]);
        made := made + [c];
      }
      charts := made;
    }

    /** `updateAllCharts(history)`: returns at once on a missing history;
        otherwise every chart with data gets the same labels and has its
        data replaced. */
    method UpdateAllCharts(history: Option<ServerHistory>)
      requires Valid()
      modifies charts
      ensures Valid()
      ensures history.None? ==> forall k :: 0 <= k < 7 ==>
        charts[k].labels == old(charts[k].labels) && charts[k].series == old(charts[k].series)
      ensures history.Some? ==> forall k :: 0 <= k < 7 ==>
        var data := SeriesOf(history.value)[k];
        (data.Some? ==> charts[k].labels == Labels(history.value.timestamps) && charts[k].series == old(charts[k].series)[0 := data.value]) &&
        (data.None? ==> charts[k].labels == old(charts[k].labels) && charts[k].series == old(charts[k].series))
      ensures history.Some? && Complete(history.value) ==> forall k :: 0 <= k < 7 ==>
        |charts[k].labels| == |charts[k].series[0]|
    {
      if history.None? {
        return;
      }
      var h := history.value;
      var labels := Labels(h.timestamps);
      var data := SeriesOf(h);
      var k := 0;
      while k < 7
        invariant 0 <= k <= 7
        invariant Valid()
        invariant forall j :: 0 <= j < k ==>
          (data[j].Some? ==> charts[j].labels == labels && charts[j].series == old(charts[j].series)[0 := data[j].value]) &&
          (data[j].None? ==> charts[j].labels == old(charts[j].labels) && charts[j].series == old(charts[j].series))
        invariant forall j :: k <= j < 7 ==> charts[j].labels == old(charts[j].labels) && charts[j].series == old(charts[j].series)
      {
        UpdateChart(charts[k], labels, data[k]);
        k := k + 1;
      }
    }
  }
}
