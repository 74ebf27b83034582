/** The inference server's own dashboard server
    (ml_inference_server/metrics/http_server.py): the nine-series
    `MetricsHistory`, the `MetricsServer` that records into it, and the
    request dispatch with the containment check on served files. The
    collector is represented by the summaries it returns; wall-clock time
    is the `now` parameter. */
module MetricsHttpServer {
  import opened Wrappers
  import opened Text
  import opened Paths
  import opened CollectorSummary
  import opened DashboardModels
  import MlCollector

  /** The nine series of this history, named as in the main dashboard. */
  const HistorySeries: set<Series> :=
    {Timestamps, Latencies, Throughput, Queries, CpuPercent, GpuMemoryMb, QueueWaitMs, TokenizeMs, InferenceMs}

  class MetricsHistory {
    var timestamps: seq<real>
    var latencies: seq<real>
    var throughput: seq<real>
    var queries: seq<real>
    var cpuPercent: seq<real>
    var gpuMemoryMb: seq<real>
    var queueWaitMs: seq<real>
    var tokenizeMs: seq<real>
    var inferenceMs: seq<real>
    var startTime: real
    var lastRequestCount: real

    /** Every series has one entry per timestamp. */
    predicate Aligned()
      reads this
    {
      var n := |timestamps|;
      |latencies| == n && |throughput| == n && |queries| == n && |cpuPercent| == n &&
      |gpuMemoryMb| == n && |queueWaitMs| == n && |tokenizeMs| == n && |inferenceMs| == n
    }

    /** Every series is empty. */
    predicate Empty()
      reads this
    {
      timestamps == [] && latencies == [] && throughput == [] && queries == [] &&
      cpuPercent == [] && gpuMemoryMb == [] && queueWaitMs == [] && tokenizeMs == [] &&
      inferenceMs == []
    }

    constructor (now: real)
      ensures Empty() && Aligned() && startTime == now && lastRequestCount == 0.0
    {
      timestamps, latencies, throughput, queries, cpuPercent := [], [], [], [], [];
      gpuMemoryMb, queueWaitMs, tokenizeMs, inferenceMs := [], [], [], [];
      startTime, lastRequestCount := now, 0.0;
    }

    /** `reset()`: all nine series emptied, the clock restarted and the
        count zeroed. */
    method Reset(now: real)
      modifies this
      ensures Empty() && Aligned() && startTime == now && lastRequestCount == 0.0
      ensures forall s: Series :: s in ToDict() ==> ToDict()[s] == []
    {
      timestamps, latencies, throughput, queries, cpuPercent := [], [], [], [], [];
      gpuMemoryMb, queueWaitMs, tokenizeMs, inferenceMs := [], [], [], [];
      startTime, lastRequestCount := now, 0.0;
      EmptyDict();
    }

    /** The list of one of the nine series. */
    function Get(s: Series): seq<real>
      requires s in HistorySeries
      reads this
    {
      match s
      case Timestamps => timestamps
      case Latencies => latencies
      case Throughput => throughput
      case Queries => queries
      case CpuPercent => cpuPercent
      case GpuMemoryMb => gpuMemoryMb
      case QueueWaitMs => queueWaitMs
      case TokenizeMs => tokenizeMs
      case InferenceMs => inferenceMs
    }

    /** `to_dict()`: exactly the nine series keys; the clock and the count
        are not exposed. */
    function ToDict(): (d: map<Series, seq<real>>)
      reads this
      ensures forall s: Series :: s in d <==> s in HistorySeries
      ensures forall s: Series :: s in d ==> d[s] == Get(s)
      ensures GpuUtilizationPct !in d && PaddingPct !in d && OverheadMs !in d
    {
      map s | s in HistorySeries :: Get(s)
    }

    lemma EmptyDict()
      requires Empty()
      ensures forall s: Series :: s in ToDict() ==> ToDict()[s] == []
    {
      forall s: Series | s in ToDict()
        ensures ToDict()[s] == []
      {
        match s
        case Timestamps => case Latencies => case Throughput => case Queries =>
        case CpuPercent => case GpuMemoryMb => case QueueWaitMs => case TokenizeMs =>
        case InferenceMs =>
      }
    }

    /** Appends one point to all nine series. */
    method AppendPoint(p: Point)
      requires Aligned()
      modifies this
      ensures Aligned()
      ensures timestamps == old(timestamps) + [p.timestamp]
      ensures latencies == old(latencies) + [p.latency]
      ensures throughput == old(throughput) + [p.throughput]
      ensures queries == old(queries) + [p.queries]
      ensures cpuPercent == old(cpuPercent) + [p.cpuPercent]
      ensures gpuMemoryMb == old(gpuMemoryMb) + [p.gpuMemoryMb]
      ensures queueWaitMs == old(queueWaitMs) + [p.queueWaitMs]
      ensures tokenizeMs == old(tokenizeMs) + [p.tokenizeMs]
      ensures inferenceMs == old(inferenceMs) + [p.inferenceMs]
      ensures startTime == old(startTime) && lastRequestCount == old(lastRequestCount)
    {
      timestamps, latencies, throughput, queries, cpuPercent :=
        timestamps + [p.timestamp], latencies + [p.latency], throughput + [p.throughput],
        queries + [p.queries], cpuPercent + [p.cpuPercent];
      gpuMemoryMb, queueWaitMs, tokenizeMs, inferenceMs :=
        gpuMemoryMb + [p.gpuMemoryMb], queueWaitMs + [p.queueWaitMs],
        tokenizeMs + [p.tokenizeMs], inferenceMs + [p.inferenceMs];
    }
  }

  class MetricsServer {
    const collector: MlCollector.MetricsCollector
    const history: MetricsHistory

    /** `MetricsServer(collector)`: the server keeps the collector it
        reports on and starts an empty history. */
    constructor (collector: MlCollector.MetricsCollector, now: real)
      ensures this.collector == collector
      ensures fresh(history) && history.Empty() && history.Aligned()
      ensures history.startTime == now && history.lastRequestCount == 0.0
    {
      this.collector := collector;
      history := new MetricsHistory(now);
    }

    /** `update_history()` with `summary` the collector's summary: a point
        is added to all nine series only while running and with a count
        above the last one, which the count then becomes. */
    method UpdateHistory(summary: Summary, now: real)
      requires history.Aligned()
      modifies history
      ensures history.Aligned() && history.startTime == old(history.startTime)
      ensures !Records(summary, old(history.lastRequestCount)) ==> unchanged(history)
      ensures Records(summary, old(history.lastRequestCount)) ==>
        var p := PointOf(summary, now - history.startTime);
        history.timestamps == old(history.timestamps) + [p.timestamp] &&
        history.latencies == old(history.latencies) + [p.latency] &&
        history.throughput == old(history.throughput) + [p.throughput] &&
        history.queries == old(history.queries) + [p.queries] &&
        history.cpuPercent == old(history.cpuPercent) + [p.cpuPercent] &&
        history.gpuMemoryMb == old(history.gpuMemoryMb) + [p.gpuMemoryMb] &&
        history.queueWaitMs == old(history.queueWaitMs) + [p.queueWaitMs] &&
        history.tokenizeMs == old(history.tokenizeMs) + [p.tokenizeMs] &&
        history.inferenceMs == old(history.inferenceMs) + [p.inferenceMs] &&
        history.lastRequestCount == Count(summary) && !Records(summary, history.lastRequestCount)
    {
      if Running(summary) && Count(summary) > history.lastRequestCount {
        var p := PointOf(summary, now - history.startTime);
        history.AppendPoint(p);
        history.lastRequestCount := Count(summary);
      }
    }

    /** `reset_history()`: the history is reset and so is the collector:
        its components are cleared, its clocks restarted and its frozen
        snapshot dropped. */
    method ResetHistory(now: real)
      requires collector.Valid()
      modifies history, collector`startTime, collector`lastUpdateTime, collector`frozenSnapshot
      modifies collector.latency, collector.throughput, collector.padding, collector.stages
      ensures history.Empty() && history.Aligned() && history.lastRequestCount == 0.0
      ensures history.startTime == now
      ensures collector.Valid()
      ensures collector.latency.latencies == [] && collector.throughput.requestCount == 0
      ensures collector.throughput.queryCount == 0 && collector.padding.Empty() && collector.stages.Cleared()
      ensures collector.startTime == now && collector.frozenSnapshot == None && !collector.IsActive(now)
    {
      history.Reset(now);
      collector.Reset(now);
    }

    /** The `/metrics` reply: the history is updated from `first`, and the
        reply is a second summary with the history's dictionary. */
    method HandleMetrics(first: Summary, second: Summary, now: real) returns (reply: (Summary, map<Series, seq<real>>))
      requires history.Aligned()
      modifies history
      ensures history.Aligned()
      ensures reply.0 == second && reply.1 == history.ToDict()
      ensures forall s: Series :: s in reply.1 <==> s in HistorySeries
    {
      UpdateHistory(first, now);
      reply := (second, history.ToDict());
    }
  }

  /** The dispatch of `do_GET`: the query string is dropped; only "/"
      asks for the page; "/metrics", "/reset" and "/static/<file>" as in
      the main dashboard; anything else is 404. */
  function Route(requestPath: string): Target
  {
    var path := PathOnly(requestPath);
    if path == "/" then Index
    else if path == "/metrics" then MetricsEndpoint
    else if path == "/reset" then ResetEndpoint
    else if StartsWith(path, "/static/") then StaticFile(path[8..])
    else NotFound
  }

  lemma RouteIgnoresQuery(path: string, query: string)
    requires Free(path, '?')
    ensures Route(path + "?" + query) == Route(path)
  {
    QueryIgnored(path, query);
  }

  /** Unlike the main dashboard, "/index.html" is not the page. */
  lemma IndexOnlyAtRoot(relative: string)
    requires Free(relative, '?')
    ensures Route("/") == Index
    ensures Route("/index.html") == NotFound
    ensures Route("/static/" + relative) == StaticFile(relative)
  {
    var path := "/static/" + relative;
    assert Free(path, '?');
    StaticPrefix(relative);
    assert path[1] == 's';
    assert "/index.html"[1] == 'i';
  }

  /** `_send_file(filepath)`: 404 unless the path names a regular file
      that resolves inside the dashboard directory. */
  function SendFile(files: set<Path>, dashboardDir: Path, p: Path): (r: Option<Path>)
    ensures r.Some? <==> p in files && Within(dashboardDir, p)
    ensures r.Some? ==> r.value == p
  {
    if p !in files then None
    else if !Within(dashboardDir, p) then None
    else Some(p)
  }

  /** `_handle_static(path)`: the file below `dashboard/static`. */
  function SendStatic(files: set<Path>, dashboardDir: Path, relative: string): Option<Path>
  {
    SendFile(files, dashboardDir, Resolve(dashboardDir + ["static"], relative))
  }

  /** A static request never reaches a file outside the dashboard
      directory, and reaches every regular file a path without ".."
      names below the static directory. */
  lemma StaticStaysInside(files: set<Path>, dashboardDir: Path, relative: string)
    ensures SendStatic(files, dashboardDir, relative).Some? ==>
      Within(dashboardDir, SendStatic(files, dashboardDir, relative).value)
    ensures Descends(relative) && Resolve(dashboardDir + ["static"], relative) in files ==>
      SendStatic(files, dashboardDir, relative) == Some(Resolve(dashboardDir + ["static"], relative))
  {
    var dir := dashboardDir + ["static"];
    if Descends(relative) {
      NormaliseStaysWithin(dir, Split(relative, '/'));
      var p := Resolve(dir, relative);
      assert p[..|dashboardDir|] == p[..|dir|][..|dashboardDir|];
    }
  }
}
