/** The dashboard server of the benchmark client (src/frontend/server.py):
    the shared `DashboardState` that records one history point per new
    batch of requests, and the GET dispatch of its request handler. The
    state holds the attached metrics collector; the summaries the
    collector returns are parameters, and wall-clock time is the `now`
    parameter. */
module FrontendServer {
  import opened Wrappers
  import opened Text
  import opened Paths
  import opened CollectorSummary
  import opened DashboardModels
  import SM = ServerMetrics

  /** The eleven series `update_history` appends to have one entry per
      timestamp. */
  predicate Aligned(h: DashboardHistory)
    reads h
  {
    var n := |h.timestamps|;
    |h.latencies| == n && |h.throughput| == n && |h.queries| == n && |h.cpuPercent| == n &&
    |h.gpuMemoryMb| == n && |h.gpuUtilizationPct| == n && |h.queueWaitMs| == n &&
    |h.tokenizeMs| == n && |h.inferenceMs| == n && |h.paddingPct| == n
  }

  /** The body of a `/metrics` reply: the collector's summary with the
      history added, or the error entry when no collector is attached. */
  datatype MetricsReply =
    | WithSummary(summary: Summary, history: map<Series, seq<real>>)
    | NoCollector(error: string, history: map<Series, seq<real>>)

  class DashboardState {
    const history: DashboardHistory
    var collector: Option<SM.MetricsCollector>
    var startTime: real
    var lastRequestCount: real

    /** The attached collector, as a frame. */
    ghost function Attached(): set<object>
      reads this
    {
      if collector.Some? then {collector.value} else {}
    }

    ghost predicate Valid()
      reads this, history, Attached()
    {
      Aligned(history) && (collector.Some? ==> collector.value.Valid())
    }

    /** The first initialisation: an empty history, no collector. */
    constructor (now: real)
      ensures Valid() && fresh(history) && history.Empty()
      ensures collector == None && startTime == now && lastRequestCount == 0.0
    {
      history := new DashboardHistory();
      collector := None;
      startTime := now;
      lastRequestCount := 0.0;
    }

    /** `set_metrics_collector(collector)`. */
    method SetMetricsCollector(c: SM.MetricsCollector)
      requires Valid() && c.Valid()
      modifies this
      ensures Valid() && collector == Some(c)
      ensures startTime == old(startTime) && lastRequestCount == old(lastRequestCount)
    {
      collector := Some(c);
    }

    /** `reset()`: the history is emptied, the count and the clock restart,
        and an attached collector is reset as well: its counters zeroed,
        its lists emptied and its clocks restarted at `now`. */
    method Reset(now: real)
      requires Valid()
      modifies this, history, Attached()
      ensures Valid() && history.Empty()
      ensures lastRequestCount == 0.0 && startTime == now && collector == old(collector)
      ensures collector.Some? ==> var c := collector.value;
        c.latencies == [] && c.requestCount == 0 && c.queryCount == 0 &&
        c.startTime == now && c.lastUpdateTime == now && c.padding == SM.NoPadding &&
        c.recentQueries == [] && c.recentLatencies == [] &&
        (forall s: SM.Stage :: s in c.stageLatencies && c.stageLatencies[s] == [])
    {
      history.Reset();
      lastRequestCount := 0.0;
      startTime := now;
      if collector.Some? {
        collector.value.Reset(now);
      }
    }

    /** `update_history()` with `summary` the collector's summary: without
        a collector, or unless running with a count above the last one,
        nothing changes; otherwise each of the eleven series gets the new
        point's value and the last count becomes the current one, so the
        same summary cannot record twice. */
    method UpdateHistory(summary: Summary, now: real)
      requires Valid()
      modifies this, history
      ensures Valid()
      ensures startTime == old(startTime) && collector == old(collector)
      ensures !(old(collector.Some?) && Records(summary, old(lastRequestCount))) ==>
        unchanged(history) && lastRequestCount == old(lastRequestCount)
      ensures old(collector.Some?) && Records(summary, old(lastRequestCount)) ==>
        var p := PointOf(summary, now - startTime);
        history.timestamps == old(history.timestamps) + [p.timestamp] &&
        history.latencies == old(history.latencies) + [p.latency] &&
        history.throughput == old(history.throughput) + [p.throughput] &&
        history.queries == old(history.queries) + [p.queries] &&
        history.cpuPercent == old(history.cpuPercent) + [p.cpuPercent] &&
        history.gpuMemoryMb == old(history.gpuMemoryMb) + [p.gpuMemoryMb] &&
        history.gpuUtilizationPct == old(history.gpuUtilizationPct) + [p.gpuUtilizationPct] &&
        history.queueWaitMs == old(history.queueWaitMs) + [p.queueWaitMs] &&
        history.tokenizeMs == old(history.tokenizeMs) + [p.tokenizeMs] &&
        history.inferenceMs == old(history.inferenceMs) + [p.inferenceMs] &&
        history.paddingPct == old(history.paddingPct) + [p.paddingPct] &&
        history.overheadMs == old(history.overheadMs) &&
        history.tokenizerWorkerLatencies == old(history.tokenizerWorkerLatencies) &&
        history.tokenizerWorkerRequests == old(history.tokenizerWorkerRequests) &&
        |history.timestamps| == |old(history.timestamps)| + 1 &&
        lastRequestCount == Count(summary) && !Records(summary, lastRequestCount)
    {
      if collector.None? {
        return;
      }
      if Running(summary) && Count(summary) > lastRequestCount {
        var p := PointOf(summary, now - startTime);
        AppendPoint(p);
        lastRequestCount := Count(summary);
      }
    }

    /** Appends one point to the eleven recorded series. */
    method AppendPoint(p: Point)
      requires Valid()
      modifies history
      ensures Valid()
      ensures history.timestamps == old(history.timestamps) + [p.timestamp]
      ensures history.latencies == old(history.latencies) + [p.latency]
      ensures history.throughput == old(history.throughput) + [p.throughput]
      ensures history.queries == old(history.queries) + [p.queries]
      ensures history.cpuPercent == old(history.cpuPercent) + [p.cpuPercent]
      ensures history.gpuMemoryMb == old(history.gpuMemoryMb) + [p.gpuMemoryMb]
      ensures history.gpuUtilizationPct == old(history.gpuUtilizationPct) + [p.gpuUtilizationPct]
      ensures history.queueWaitMs == old(history.queueWaitMs) + [p.queueWaitMs]
      ensures history.tokenizeMs == old(history.tokenizeMs) + [p.tokenizeMs]
      ensures history.inferenceMs == old(history.inferenceMs) + [p.inferenceMs]
      ensures history.paddingPct == old(history.paddingPct) + [p.paddingPct]
      ensures history.overheadMs == old(history.overheadMs)
      ensures history.tokenizerWorkerLatencies == old(history.tokenizerWorkerLatencies)
      ensures history.tokenizerWorkerRequests == old(history.tokenizerWorkerRequests)
    {
      history.timestamps, history.latencies, history.throughput, history.queries :=
        history.timestamps + [p.timestamp], history.latencies + [p.latency],
        history.throughput + [p.throughput], history.queries + [p.queries];
      history.cpuPercent, history.gpuMemoryMb, history.gpuUtilizationPct :=
        history.cpuPercent + [p.cpuPercent], history.gpuMemoryMb + [p.gpuMemoryMb],
        history.gpuUtilizationPct + [p.gpuUtilizationPct];
      history.queueWaitMs, history.tokenizeMs, history.inferenceMs, history.paddingPct :=
        history.queueWaitMs + [p.queueWaitMs], history.tokenizeMs + [p.tokenizeMs],
        history.inferenceMs + [p.inferenceMs], history.paddingPct + [p.paddingPct];
    }

    /** `get_metrics_response()`: the history is updated from one summary
        (`first`), then the reply carries a second summary (`second`) and
        the history; without a collector it is the error entry. */
    method GetMetricsResponse(first: Summary, second: Summary, now: real) returns (reply: MetricsReply)
      requires Valid()
      modifies this, history
      ensures Valid()
      ensures collector == old(collector)
      ensures collector.Some? ==> reply == WithSummary(second, history.ToDict())
      ensures collector.None? ==> reply == NoCollector("No metrics available", history.ToDict()) && unchanged(history)
    {
      UpdateHistory(first, now);
      if collector.Some? {
        reply := WithSummary(second, history.ToDict());
      } else {
        reply := NoCollector("No metrics available", history.ToDict());
      }
    }
  }

  /** The class attribute `DashboardState._instance`: every
      `DashboardState()` call returns the one instance created first. */
  class DashboardStateSingleton {
    var instance: DashboardState?

    constructor ()
      ensures instance == null
    {
      instance := null;
    }

    /** `DashboardState()`: creates and initialises the instance on the
        first call and returns the same instance on every later call. */
    method Get(now: real) returns (state: DashboardState)
      modifies this
      ensures instance == state
      ensures old(instance) != null ==> state == old(instance)
      ensures old(instance) == null ==> fresh(state) && state.Valid() && state.history.Empty() && state.collector == None
    {
      if instance == null {
        instance := new DashboardState(now);
      }
      state := instance;
    }
  }

  /** The dispatch of `do_GET`: the query string is dropped; "/" and
      "/index.html" ask for the page, "/metrics" and "/reset" for their
      handlers, "/static/<file>" for a static file, anything else is 404. */
  function Route(requestPath: string): Target
  {
    var path := PathOnly(requestPath);
    if path == "/" || path == "/index.html" then Index
    else if path == "/metrics" then MetricsEndpoint
    else if path == "/reset" then ResetEndpoint
    else if StartsWith(path, "/static/") then StaticFile(path[8..])
    else NotFound
  }

  /** Dispatch depends on the path only, never on the query string. */
  lemma RouteIgnoresQuery(path: string, query: string)
    requires Free(path, '?')
    ensures Route(path + "?" + query) == Route(path)
  {
    QueryIgnored(path, query);
  }

  /** Every "/static/" path is served from the static directory, with the
      prefix stripped, whatever follows it. */
  lemma StaticRoute(relative: string)
    requires Free(relative, '?')
    ensures Route("/static/" + relative) == StaticFile(relative)
  {
    var path := "/static/" + relative;
    assert Free(path, '?');
    StaticPrefix(relative);
    assert path[1] == 's';
  }

  /** The page itself, also behind a query string. */
  lemma IndexRoute(query: string)
    ensures Route("/?" + query) == Index && Route("/index.html?" + query) == Index
    ensures Route("/") == Index && Route("/index.html") == Index
  {
    QueryIgnored("/", query);
    QueryIgnored("/index.html", query);
    assert "/" + "?" + query == "/?" + query;
    assert "/index.html" + "?" + query == "/index.html?" + query;
  }

  /** `_send_file(STATIC_DIR / relative)` as written: the resolved path is
      sent whenever it names a regular file, wherever that file is. */
  function SendStaticAsWritten(files: set<Path>, staticDir: Path, relative: string): Option<Path>
  {
    var p := Resolve(staticDir, relative);
    if p in files then Some(p) else None
  }

  /** A request for "/static/../<name>" is answered with the file <name>
      next to the static directory, outside it. */
  lemma StaticEscapesAsWritten(files: set<Path>, staticDir: Path, name: string)
    requires staticDir != [] && Plain(name) && Free(name, '?') && name != staticDir[|staticDir| - 1]
    requires staticDir[..|staticDir| - 1] + [name] in files
    ensures Route("/static/../" + name) == StaticFile("../" + name)
    ensures SendStaticAsWritten(files, staticDir, "../" + name) == Some(staticDir[..|staticDir| - 1] + [name])
    ensures !Within(staticDir, staticDir[..|staticDir| - 1] + [name])
  {
    assert "/static/../" + name == "/static/" + ("../" + name);
    assert Free("../" + name, '?') by {
      assert forall i :: 0 <= i < |name| ==> ("../" + name)[i + 3] == name[i];
    }
    StaticRoute("../" + name);
    ParentEscapes(staticDir, name);
  }

  /** `_send_file` with the containment check the inference server's
      dashboard makes: a file outside the static directory is 404. */
  function SendStatic(files: set<Path>, staticDir: Path, relative: string): (r: Option<Path>)
    ensures r.Some? ==> r.value in files && Within(staticDir, r.value)
    ensures r.None? ==> Resolve(staticDir, relative) !in files || !Within(staticDir, Resolve(staticDir, relative))
  {
    var p := Resolve(staticDir, relative);
    if p in files && Within(staticDir, p) then Some(p) else None
  }

  /** The check refuses nothing a relative path without ".." reaches. */
  lemma SendStaticKeepsPlainPaths(files: set<Path>, staticDir: Path, relative: string)
    requires Descends(relative)
    ensures SendStatic(files, staticDir, relative) == SendStaticAsWritten(files, staticDir, relative)
  {
    NormaliseStaysWithin(staticDir, Split(relative, '/'));
  }
}
