/** The part of a metrics collector's `summary()` dictionary that the two
    dashboard servers read when they record a history point, and the
    request targets both servers dispatch to. */
module CollectorSummary {
  import opened Wrappers
  import opened Text
  import opened Decimal

  /** A summary: its numeric entries, its `is_running` flag (absent in a
      summary taken before any request) and its `padding_analysis`
      sub-dictionary. */
  datatype Summary = Summary(
    values: map<string, real>,
    isRunning: Option<bool>,
    padding: Option<map<string, real>>)

  /** `d.get(key, default)`. */
  function Lookup(d: map<string, real>, key: string, default: real): (v: real)
    ensures key in d ==> v == d[key]
    ensures key !in d ==> v == default
  {
    if key in d then d[key] else default
  }

  /** `summary.get("count", 0)`. */
  function Count(s: Summary): real
  {
    Lookup(s.values, "count", 0.0)
  }

  /** `summary.get("is_running", False)`. */
  predicate Running(s: Summary)
  {
    s.isRunning == Some(true)
  }

  /** A point is recorded only while running and after new requests. */
  predicate Records(s: Summary, lastCount: real)
  {
    Running(s) && Count(s) > lastCount
  }

  /** The values one history point holds, rounded as the servers round
      them (`round(x, 1)` or `round(x, 2)`; the query count is not rounded). */
  datatype Point = Point(
    timestamp: real, latency: real, throughput: real, queries: real,
    cpuPercent: real, gpuMemoryMb: real, gpuUtilizationPct: real,
    queueWaitMs: real, tokenizeMs: real, inferenceMs: real, paddingPct: real)

  /** The latency a point shows: the instant latency, else the mean
      latency, else 0. */
  function PointLatency(s: Summary): (v: real)
    ensures "instant_latency_ms" in s.values ==> v == s.values["instant_latency_ms"]
    ensures "instant_latency_ms" !in s.values && "avg_ms" in s.values ==> v == s.values["avg_ms"]
    ensures "instant_latency_ms" !in s.values && "avg_ms" !in s.values ==> v == 0.0
  {
    Lookup(s.values, "instant_latency_ms", Lookup(s.values, "avg_ms", 0.0))
  }

  /** The point recorded from summary `s`, `elapsed` seconds after start. */
  function PointOf(s: Summary, elapsed: real): (p: Point)
    ensures p.queries == Lookup(s.values, "query_count", 0.0)
    ensures PointLatency(s) - 0.005 <= p.latency <= PointLatency(s) + 0.005
    ensures elapsed - 0.05 <= p.timestamp <= elapsed + 0.05
    ensures elapsed >= 0.0 ==> p.timestamp >= 0.0
  {
    var v := s.values;
    RoundedWithin(PointLatency(s), 2);
    RoundedWithin(elapsed, 1);
    assert Pow10(2) == 100 && Pow10(1) == 10;
    Point(
      Rounded(elapsed, 1),
      Rounded(PointLatency(s), 2),
      Rounded(Lookup(v, "throughput_qps", 0.0), 2),
      Lookup(v, "query_count", 0.0),
      Rounded(Lookup(v, "cpu_percent", 0.0), 1),
      Rounded(Lookup(v, "gpu_memory_mb", 0.0), 1),
      Rounded(Lookup(v, "gpu_utilization_pct", 0.0), 1),
      Rounded(Lookup(v, "last_queue_wait_ms", 0.0), 2),
      Rounded(Lookup(v, "last_tokenize_ms", 0.0), 2),
      Rounded(Lookup(v, "last_inference_ms", 0.0), 2),
      Rounded(Lookup(s.padding.GetOr(map[]), "last_padding_pct", 0.0), 1))
  }

  /** What a GET request asks for. */
  datatype Target = Index | MetricsEndpoint | ResetEndpoint | StaticFile(relative: string) | NotFound

  /** `self.path.split("?")[0]`: the request path without its query string. */
  function PathOnly(requestPath: string): (p: string)
    ensures Free(p, '?')
    ensures Free(requestPath, '?') ==> p == requestPath
  {
    SplitHeadFree(requestPath, '?');
    if Free(requestPath, '?') then SplitFree(requestPath, '?'); Split(requestPath, '?')[0]
    else Split(requestPath, '?')[0]
  }

  lemma {:induction false} SplitHeadFree(s: string, c: char)
    ensures Free(Split(s, c)[0], c)
  {
    if s != [] && s[0] != c {
      SplitHeadFree(s[1..], c);
    }
  }

  /** A query string never changes what a path asks for. */
  lemma QueryIgnored(path: string, query: string)
    requires Free(path, '?')
    ensures PathOnly(path + "?" + query) == path
  {
    SplitAtSeparator(path, '?', query);
    assert path + "?" + query == path + ['?'] + query;
  }

  /** A path naming a static asset: what follows the prefix is the file. */
  lemma StaticPrefix(relative: string)
    ensures StartsWith("/static/" + relative, "/static/")
    ensures ("/static/" + relative)[8..] == relative
  {
    assert ("/static/" + relative)[..8] == "/static/";
  }
}
