/** The inference server's metric components
    (`ml_inference_server/metrics/components`): request latencies,
    throughput, padding waste and per-stage timings. Each component is an
    object whose methods update its fields; the clock is the `now`
    parameter, numpy's percentile and standard deviation are the
    `percentile` and `std` parameters, and the components' locks are not
    modelled. */
module MlComponents {
  import opened Wrappers
  import opened SeqMath
  import opened Decimal
  import SM = ServerMetrics

  /** Every recent deque holds at most this many samples. */
  const Cap: nat := 200

  /** numpy `std` of a non-empty array. */
  type Spread = seq<real> -> real

  // ---------------------------------------------------------------------
  // Latency

  datatype LatencyStats = LatencyStats(
    count: nat, avgMs: real, minMs: real, maxMs: real, stdMs: real, p50Ms: real, p95Ms: real, p99Ms: real)

  /** `LatencyTracker`. */
  class LatencyTracker {
    var latencies: seq<real>
    var recentLatencies: seq<(real, real)>
    var lastLatencyMs: real

    /** The last latency is the newest one; the recent deque is bounded
        and is empty exactly when nothing was recorded. */
    ghost predicate Valid()
      reads this
    {
      lastLatencyMs == LastOr(latencies, 0.0) &&
      |recentLatencies| <= Cap &&
      (latencies == [] <==> recentLatencies == [])
    }

    constructor ()
      ensures Valid() && latencies == [] && recentLatencies == [] && lastLatencyMs == 0.0
    {
      latencies := [];
      recentLatencies := [];
      lastLatencyMs := 0.0;
    }

    /** `record(duration_ms)` at time `now`. */
    method Record(durationMs: real, now: real)
      requires Valid()
      modifies this
      ensures Valid()
      ensures latencies == old(latencies) + [durationMs] && lastLatencyMs == durationMs
      ensures recentLatencies == Push(old(recentLatencies), (now, durationMs), Cap)
      ensures Count() == old(Count()) + 1
    {
      latencies := latencies + [durationMs];
      recentLatencies := Push(recentLatencies, (now, durationMs), Cap);
      lastLatencyMs := durationMs;
    }

    /** `get_instant_latency(window_sec)`: the mean of the recent samples
        at most `window` old, or the last latency when there are none. */
    function InstantLatency(now: real, window: real): (l: real)
      reads this
      ensures recentLatencies == [] ==> l == lastLatencyMs
      ensures Recent(recentLatencies, now, window) == [] ==> l == lastLatencyMs
      ensures Recent(recentLatencies, now, window) != [] ==>
        l == Mean(Recent(recentLatencies, now, window)) &&
        Min(Recent(recentLatencies, now, window)) <= l <= Max(Recent(recentLatencies, now, window))
    {
      RecentSum(recentLatencies, now, window);
      if recentLatencies == [] then lastLatencyMs
      else
        var inWindow := Recent(recentLatencies, now, window);
        if inWindow != [] then
          MeanBetweenMinMax(inWindow);
          Mean(inWindow)
        else lastLatencyMs
    }

    /** `get_stats()`: all zero before any latency. */
    function Stats(percentile: Percentile, std: Spread): (s: LatencyStats)
      reads this
      ensures s.count == |latencies|
      ensures latencies == [] ==> s == LatencyStats(0, 0.0, 0.0, 0.0, 0.0, 0.0, 0.0, 0.0)
      ensures latencies != [] ==>
        s.minMs == Min(latencies) && s.maxMs == Max(latencies) && s.avgMs == Mean(latencies) &&
        s.minMs <= s.avgMs <= s.maxMs && s.p50Ms == percentile(latencies, 50.0)
      ensures latencies != [] ==>
        s.p95Ms == percentile(latencies, 95.0) && s.p99Ms == percentile(latencies, 99.0) &&
        s.stdMs == std(latencies)
    {
      if latencies == [] then LatencyStats(0, 0.0, 0.0, 0.0, 0.0, 0.0, 0.0, 0.0)
      else
        MeanBetweenMinMax(latencies);
        LatencyStats(|latencies|, Mean(latencies), Min(latencies), Max(latencies), std(latencies),
          percentile(latencies, 50.0), percentile(latencies, 95.0), percentile(latencies, 99.0))
    }

    /** The `count` property. */
    function Count(): nat
      reads this
    {
      |latencies|
    }

    /** `reset()`. */
    method Reset()
      modifies this
      ensures Valid() && latencies == [] && recentLatencies == [] && lastLatencyMs == 0.0
      ensures Count() == 0
    {
      latencies := [];
      recentLatencies := [];
      lastLatencyMs := 0.0;
    }
  }

  // ---------------------------------------------------------------------
  // Throughput

  datatype ThroughputStats = ThroughputStats(
    instantQps: real, avgQps: real, totalQueries: int, totalRequests: nat, elapsedSeconds: real)

  /** `ThroughputTracker`. */
  class ThroughputTracker {
    var startTime: real
    var queryCount: int
    var requestCount: nat
    var recentQueries: seq<(real, real)>

    /** The recent deque is bounded and empty exactly before the first
        request; no queries are counted before the first request. */
    ghost predicate Valid()
      reads this
    {
      |recentQueries| <= Cap &&
      (requestCount == 0 <==> recentQueries == []) &&
      (requestCount == 0 ==> queryCount == 0)
    }

    constructor (now: real)
      ensures Valid() && startTime == now && queryCount == 0 && requestCount == 0 && recentQueries == []
    {
      startTime := now;
      queryCount := 0;
      requestCount := 0;
      recentQueries := [];
    }

    /** `record(num_queries)` at time `now`: one more request and
        `numQueries` more queries (callers that omit it pass 1). */
    method Record(numQueries: int, now: real)
      requires Valid()
      modifies this
      ensures Valid()
      ensures queryCount == old(queryCount) + numQueries && requestCount == old(requestCount) + 1
      ensures recentQueries == Push(old(recentQueries), (now, numQueries as real), Cap)
      ensures startTime == old(startTime)
    {
      queryCount := queryCount + numQueries;
      requestCount := requestCount + 1;
      recentQueries := Push(recentQueries, (now, numQueries as real), Cap);
    }

    /** `get_instant_qps(window_sec)`: 0 with no samples; otherwise the
        queries at most `window` old divided by the window, which Python
        refuses for a zero window. */
    function InstantQps(now: real, window: real): (r: Result<real>)
      reads this
      ensures recentQueries == [] ==> r == Ok(0.0)
      ensures recentQueries != [] && window == 0.0 ==> r == Err(ZeroDivisionError)
      ensures recentQueries != [] && window != 0.0 ==>
        r.Ok? && r.value * window == WindowTotal(recentQueries, now, window)
    {
      if recentQueries == [] then Ok(0.0)
      else if window == 0.0 then Err(ZeroDivisionError)
      else Ok(WindowTotal(recentQueries, now, window) / window)
    }

    /** `get_avg_qps()`: queries per second since the start, 0 when no time
        has passed. */
    function AvgQps(now: real): (q: real)
      reads this
      ensures now - startTime <= 0.0 ==> q == 0.0
      ensures now - startTime > 0.0 ==> q * (now - startTime) == queryCount as real
    {
      SM.Rate(queryCount as real, now - startTime)
    }

    /** `get_stats()`: the instant rate is the one-second rate of
        `get_instant_qps`, the average rate that of `get_avg_qps`. */
    function Stats(now: real): (s: ThroughputStats)
      reads this
      ensures s.instantQps == InstantQps(now, 1.0).value && s.avgQps == AvgQps(now)
      ensures s.totalQueries == queryCount && s.totalRequests == requestCount && s.elapsedSeconds == now - startTime
    {
      var instant := if recentQueries != [] then WindowTotal(recentQueries, now, 1.0) / 1.0 else 0.0;
      ThroughputStats(instant, AvgQps(now), queryCount, requestCount, now - startTime)
    }

    /** `reset()`: counters cleared and the clock restarted at `now`. */
    method Reset(now: real)
      modifies this
      ensures Valid() && startTime == now && queryCount == 0 && requestCount == 0 && recentQueries == []
    {
      startTime := now;
      queryCount := 0;
      requestCount := 0;
      recentQueries := [];
    }
  }

  // ---------------------------------------------------------------------
  // Padding

  datatype PaddingStats = PaddingStats(
    avgPaddingPct: real, p50PaddingPct: real, p95PaddingPct: real, totalWastedComputePct: real,
    lastPaddingPct: real, avgMaxSeqLength: int, avgAvgSeqLength: real,
    lastMaxSeqLength: int, lastAvgSeqLength: real)

  /** Every element is positive. */
  predicate Positive(s: seq<real>)
  {
    forall i :: 0 <= i < |s| ==> s[i] > 0.0
  }

  const NoPaddingStats := PaddingStats(0.0, 0.0, 0.0, 0.0, 0.0, 0, 0.0, 0, 0.0)

  /** The share of all tokens that were padding, as a percentage; 0 when
      there were no tokens. */
  function WastedPct(padded: int, real_: int): (w: real)
    ensures padded + real_ <= 0 ==> w == 0.0
    ensures padded + real_ > 0 ==> w * (padded + real_) as real == padded as real * 100.0
    ensures padded >= 0 && real_ >= 0 ==> 0.0 <= w <= 100.0
  {
    if padded + real_ > 0 then
      var t := (padded + real_) as real;
      var w := padded as real / t * 100.0;
      assert w * t == padded as real * 100.0;
      ShareAtMostWhole(padded, real_);
      w
    else 0.0
  }

  lemma ShareAtMostWhole(padded: int, real_: int)
    ensures padded >= 0 && real_ >= 0 && padded + real_ > 0 ==>
      padded as real / (padded + real_) as real <= 1.0
  {
    if padded >= 0 && real_ >= 0 && padded + real_ > 0 {
      UpperBoundDiv(1.0, padded as real, (padded + real_) as real);
    }
  }

  lemma WastedRoundedWithin(padded: int, real_: int)
    ensures padded >= 0 && real_ >= 0 ==> 0.0 <= Rounded(WastedPct(padded, real_), 1) <= 100.0
  {
    if padded >= 0 && real_ >= 0 {
      RoundedAtMost(WastedPct(padded, real_), 100, 1);
    }
  }

  /** `round(float(np.mean(np.array(ratios) * 100)), 1)`: the mean ratio
      as a percentage. */
  function MeanPct(ratios: seq<real>): (a: real)
    requires |ratios| > 0 && Positive(ratios)
    ensures a == Rounded(Mean(ratios) * 100.0, 1) && a >= 0.0
  {
    MeanScale(ratios, 100.0);
    MeanNonNegative(ratios);
    Rounded(Mean(Scale(ratios, 100.0)), 1)
  }

  /** The mean of positive integers, truncated as `int(np.mean(...))`. */
  function TruncatedMean(s: seq<int>): (m: int)
    requires |s| > 0
    requires forall i :: 0 <= i < |s| ==> s[i] > 0
    ensures m >= 0
    ensures m == SumInt(s) / |s|
  {
    SumIntPositive(s);
    FloorOfQuotient(SumInt(s), |s|);
    (SumInt(s) as real / |s| as real).Floor
  }

  /** Truncating a non-negative real quotient is integer division. */
  lemma FloorOfQuotient(x: int, n: int)
    requires x >= 0 && n > 0
    ensures (x as real / n as real).Floor == x / n
  {
    var q, r := x / n, x % n;
    assert x == q * n + r && 0 <= r < n;
    assert x as real / n as real == q as real + r as real / n as real;
    assert 0.0 <= r as real / n as real < 1.0;
  }

  lemma {:induction false} SumIntPositive(s: seq<int>)
    requires forall i :: 0 <= i < |s| ==> s[i] > 0
    ensures SumInt(s) >= 0
  {
    if s != [] { SumIntPositive(s[..|s| - 1]); }
  }

  /** `PaddingAnalyzer`. */
  class PaddingAnalyzer {
    var paddingRatios: seq<real>
    var paddedTokensTotal: int
    var realTokensTotal: int
    var maxSeqLengths: seq<int>
    var avgSeqLengths: seq<real>
    var lastPaddingRatio: real
    var lastMaxSeqLength: int
    var lastAvgSeqLength: real

    /** Only positive values are kept, the last values are the newest
        ones, and the padded total never falls below 0. */
    ghost predicate Valid()
      reads this
    {
      Positive(paddingRatios) &&
      (forall i :: 0 <= i < |maxSeqLengths| ==> maxSeqLengths[i] > 0) &&
      (forall i :: 0 <= i < |avgSeqLengths| ==> avgSeqLengths[i] > 0.0) &&
      lastPaddingRatio == LastOr(paddingRatios, 0.0) &&
      lastMaxSeqLength == LastOr(maxSeqLengths, 0) &&
      lastAvgSeqLength == LastOr(avgSeqLengths, 0.0) &&
      paddedTokensTotal >= 0
    }

    constructor ()
      ensures Valid() && Empty()
    {
      paddingRatios := [];
      paddedTokensTotal := 0;
      realTokensTotal := 0;
      maxSeqLengths := [];
      avgSeqLengths := [];
      lastPaddingRatio := 0.0;
      lastMaxSeqLength := 0;
      lastAvgSeqLength := 0.0;
    }

    /** The initial state. */
    predicate Empty()
      reads this
    {
      paddingRatios == [] && paddedTokensTotal == 0 && realTokensTotal == 0 &&
      maxSeqLengths == [] && avgSeqLengths == [] &&
      lastPaddingRatio == 0.0 && lastMaxSeqLength == 0 && lastAvgSeqLength == 0.0
    }

    /** `record_batch(...)`: a zero ratio is not a sample; the token totals
        move only for a positive padded count, and then grow together by
        `totalTokens`; lengths are kept only when positive. */
    method RecordBatch(ratio: real, paddedTokens: int, totalTokens: int, maxSeqLength: int, avgSeqLength: real)
      requires Valid()
      modifies this
      ensures Valid()
      ensures ratio > 0.0 ==> paddingRatios == old(paddingRatios) + [ratio]
      ensures ratio <= 0.0 ==> paddingRatios == old(paddingRatios) && lastPaddingRatio == old(lastPaddingRatio)
      ensures paddedTokens > 0 ==> (paddedTokensTotal == old(paddedTokensTotal) + paddedTokens &&
        paddedTokensTotal + realTokensTotal == old(paddedTokensTotal) + old(realTokensTotal) + totalTokens)
      ensures paddedTokens <= 0 ==> paddedTokensTotal == old(paddedTokensTotal) && realTokensTotal == old(realTokensTotal)
      ensures paddedTokens <= totalTokens ==> realTokensTotal >= old(realTokensTotal)
      ensures maxSeqLength > 0 ==> maxSeqLengths == old(maxSeqLengths) + [maxSeqLength]
      ensures maxSeqLength <= 0 ==> maxSeqLengths == old(maxSeqLengths)
      ensures avgSeqLength > 0.0 ==> avgSeqLengths == old(avgSeqLengths) + [avgSeqLength]
      ensures avgSeqLength <= 0.0 ==> avgSeqLengths == old(avgSeqLengths)
    {
      if ratio > 0.0 {
        paddingRatios := paddingRatios + [ratio];
        lastPaddingRatio := ratio;
      }
      if paddedTokens > 0 {
        paddedTokensTotal := paddedTokensTotal + paddedTokens;
        realTokensTotal := realTokensTotal + (totalTokens - paddedTokens);
      }
      if maxSeqLength > 0 {
        maxSeqLengths := maxSeqLengths + [maxSeqLength];
        lastMaxSeqLength := maxSeqLength;
      }
      if avgSeqLength > 0.0 {
        avgSeqLengths := avgSeqLengths + [avgSeqLength];
        lastAvgSeqLength := avgSeqLength;
      }
    }

    /** `get_stats()`: all zero without a ratio sample; otherwise the
        ratios as percentages, the wasted share of all tokens, which lies
        in [0, 100] whenever no batch reported more padding than tokens,
        and the length averages. */
    function Stats(percentile: Percentile): (s: PaddingStats)
      reads this
      requires Valid()
      ensures paddingRatios == [] ==> s == NoPaddingStats
      ensures paddingRatios != [] ==>
        s.avgPaddingPct == Rounded(Mean(paddingRatios) * 100.0, 1) &&
        s.totalWastedComputePct == Rounded(WastedPct(paddedTokensTotal, realTokensTotal), 1) &&
        s.lastPaddingPct == Rounded(lastPaddingRatio * 100.0, 1) &&
        s.lastMaxSeqLength == lastMaxSeqLength
      ensures paddingRatios != [] ==>
        s.p50PaddingPct == Rounded(percentile(Scale(paddingRatios, 100.0), 50.0), 1) &&
        s.p95PaddingPct == Rounded(percentile(Scale(paddingRatios, 100.0), 95.0), 1)
      ensures paddingRatios != [] ==>
        s.avgMaxSeqLength == (if maxSeqLengths == [] then 0 else SumInt(maxSeqLengths) / |maxSeqLengths|) &&
        s.avgAvgSeqLength == (if avgSeqLengths == [] then 0.0 else Rounded(Mean(avgSeqLengths), 1)) &&
        s.lastAvgSeqLength == Rounded(lastAvgSeqLength, 1)
      ensures realTokensTotal >= 0 ==> 0.0 <= s.totalWastedComputePct <= 100.0
      ensures s.avgPaddingPct >= 0.0 && s.avgMaxSeqLength >= 0
    {
      if paddingRatios == [] then NoPaddingStats
      else
        var pct := Scale(paddingRatios, 100.0);
        var wasted := WastedPct(paddedTokensTotal, realTokensTotal);
        WastedRoundedWithin(paddedTokensTotal, realTokensTotal);
        PaddingStats(
          MeanPct(paddingRatios), Rounded(percentile(pct, 50.0), 1), Rounded(percentile(pct, 95.0), 1),
          Rounded(wasted, 1), Rounded(lastPaddingRatio * 100.0, 1),
          if maxSeqLengths != [] then TruncatedMean(maxSeqLengths) else 0,
          if avgSeqLengths != [] then Rounded(Mean(avgSeqLengths), 1) else 0.0,
          lastMaxSeqLength, Rounded(lastAvgSeqLength, 1))
    }

    /** `reset()`. */
    method Reset()
      modifies this
      ensures Valid() && Empty()
    {
      paddingRatios := [];
      paddedTokensTotal := 0;
      realTokensTotal := 0;
      maxSeqLengths := [];
      avgSeqLengths := [];
      lastPaddingRatio := 0.0;
      lastMaxSeqLength := 0;
      lastAvgSeqLength := 0.0;
    }
  }

  // ---------------------------------------------------------------------
  // Stages

  /** The five stages of `StageMetricsGroup`. */
  datatype MlStage = GrpcReceive | Tokenize | QueueWait | ModelInference | GrpcSend

  const AllMlStages: set<MlStage> := {GrpcReceive, Tokenize, QueueWait, ModelInference, GrpcSend}

  lemma AllMlStagesComplete()
    ensures forall s: MlStage :: s in AllMlStages
  {
    forall s: MlStage ensures s in AllMlStages {
      match s
      case GrpcReceive => case Tokenize => case QueueWait => case ModelInference => case GrpcSend =>
    }
  }

  /** The tokenize / inference / other split of `get_percentages`. */
  datatype Split = Split(tokenizePct: real, inferencePct: real, otherPct: real)

  /** The split before rounding: nothing to divide by gives 0 / 0 / 100;
      otherwise other is whatever tokenize and inference leave of 100. */
  function RawSplit(tokenizeAvg: real, inferenceAvg: real, totalAvg: real): (p: Split)
    ensures totalAvg <= 0.0 ==> p == Split(0.0, 0.0, 100.0)
    ensures p.tokenizePct + p.inferencePct + p.otherPct == 100.0
    ensures totalAvg > 0.0 ==> (p.tokenizePct * totalAvg == tokenizeAvg * 100.0 &&
      p.inferencePct * totalAvg == inferenceAvg * 100.0)
  {
    if totalAvg <= 0.0 then Split(0.0, 0.0, 100.0)
    else
      var t := tokenizeAvg / totalAvg * 100.0;
      var i := inferenceAvg / totalAvg * 100.0;
      Split(t, i, 100.0 - t - i)
  }

  /** "Other" is not clamped: stages that average more than the request
      latency make it negative. */
  lemma OtherCanBeNegative()
    ensures RawSplit(60.0, 60.0, 100.0).otherPct == -20.0
  {
  }

  /** `get_queue_wait_analysis(total_avg_ms)`. */
  datatype QueueWaitAnalysis = QueueWaitAnalysis(
    avgMs: real, p50Ms: real, p95Ms: real, p99Ms: real, count: nat, queuePctOfLatency: real, lastMs: real)

  /** `StageMetricsGroup`: latencies of the five stages, and for tokenize,
      queue wait and inference also the last value and a recent deque. */
  class StageMetricsGroup {
    var grpcReceive: seq<real>
    var tokenize: seq<real>
    var queueWait: seq<real>
    var modelInference: seq<real>
    var grpcSend: seq<real>
    var recentTokenize: seq<(real, real)>
    var recentInference: seq<(real, real)>
    var recentQueueWait: seq<(real, real)>
    var lastTokenizeMs: real
    var lastInferenceMs: real
    var lastQueueWaitMs: real

    /** The latencies of a stage. */
    function Latencies(s: MlStage): seq<real>
      reads this
    {
      match s
      case GrpcReceive => grpcReceive
      case Tokenize => tokenize
      case QueueWait => queueWait
      case ModelInference => modelInference
      case GrpcSend => grpcSend
    }

    /** Only positive times are kept; each last value is the newest time
        of its stage; the recent deques are bounded. */
    ghost predicate Valid()
      reads this
    {
      GrpcValid() && TokenizeValid() && QueueWaitValid() && InferenceValid()
    }

    ghost predicate GrpcValid()
      reads this`grpcReceive, this`grpcSend
    {
      Positive(grpcReceive) && Positive(grpcSend)
    }

    ghost predicate TokenizeValid()
      reads this`tokenize, this`lastTokenizeMs, this`recentTokenize
    {
      Positive(tokenize) && lastTokenizeMs == LastOr(tokenize, 0.0) && |recentTokenize| <= Cap
    }

    ghost predicate QueueWaitValid()
      reads this`queueWait, this`lastQueueWaitMs, this`recentQueueWait
    {
      Positive(queueWait) && lastQueueWaitMs == LastOr(queueWait, 0.0) && |recentQueueWait| <= Cap
    }

    ghost predicate InferenceValid()
      reads this`modelInference, this`lastInferenceMs, this`recentInference
    {
      Positive(modelInference) && lastInferenceMs == LastOr(modelInference, 0.0) && |recentInference| <= Cap
    }

    constructor ()
      ensures Valid() && Cleared()
    {
      grpcReceive, tokenize, queueWait, modelInference, grpcSend := [], [], [], [], [];
      recentTokenize, recentInference, recentQueueWait := [], [], [];
      lastTokenizeMs, lastInferenceMs, lastQueueWaitMs := 0.0, 0.0, 0.0;
    }

    /** Nothing recorded. */
    predicate Cleared()
      reads this
    {
      grpcReceive == [] && tokenize == [] && queueWait == [] && modelInference == [] && grpcSend == [] &&
      recentTokenize == [] && recentInference == [] && recentQueueWait == [] &&
      lastTokenizeMs == 0.0 && lastInferenceMs == 0.0 && lastQueueWaitMs == 0.0
    }

    /** `record(...)` at time `now`: each positive time is appended to its
        stage; tokenize, queue wait and inference also update their last
        value and recent deque, the two gRPC stages do not. */
    method Record(tGrpcReceive: real, tTokenize: real, tQueueWait: real, tModelInference: real,
                  tGrpcSend: real, now: real)
      requires Valid()
      modifies this`grpcReceive, this`tokenize, this`queueWait, this`modelInference, this`grpcSend,
        this`recentTokenize, this`recentQueueWait, this`recentInference,
        this`lastTokenizeMs, this`lastQueueWaitMs, this`lastInferenceMs
      ensures Valid()
      ensures grpcReceive == old(grpcReceive) + (if tGrpcReceive > 0.0 then [tGrpcReceive] else [])
      ensures tokenize == old(tokenize) + (if tTokenize > 0.0 then [tTokenize] else [])
      ensures queueWait == old(queueWait) + (if tQueueWait > 0.0 then [tQueueWait] else [])
      ensures modelInference == old(modelInference) + (if tModelInference > 0.0 then [tModelInference] else [])
      ensures grpcSend == old(grpcSend) + (if tGrpcSend > 0.0 then [tGrpcSend] else [])
      ensures recentTokenize == if tTokenize > 0.0 then Push(old(recentTokenize), (now, tTokenize), Cap) else old(recentTokenize)
      ensures recentQueueWait == if tQueueWait > 0.0 then Push(old(recentQueueWait), (now, tQueueWait), Cap) else old(recentQueueWait)
      ensures recentInference == if tModelInference > 0.0 then Push(old(recentInference), (now, tModelInference), Cap) else old(recentInference)
    {
      RecordGrpc(tGrpcReceive, tGrpcSend);
      RecordTokenize(tTokenize, now);
      RecordQueueWait(tQueueWait, now);
      RecordInference(tModelInference, now);
    }

    method RecordGrpc(tReceive: real, tSend: real)
      requires GrpcValid()
      modifies this`grpcReceive, this`grpcSend
      ensures GrpcValid()
      ensures grpcReceive == old(grpcReceive) + (if tReceive > 0.0 then [tReceive] else [])
      ensures grpcSend == old(grpcSend) + (if tSend > 0.0 then [tSend] else [])
    {
      grpcReceive := grpcReceive + (if tReceive > 0.0 then [tReceive] else []);
      grpcSend := grpcSend + (if tSend > 0.0 then [tSend] else []);
    }

    method RecordTokenize(t: real, now: real)
      requires TokenizeValid()
      modifies this`tokenize, this`lastTokenizeMs, this`recentTokenize
      ensures TokenizeValid()
      ensures tokenize == old(tokenize) + (if t > 0.0 then [t] else [])
      ensures recentTokenize == if t > 0.0 then Push(old(recentTokenize), (now, t), Cap) else old(recentTokenize)
    {
      if t > 0.0 {
        tokenize := tokenize + [t];
        lastTokenizeMs := t;
        recentTokenize := Push(recentTokenize, (now, t), Cap);
      }
    }

    method RecordQueueWait(t: real, now: real)
      requires QueueWaitValid()
      modifies this`queueWait, this`lastQueueWaitMs, this`recentQueueWait
      ensures QueueWaitValid()
      ensures queueWait == old(queueWait) + (if t > 0.0 then [t] else [])
      ensures recentQueueWait == if t > 0.0 then Push(old(recentQueueWait), (now, t), Cap) else old(recentQueueWait)
    {
      if t > 0.0 {
        queueWait := queueWait + [t];
        lastQueueWaitMs := t;
        recentQueueWait := Push(recentQueueWait, (now, t), Cap);
      }
    }

    method RecordInference(t: real, now: real)
      requires InferenceValid()
      modifies this`modelInference, this`lastInferenceMs, this`recentInference
      ensures InferenceValid()
      ensures modelInference == old(modelInference) + (if t > 0.0 then [t] else [])
      ensures recentInference == if t > 0.0 then Push(old(recentInference), (now, t), Cap) else old(recentInference)
    {
      if t > 0.0 {
        modelInference := modelInference + [t];
        lastInferenceMs := t;
        recentInference := Push(recentInference, (now, t), Cap);
      }
    }

    /** `get_all_stats()`: the statistics of every stage. */
    function AllStats(percentile: Percentile): (m: map<MlStage, SM.StageStats>)
      reads this
      ensures forall s: MlStage :: s in m && m[s].count == |Latencies(s)|
      ensures forall s: MlStage :: s in m && m[s] == SM.StageStatsOf(Latencies(s), percentile)
    {
      AllMlStagesComplete();
      map s: MlStage | s in AllMlStages ::
        SM.StageStatsOf(Latencies(s), percentile)
    }

    /** `get_percentages(total_avg_ms)`: the split of the tokenize and
        inference averages, each part rounded to one decimal. */
    function Percentages(totalAvg: real): (p: Split)
      reads this
      ensures totalAvg <= 0.0 ==> p == Split(0.0, 0.0, 100.0)
      ensures totalAvg > 0.0 ==> p == RoundSplit(RawSplit(SM.AverageOr0(tokenize), SM.AverageOr0(modelInference), totalAvg))
    {
      if totalAvg <= 0.0 then Split(0.0, 0.0, 100.0)
      else RoundSplit(RawSplit(SM.AverageOr0(tokenize), SM.AverageOr0(modelInference), totalAvg))
    }

    /** `get_queue_wait_analysis(total_avg_ms)`: the queue-wait statistics
        rounded to two decimals, and its share of the request latency,
        which is 0 when there is no latency to divide by. */
    function QueueWaitReport(totalAvg: real, percentile: Percentile): (q: QueueWaitAnalysis)
      reads this
      ensures q.count == |queueWait|
      ensures totalAvg <= 0.0 ==> q.queuePctOfLatency == 0.0
      ensures totalAvg > 0.0 ==> q.queuePctOfLatency == Rounded(SM.AverageOr0(queueWait) / totalAvg * 100.0, 1)
      ensures q.avgMs == Rounded(SM.AverageOr0(queueWait), 2) && q.lastMs == Rounded(lastQueueWaitMs, 2)
      ensures queueWait == [] ==> q.p50Ms == 0.0 && q.p95Ms == 0.0 && q.p99Ms == 0.0
      ensures queueWait != [] ==>
        q.p50Ms == Rounded(percentile(queueWait, 50.0), 2) &&
        q.p95Ms == Rounded(percentile(queueWait, 95.0), 2) &&
        q.p99Ms == Rounded(percentile(queueWait, 99.0), 2)
    {
      var st := SM.StageStatsOf(queueWait, percentile);
      var pct := if totalAvg > 0.0 then st.avgMs / totalAvg * 100.0 else 0.0;
      QueueWaitAnalysis(Rounded(st.avgMs, 2), Rounded(st.p50Ms, 2), Rounded(st.p95Ms, 2), Rounded(st.p99Ms, 2),
        st.count, Rounded(pct, 1), Rounded(lastQueueWaitMs, 2))
    }

    /** `reset()`. */
    method Reset()
      modifies this
      ensures Valid() && Cleared()
    {
      grpcReceive, tokenize, queueWait, modelInference, grpcSend := [], [], [], [], [];
      recentTokenize, recentInference, recentQueueWait := [], [], [];
      lastTokenizeMs, lastInferenceMs, lastQueueWaitMs := 0.0, 0.0, 0.0;
    }
  }

  /** Each part of a split rounded to one decimal. */
  function RoundSplit(p: Split): Split
  {
    Split(Rounded(p.tokenizePct, 1), Rounded(p.inferencePct, 1), Rounded(p.otherPct, 1))
  }
}
