/** The metrics collector of the benchmark server
    (src/models/server_metrics.py): per-stage timings, per-worker records,
    padding statistics and the summary the dashboard polls. The nine
    `StageMetrics` fields and the nine `last_*_ms` fields are held as two
    maps keyed by `Stage`; the process monitor, the model pool's GPU
    memory, numpy's percentile and the clock are parameters. */
module ServerMetrics {
  import opened SeqMath
  import opened Decimal
  import opened PyDict

  /** The nine timed stages of a request. */
  datatype Stage =
    | Tokenize | QueueWait | ModelInference | Overhead | MpQueueSend | MpQueueReceive
    | GrpcSerialize | GrpcDeserialize | Scheduler

  const AllStages: set<Stage> := {
    Tokenize, QueueWait, ModelInference, Overhead, MpQueueSend, MpQueueReceive,
    GrpcSerialize, GrpcDeserialize, Scheduler}

  lemma AllStagesComplete()
    ensures forall s: Stage :: s in AllStages
  {
    forall s: Stage ensures s in AllStages {
      match s
      case Tokenize => case QueueWait => case ModelInference => case Overhead =>
      case MpQueueSend => case MpQueueReceive => case GrpcSerialize =>
      case GrpcDeserialize => case Scheduler =>
    }
  }

  /** The `maxlen` of every recent-sample deque. */
  const Cap: nat := 200

  // ---------------------------------------------------------------------
  // Per-stage statistics

  /** `StageMetrics.get_stats()`. */
  datatype StageStats = StageStats(p50Ms: real, p95Ms: real, p99Ms: real, avgMs: real, count: nat)

  function StageStatsOf(latencies: seq<real>, percentile: Percentile): (s: StageStats)
    ensures s.count == |latencies|
    ensures latencies == [] ==> s == StageStats(0.0, 0.0, 0.0, 0.0, 0)
    ensures latencies != [] ==> Min(latencies) <= s.avgMs <= Max(latencies)
    ensures latencies != [] ==> (s.avgMs == Mean(latencies) && s.p50Ms == percentile(latencies, 50.0) &&
      s.p95Ms == percentile(latencies, 95.0) && s.p99Ms == percentile(latencies, 99.0))
  {
    if latencies == [] then StageStats(0.0, 0.0, 0.0, 0.0, 0)
    else
      MeanBetweenMinMax(latencies);
      StageStats(percentile(latencies, 50.0), percentile(latencies, 95.0), percentile(latencies, 99.0),
        Mean(latencies), |latencies|)
  }

  /** `get_stats()["avg_ms"]`: the mean, or 0 for no samples. */
  function AverageOr0(latencies: seq<real>): real
  {
    if latencies == [] then 0.0 else Mean(latencies)
  }

  /** The value passed for a stage to `record_stage_timings`; an argument
      left out is 0. */
  function Given(t: map<Stage, real>, s: Stage): real
  {
    if s in t then t[s] else 0.0
  }

  /** Every stage has a list and a last value; every recorded time is
      positive, and the last value is the newest recorded time, or 0. */
  ghost predicate StagesValid(m: map<Stage, seq<real>>, last: map<Stage, real>)
  {
    (forall s: Stage :: s in m && s in last) &&
    (forall s: Stage :: last[s] == LastOr(m[s], 0.0)) &&
    (forall s: Stage, i :: 0 <= i < |m[s]| ==> m[s][i] > 0.0)
  }

  /** The stage lists after `record_stage_timings(t)`: a stage gets its
      time appended only when the time is positive. */
  function RecordStages(m: map<Stage, seq<real>>, t: map<Stage, real>): (r: map<Stage, seq<real>>)
    ensures forall s :: s in r <==> s in m
    ensures forall s :: s in m && Given(t, s) <= 0.0 ==> r[s] == m[s]
    ensures forall s :: s in m && Given(t, s) > 0.0 ==> r[s] == m[s] + [Given(t, s)]
  {
    map s | s in m :: if Given(t, s) > 0.0 then m[s] + [Given(t, s)] else m[s]
  }

  /** The `last_*_ms` values after `record_stage_timings(t)`. */
  function RecordLast(last: map<Stage, real>, t: map<Stage, real>): (r: map<Stage, real>)
    ensures forall s :: s in r <==> s in last
    ensures forall s :: s in last ==> r[s] == if Given(t, s) > 0.0 then Given(t, s) else last[s]
  {
    map s | s in last :: if Given(t, s) > 0.0 then Given(t, s) else last[s]
  }

  /** Recording keeps the stage lists and last values consistent. */
  lemma RecordKeepsStagesValid(m: map<Stage, seq<real>>, last: map<Stage, real>, t: map<Stage, real>)
    requires StagesValid(m, last)
    ensures StagesValid(RecordStages(m, t), RecordLast(last, t))
  {
    var m', last' := RecordStages(m, t), RecordLast(last, t);
    forall s: Stage, i | 0 <= i < |m'[s]| ensures m'[s][i] > 0.0 {
      if i < |m[s]| { assert m'[s][i] == m[s][i]; }
    }
  }

  /** The recent deque of a charted stage after recording `v` at `now`. */
  function PushIfPositive(recent: seq<(real, real)>, v: real, now: real): (r: seq<(real, real)>)
    ensures |recent| <= Cap ==> |r| <= Cap
    ensures v <= 0.0 ==> r == recent
    ensures v > 0.0 ==> r == Push(recent, (now, v), Cap)
    ensures PositiveValues(recent) ==> PositiveValues(r)
  {
    if v > 0.0 then
      assert PositiveValues(recent) ==> PositiveValues(Push(recent, (now, v), Cap)) by {
        if PositiveValues(recent) { PushPositive(recent, (now, v), Cap); }
      }
      Push(recent, (now, v), Cap)
    else recent
  }

  // ---------------------------------------------------------------------
  // Stage percentages of the summary

  /** One stage's share of the mean request latency, in percent; 0 when
      the mean is not positive. */
  function StagePct(avg: real, totalAvg: real): real
  {
    if totalAvg > 0.0 then avg / totalAvg * 100.0 else 0.0
  }

  /** The nine stage values added up. */
  function Named(p: map<Stage, real>): real
    requires forall s: Stage :: s in p
  {
    p[Tokenize] + p[QueueWait] + p[ModelInference] + p[Overhead] + p[MpQueueSend] +
    p[MpQueueReceive] + p[GrpcSerialize] + p[GrpcDeserialize] + p[Scheduler]
  }

  /** The percentage of every stage. */
  function Shares(avgs: map<Stage, real>, totalAvg: real): (p: map<Stage, real>)
    requires forall s: Stage :: s in avgs
    ensures forall s: Stage :: s in p && p[s] == StagePct(avgs[s], totalAvg)
  {
    map s | s in avgs :: StagePct(avgs[s], totalAvg)
  }

  lemma AddShares(a: real, b: real, t: real)
    requires t > 0.0
    ensures a / t * 100.0 + b / t * 100.0 == (a + b) / t * 100.0
  {
  }

  /** `other_pct`: what the nine stages leave of 100, never negative. */
  function OtherPct(named: real): (o: real)
    ensures o >= 0.0
    ensures named <= 100.0 ==> named + o == 100.0
    ensures named >= 100.0 ==> o == 0.0
  {
    if 100.0 - named > 0.0 then 100.0 - named else 0.0
  }

  /** `other_combined_pct` before rounding: the six overhead stages and the
      unaccounted rest. */
  function Combined(p: map<Stage, real>): real
    requires forall s: Stage :: s in p
  {
    p[Overhead] + p[MpQueueSend] + p[MpQueueReceive] + p[GrpcSerialize] + p[GrpcDeserialize] +
    p[Scheduler] + OtherPct(Named(p))
  }

  /** Tokenize, queue wait, inference and the combined rest fill exactly
      100 percent unless the stages alone exceed it. */
  lemma CombinedCompletes(p: map<Stage, real>)
    requires forall s: Stage :: s in p
    ensures Named(p) <= 100.0 ==> p[Tokenize] + p[QueueWait] + p[ModelInference] + Combined(p) == 100.0
    ensures Named(p) > 100.0 ==> p[Tokenize] + p[QueueWait] + p[ModelInference] + Combined(p) == Named(p)
  {
  }

  /** With a positive mean latency, the nine percentages add up to the nine
      stage averages as a share of the mean: when the stages account for
      the whole mean, they add up to 100 and nothing is left over. */
  lemma SharesOfWhole(avgs: map<Stage, real>, totalAvg: real)
    requires forall s: Stage :: s in avgs
    requires totalAvg > 0.0
    ensures Named(Shares(avgs, totalAvg)) == Named(avgs) / totalAvg * 100.0
    ensures Named(avgs) == totalAvg ==> Named(Shares(avgs, totalAvg)) == 100.0 && OtherPct(Named(Shares(avgs, totalAvg))) == 0.0
  {
    var t := totalAvg;
    AddShares(avgs[Tokenize], avgs[QueueWait], t);
    var a2 := avgs[Tokenize] + avgs[QueueWait];
    AddShares(a2, avgs[ModelInference], t);
    var a3 := a2 + avgs[ModelInference];
    AddShares(a3, avgs[Overhead], t);
    var a4 := a3 + avgs[Overhead];
    AddShares(a4, avgs[MpQueueSend], t);
    var a5 := a4 + avgs[MpQueueSend];
    AddShares(a5, avgs[MpQueueReceive], t);
    var a6 := a5 + avgs[MpQueueReceive];
    AddShares(a6, avgs[GrpcSerialize], t);
    var a7 := a6 + avgs[GrpcSerialize];
    AddShares(a7, avgs[GrpcDeserialize], t);
    var a8 := a7 + avgs[GrpcDeserialize];
    AddShares(a8, avgs[Scheduler], t);
  }

  /** `stage_percentages` as reported: each value rounded to one decimal. */
  datatype Percentages = Percentages(stage: map<Stage, real>, other: real, otherCombined: real)

  function PercentagesOf(p: map<Stage, real>): (r: Percentages)
    requires forall s: Stage :: s in p
    ensures forall s: Stage :: s in r.stage && r.stage[s] == Rounded(p[s], 1)
    ensures r.other == Rounded(OtherPct(Named(p)), 1) && r.otherCombined == Rounded(Combined(p), 1)
  {
    Percentages(map s | s in p :: Rounded(p[s], 1), Rounded(OtherPct(Named(p)), 1), Rounded(Combined(p), 1))
  }

  // ---------------------------------------------------------------------
  // Padding statistics

  /** The padding fields of the collector. */
  datatype PaddingLog = PaddingLog(
    ratios: seq<real>, paddedTokensTotal: int, realTokensTotal: int,
    maxSeqLengths: seq<int>, avgSeqLengths: seq<real>,
    lastRatio: real, lastMaxSeqLength: int, lastAvgSeqLength: real)

  const NoPadding: PaddingLog := PaddingLog([], 0, 0, [], [], 0.0, 0, 0.0)

  /** The last values are the newest entries, and only positive lengths are
      kept. */
  ghost predicate PaddingValid(p: PaddingLog)
  {
    p.lastRatio == LastOr(p.ratios, 0.0) &&
    p.lastMaxSeqLength == LastOr(p.maxSeqLengths, 0) &&
    p.lastAvgSeqLength == LastOr(p.avgSeqLengths, 0.0) &&
    (forall i :: 0 <= i < |p.maxSeqLengths| ==> p.maxSeqLengths[i] > 0) &&
    (forall i :: 0 <= i < |p.avgSeqLengths| ==> p.avgSeqLengths[i] > 0.0)
  }

  /** `record_padding_stats(...)`: the ratio is always recorded, even 0;
      the token totals move only for a non-negative padded count, and then
      by exactly `totalTokens` together; lengths are recorded only when
      positive. */
  function RecordPadding(p: PaddingLog, ratio: real, paddedTokens: int, totalTokens: int,
                         maxSeqLength: int, avgSeqLength: real): (r: PaddingLog)
    ensures PaddingValid(p) ==> PaddingValid(r)
    ensures r.ratios == p.ratios + [ratio] && r.lastRatio == ratio
    ensures paddedTokens >= 0 ==> (r.paddedTokensTotal == p.paddedTokensTotal + paddedTokens &&
      r.paddedTokensTotal + r.realTokensTotal == p.paddedTokensTotal + p.realTokensTotal + totalTokens)
    ensures paddedTokens < 0 ==> r.paddedTokensTotal == p.paddedTokensTotal && r.realTokensTotal == p.realTokensTotal
    ensures maxSeqLength > 0 ==> r.maxSeqLengths == p.maxSeqLengths + [maxSeqLength] && r.lastMaxSeqLength == maxSeqLength
    ensures maxSeqLength <= 0 ==> r.maxSeqLengths == p.maxSeqLengths && r.lastMaxSeqLength == p.lastMaxSeqLength
    ensures avgSeqLength > 0.0 ==> r.avgSeqLengths == p.avgSeqLengths + [avgSeqLength] && r.lastAvgSeqLength == avgSeqLength
    ensures avgSeqLength <= 0.0 ==> r.avgSeqLengths == p.avgSeqLengths && r.lastAvgSeqLength == p.lastAvgSeqLength
  {
    var padded := if paddedTokens >= 0 then p.paddedTokensTotal + paddedTokens else p.paddedTokensTotal;
    var reals := if paddedTokens >= 0 then p.realTokensTotal + (totalTokens - paddedTokens) else p.realTokensTotal;
    var maxes := if maxSeqLength > 0 then p.maxSeqLengths + [maxSeqLength] else p.maxSeqLengths;
    var lastMax := if maxSeqLength > 0 then maxSeqLength else p.lastMaxSeqLength;
    var avgs := if avgSeqLength > 0.0 then p.avgSeqLengths + [avgSeqLength] else p.avgSeqLengths;
    var lastAvg := if avgSeqLength > 0.0 then avgSeqLength else p.lastAvgSeqLength;
    PaddingLog(p.ratios + [ratio], padded, reals, maxes, avgs, ratio, lastMax, lastAvg)
  }

  /** `padding_analysis` of the summary. */
  datatype PaddingSummary = PaddingSummary(
    avgPaddingPct: real, lastPaddingPct: real, lastMaxSeqLength: int, lastAvgSeqLength: real)

  /** `_compute_padding_stats()`: zeros without ratios; otherwise the mean
      and the last ratio as percentages, rounded to one decimal. */
  function PaddingSummaryOf(p: PaddingLog): (s: PaddingSummary)
    ensures p.ratios == [] ==> s == PaddingSummary(0.0, 0.0, 0, 0.0)
    ensures p.ratios != [] ==> s.avgPaddingPct == Rounded(Mean(p.ratios) * 100.0, 1)
    ensures p.ratios != [] ==> (s.lastPaddingPct == Rounded(p.lastRatio * 100.0, 1) &&
      s.lastMaxSeqLength == p.lastMaxSeqLength && s.lastAvgSeqLength == Rounded(p.lastAvgSeqLength, 1))
  {
    if p.ratios == [] then PaddingSummary(0.0, 0.0, 0, 0.0)
    else
      var pct := Scale(p.ratios, 100.0);
      MeanScale(p.ratios, 100.0);
      PaddingSummary(Rounded(Mean(pct), 1), Rounded(p.lastRatio * 100.0, 1), p.lastMaxSeqLength,
        Rounded(p.lastAvgSeqLength, 1))
  }

  // ---------------------------------------------------------------------
  // Per-worker records

  /** A `WorkerMetrics` entry. */
  datatype WorkerRecord = WorkerRecord(
    workerId: int, latencies: seq<real>, queryCount: int, requestCount: nat, startTime: real)

  /** A `TokenizerWorkerMetrics` entry. */
  datatype TokenizerRecord = TokenizerRecord(
    workerId: int, latencies: seq<real>, requestCount: nat, totalTokensProcessed: int, startTime: real)

  /** `amount / elapsed if elapsed > 0 else 0`. */
  function Rate(amount: real, elapsed: real): (r: real)
    ensures elapsed <= 0.0 ==> r == 0.0
    ensures elapsed > 0.0 ==> r * elapsed == amount
    ensures elapsed > 0.0 && amount >= 0.0 ==> r >= 0.0
  {
    if elapsed > 0.0 then amount / elapsed else 0.0
  }

  /** `WorkerMetrics.record(latency, n)`: one more request of `n` queries. */
  function RecordWorker(w: WorkerRecord, latencyMs: real, numQueries: int): (r: WorkerRecord)
    ensures r.workerId == w.workerId && r.startTime == w.startTime
    ensures r.latencies == w.latencies + [latencyMs]
    ensures r.requestCount == w.requestCount + 1 && r.queryCount == w.queryCount + numQueries
  {
    w.(latencies := w.latencies + [latencyMs], queryCount := w.queryCount + numQueries,
       requestCount := w.requestCount + 1)
  }

  /** `TokenizerWorkerMetrics.record(latency, tokens)`. */
  function RecordTokenizer(w: TokenizerRecord, latencyMs: real, totalTokens: int): (r: TokenizerRecord)
    ensures r.workerId == w.workerId && r.startTime == w.startTime
    ensures r.latencies == w.latencies + [latencyMs]
    ensures r.requestCount == w.requestCount + 1 && r.totalTokensProcessed == w.totalTokensProcessed + totalTokens
  {
    w.(latencies := w.latencies + [latencyMs], requestCount := w.requestCount + 1,
       totalTokensProcessed := w.totalTokensProcessed + totalTokens)
  }

  /** A worker's `get_stats()`. */
  datatype WorkerStats = WorkerStats(
    workerId: int, avgMs: real, p50Ms: real, p95Ms: real, p99Ms: real,
    queryCount: int, requestCount: nat, throughputQps: real)

  function WorkerStatsOf(w: WorkerRecord, now: real, percentile: Percentile): (s: WorkerStats)
    ensures s.workerId == w.workerId
    ensures w.latencies == [] ==> s == WorkerStats(w.workerId, 0.0, 0.0, 0.0, 0.0, 0, 0, 0.0)
    ensures w.latencies != [] ==> Min(w.latencies) <= s.avgMs <= Max(w.latencies)
    ensures w.latencies != [] ==> (s.avgMs == Mean(w.latencies) && s.p50Ms == percentile(w.latencies, 50.0) &&
      s.p95Ms == percentile(w.latencies, 95.0) && s.p99Ms == percentile(w.latencies, 99.0))
    ensures w.latencies != [] ==> (s.queryCount == w.queryCount && s.requestCount == w.requestCount &&
      s.throughputQps == Rate(w.queryCount as real, now - w.startTime))
  {
    if w.latencies == [] then WorkerStats(w.workerId, 0.0, 0.0, 0.0, 0.0, 0, 0, 0.0)
    else
      var st := StageStatsOf(w.latencies, percentile);
      WorkerStats(w.workerId, st.avgMs, st.p50Ms, st.p95Ms, st.p99Ms, w.queryCount, w.requestCount,
        Rate(w.queryCount as real, now - w.startTime))
  }

  /** A tokenizer worker's `get_stats()`. */
  datatype TokenizerStats = TokenizerStats(
    workerId: int, avgMs: real, p50Ms: real, p95Ms: real, p99Ms: real,
    requestCount: nat, throughputTokensPerSec: real)

  function TokenizerStatsOf(w: TokenizerRecord, now: real, percentile: Percentile): (s: TokenizerStats)
    ensures s.workerId == w.workerId
    ensures w.latencies == [] ==> s == TokenizerStats(w.workerId, 0.0, 0.0, 0.0, 0.0, 0, 0.0)
    ensures w.latencies != [] ==> Min(w.latencies) <= s.avgMs <= Max(w.latencies)
    ensures w.latencies != [] ==> (s.avgMs == Mean(w.latencies) && s.p50Ms == percentile(w.latencies, 50.0) &&
      s.p95Ms == percentile(w.latencies, 95.0) && s.p99Ms == percentile(w.latencies, 99.0))
    ensures w.latencies != [] ==> (s.requestCount == w.requestCount &&
      s.throughputTokensPerSec == Rate(w.totalTokensProcessed as real, now - w.startTime))
  {
    if w.latencies == [] then TokenizerStats(w.workerId, 0.0, 0.0, 0.0, 0.0, 0, 0.0)
    else
      var st := StageStatsOf(w.latencies, percentile);
      TokenizerStats(w.workerId, st.avgMs, st.p50Ms, st.p95Ms, st.p99Ms, w.requestCount,
        Rate(w.totalTokensProcessed as real, now - w.startTime))
  }

  /** `WorkerMetrics.reset()` at time `now`. */
  function ResetWorker(w: WorkerRecord, now: real): (r: WorkerRecord)
    ensures r == WorkerRecord(w.workerId, [], 0, 0, now)
  {
    w.(latencies := [], queryCount := 0, requestCount := 0, startTime := now)
  }

  /** `TokenizerWorkerMetrics.reset()` at time `now`. */
  function ResetTokenizer(w: TokenizerRecord, now: real): (r: TokenizerRecord)
    ensures r == TokenizerRecord(w.workerId, [], 0, 0, now)
  {
    w.(latencies := [], requestCount := 0, totalTokensProcessed := 0, startTime := now)
  }

  /** A table of workers: keyed by id, every entry carries its own id and
      one request per latency. */
  ghost predicate WorkersValid(t: Dict<int, WorkerRecord>)
  {
    Wellformed(t) &&
    forall k :: k in t.entries ==> t.entries[k].workerId == k && t.entries[k].requestCount == |t.entries[k].latencies|
  }

  ghost predicate TokenizersValid(t: Dict<int, TokenizerRecord>)
  {
    Wellformed(t) &&
    forall k :: k in t.entries ==> t.entries[k].workerId == k && t.entries[k].requestCount == |t.entries[k].latencies|
  }

  /** `record_worker_stats(id, latency, n)`: the entry is created, started
      at `now`, the first time `id` is seen and recorded into afterwards;
      no other entry changes. */
  function RecordWorkerIn(t: Dict<int, WorkerRecord>, id: int, latencyMs: real, numQueries: int, now: real)
    : (r: Dict<int, WorkerRecord>)
    requires WorkersValid(t)
    ensures WorkersValid(r)
    ensures id in r.entries && r.entries[id].latencies == (if id in t.entries then t.entries[id].latencies else []) + [latencyMs]
    ensures id !in t.entries ==> r.entries[id].startTime == now && r.entries[id].queryCount == numQueries
    ensures id in t.entries ==> r.entries[id] == RecordWorker(t.entries[id], latencyMs, numQueries)
    ensures forall k :: k != id ==> (k in r.entries <==> k in t.entries)
    ensures forall k :: k != id && k in t.entries ==> r.entries[k] == t.entries[k]
    ensures id in t.entries ==> r.order == t.order
    ensures id !in t.entries ==> r.order == t.order + [id]
  {
    var w := if id in t.entries then t.entries[id] else WorkerRecord(id, [], 0, 0, now);
    Put(t, id, RecordWorker(w, latencyMs, numQueries))
  }

  /** `record_tokenizer_worker_stats(id, latency, tokens)`. */
  function RecordTokenizerIn(t: Dict<int, TokenizerRecord>, id: int, latencyMs: real, totalTokens: int, now: real)
    : (r: Dict<int, TokenizerRecord>)
    requires TokenizersValid(t)
    ensures TokenizersValid(r)
    ensures id in r.entries && r.entries[id].latencies == (if id in t.entries then t.entries[id].latencies else []) + [latencyMs]
    ensures id !in t.entries ==> r.entries[id].startTime == now && r.entries[id].totalTokensProcessed == totalTokens
    ensures id in t.entries ==> r.entries[id] == RecordTokenizer(t.entries[id], latencyMs, totalTokens)
    ensures forall k :: k != id ==> (k in r.entries <==> k in t.entries)
    ensures forall k :: k != id && k in t.entries ==> r.entries[k] == t.entries[k]
    ensures id in t.entries ==> r.order == t.order
    ensures id !in t.entries ==> r.order == t.order + [id]
  {
    var w := if id in t.entries then t.entries[id] else TokenizerRecord(id, [], 0, 0, now);
    Put(t, id, RecordTokenizer(w, latencyMs, totalTokens))
  }

  // ---------------------------------------------------------------------
  // The summary

  /** The experiment metadata every summary starts with. */
  datatype Info = Info(name: string, description: string, backendType: string, device: string)

  /** `summary()`: before the first request only the metadata, the
      running flag and the system gauges (its `query_count` is 0); after it
      the full report. `instance_metrics.avg_utilization_pct` repeats
      `gpuUtilizationPct` and is not a separate field. */
  datatype Report =
    | Idle(info: Info, isRunning: bool, cpuPercent: real, gpuMemoryMb: real)
    | Full(
        info: Info, isRunning: bool, count: nat, queryCount: int,
        instantLatencyMs: real, avgMs: real, p50Ms: real, p95Ms: real, p99Ms: real,
        throughputQps: real, avgThroughputQps: real,
        cpuPercent: real, gpuMemoryMb: real, gpuUtilizationPct: real,
        stageBreakdown: map<Stage, StageStats>, stagePercentages: Percentages,
        lastStageMs: map<Stage, real>, queueWaitAvgMs: real, queueWaitP95Ms: real,
        paddingAnalysis: PaddingSummary,
        workerStats: seq<WorkerStats>, tokenizerWorkerStats: seq<TokenizerStats>)

  class MetricsCollector {
    var info: Info
    var latencies: seq<real>
    var startTime: real
    var requestCount: nat
    var queryCount: int
    var lastUpdateTime: real
    var recentQueries: seq<(real, real)>
    var recentLatencies: seq<(real, real)>
    var lastLatencyMs: real
    var stageLatencies: map<Stage, seq<real>>
    var lastStageMs: map<Stage, real>
    var recentStageTokenize: seq<(real, real)>
    var recentStageInference: seq<(real, real)>
    var recentQueueWait: seq<(real, real)>
    var padding: PaddingLog
    var workerStats: Dict<int, WorkerRecord>
    var tokenizerWorkerStats: Dict<int, TokenizerRecord>

    /** One request per latency; the newest request is the last recent
        latency and set the update time; the deques are bounded. */
    ghost predicate RequestsValid()
      reads this`requestCount, this`latencies, this`lastLatencyMs, this`recentLatencies,
        this`lastUpdateTime, this`recentQueries
    {
      requestCount == |latencies| &&
      lastLatencyMs == LastOr(latencies, 0.0) &&
      (latencies == [] <==> recentLatencies == []) &&
      (recentLatencies != [] ==> recentLatencies[|recentLatencies| - 1].0 == lastUpdateTime) &&
      |recentQueries| <= Cap && |recentLatencies| <= Cap
    }

    /** The stage lists and last values agree; the charted deques are
        bounded and hold positive times. */
    ghost predicate StageRecordsValid()
      reads this`stageLatencies, this`lastStageMs, this`recentStageTokenize,
        this`recentStageInference, this`recentQueueWait
    {
      StagesValid(stageLatencies, lastStageMs) &&
      |recentStageTokenize| <= Cap && |recentStageInference| <= Cap && |recentQueueWait| <= Cap &&
      PositiveValues(recentStageInference)
    }

    ghost predicate Valid()
      reads this
    {
      RequestsValid() && StageRecordsValid() && PaddingValid(padding) &&
      WorkersValid(workerStats) && TokenizersValid(tokenizerWorkerStats)
    }

    /** A fresh collector started at `now`. */
    constructor (now: real)
      ensures Valid()
      ensures latencies == [] && requestCount == 0 && queryCount == 0
      ensures startTime == now && lastUpdateTime == now
      ensures forall s: Stage :: s in stageLatencies && stageLatencies[s] == [] && lastStageMs[s] == 0.0
      ensures padding == NoPadding && workerStats == Empty() && tokenizerWorkerStats == Empty()
    {
      AllStagesComplete();
      info := Info("", "", "", "");
      latencies, startTime, requestCount, queryCount, lastUpdateTime := [], now, 0, 0, now;
      recentQueries, recentLatencies, lastLatencyMs := [], [], 0.0;
      stageLatencies := map s | s in AllStages :: [];
      lastStageMs := map s | s in AllStages :: 0.0;
      recentStageTokenize, recentStageInference, recentQueueWait := [], [], [];
      padding, workerStats, tokenizerWorkerStats := NoPadding, Empty(), Empty();
    }

    /** `set_experiment_info(...)`. */
    method SetExperimentInfo(name: string, description: string, backend: string, device: string)
      modifies this`info
      ensures info == Info(name, description, backend, device)
    {
      info := Info(name, description, backend, device);
    }

    /** `is_active()` at time `now`. */
    predicate IsActive(now: real)
      reads this
    {
      if requestCount == 0 then false
      else if now - lastUpdateTime < 10.0 then true
      else recentLatencies != [] && now - recentLatencies[|recentLatencies| - 1].0 < 30.0
    }

    /** The two windows of `is_active` collapse into one: a collector is
        active exactly while it has requests and the newest came less than
        30 seconds ago. */
    lemma ActiveWithin30(now: real)
      requires Valid()
      ensures IsActive(now) <==> requestCount > 0 && now - lastUpdateTime < 30.0
    {
      if requestCount > 0 {
        assert latencies != [];
      }
    }

    /** `record(duration, n)` at time `now`. */
    method Record(durationMs: real, numQueries: int, now: real)
      requires Valid()
      modifies this`latencies, this`requestCount, this`queryCount, this`lastUpdateTime,
        this`lastLatencyMs, this`recentQueries, this`recentLatencies
      ensures Valid()
      ensures latencies == old(latencies) + [durationMs]
      ensures requestCount == old(requestCount) + 1 && queryCount == old(queryCount) + numQueries
      ensures lastUpdateTime == now && lastLatencyMs == durationMs
      ensures recentQueries == Push(old(recentQueries), (now, numQueries as real), Cap)
      ensures recentLatencies == Push(old(recentLatencies), (now, durationMs), Cap)
      ensures IsActive(now)
    {
      AppendRequest(durationMs, numQueries, now);
    }

    /** The updates `record` makes, under the lock. */
    method AppendRequest(durationMs: real, numQueries: int, now: real)
      requires RequestsValid()
      modifies this`latencies, this`requestCount, this`queryCount, this`lastUpdateTime,
        this`lastLatencyMs, this`recentQueries, this`recentLatencies
      ensures RequestsValid()
      ensures latencies == old(latencies) + [durationMs]
      ensures requestCount == old(requestCount) + 1 && queryCount == old(queryCount) + numQueries
      ensures lastUpdateTime == now && lastLatencyMs == durationMs
      ensures recentQueries == Push(old(recentQueries), (now, numQueries as real), Cap)
      ensures recentLatencies == Push(old(recentLatencies), (now, durationMs), Cap)
    {
      latencies, requestCount, queryCount := latencies + [durationMs], requestCount + 1, queryCount + numQueries;
      lastUpdateTime, lastLatencyMs := now, durationMs;
      recentQueries := Push(recentQueries, (now, numQueries as real), Cap);
      PushKeepsNewest(recentLatencies, (now, durationMs), Cap);
      recentLatencies := Push(recentLatencies, (now, durationMs), Cap);
    }

    /** `record_stage_timings(**t)` at time `now`: each positive time is
        recorded and becomes its stage's last value; tokenize, queue wait and
        inference also enter their recent deques. */
    method RecordStageTimings(t: map<Stage, real>, now: real)
      requires Valid()
      modifies this`stageLatencies, this`lastStageMs, this`recentStageTokenize,
        this`recentStageInference, this`recentQueueWait
      ensures Valid()
      ensures stageLatencies == RecordStages(old(stageLatencies), t)
      ensures lastStageMs == RecordLast(old(lastStageMs), t)
      ensures recentStageTokenize == PushIfPositive(old(recentStageTokenize), Given(t, Tokenize), now)
      ensures recentQueueWait == PushIfPositive(old(recentQueueWait), Given(t, QueueWait), now)
      ensures recentStageInference == PushIfPositive(old(recentStageInference), Given(t, ModelInference), now)
    {
      AppendStages(t, now);
    }

    /** The updates `record_stage_timings` makes, under the lock. */
    method AppendStages(t: map<Stage, real>, now: real)
      requires StageRecordsValid()
      modifies this`stageLatencies, this`lastStageMs, this`recentStageTokenize,
        this`recentStageInference, this`recentQueueWait
      ensures StageRecordsValid()
      ensures stageLatencies == RecordStages(old(stageLatencies), t)
      ensures lastStageMs == RecordLast(old(lastStageMs), t)
      ensures recentStageTokenize == PushIfPositive(old(recentStageTokenize), Given(t, Tokenize), now)
      ensures recentQueueWait == PushIfPositive(old(recentQueueWait), Given(t, QueueWait), now)
      ensures recentStageInference == PushIfPositive(old(recentStageInference), Given(t, ModelInference), now)
    {
      RecordKeepsStagesValid(stageLatencies, lastStageMs, t);
      stageLatencies, lastStageMs := RecordStages(stageLatencies, t), RecordLast(lastStageMs, t);
      recentStageTokenize := PushIfPositive(recentStageTokenize, Given(t, Tokenize), now);
      recentQueueWait := PushIfPositive(recentQueueWait, Given(t, QueueWait), now);
      recentStageInference := PushIfPositive(recentStageInference, Given(t, ModelInference), now);
    }

    /** `record_padding_stats(...)`. */
    method RecordPaddingStats(ratio: real, paddedTokens: int, totalTokens: int, maxSeqLength: int, avgSeqLength: real)
      requires Valid()
      modifies this`padding
      ensures Valid()
      ensures padding == RecordPadding(old(padding), ratio, paddedTokens, totalTokens, maxSeqLength, avgSeqLength)
    {
      padding := RecordPadding(padding, ratio, paddedTokens, totalTokens, maxSeqLength, avgSeqLength);
    }

    /** `record_worker_stats(id, latency, n)` at time `now`. */
    method RecordWorkerStats(id: int, latencyMs: real, numQueries: int, now: real)
      requires Valid()
      modifies this`workerStats
      ensures Valid()
      ensures workerStats == RecordWorkerIn(old(workerStats), id, latencyMs, numQueries, now)
    {
      workerStats := RecordWorkerIn(workerStats, id, latencyMs, numQueries, now);
    }

    /** `record_tokenizer_worker_stats(id, latency, tokens)` at time `now`. */
    method RecordTokenizerWorkerStats(id: int, latencyMs: real, totalTokens: int, now: real)
      requires Valid()
      modifies this`tokenizerWorkerStats
      ensures Valid()
      ensures tokenizerWorkerStats == RecordTokenizerIn(old(tokenizerWorkerStats), id, latencyMs, totalTokens, now)
    {
      tokenizerWorkerStats := RecordTokenizerIn(tokenizerWorkerStats, id, latencyMs, totalTokens, now);
    }

    /** `_compute_instant_qps()`: the queries of the last second. */
    function InstantQps(now: real): (q: real)
      reads this
      ensures q == WindowTotal(recentQueries, now, 1.0)
    {
      RecentSum(recentQueries, now, 1.0);
      if recentQueries == [] then 0.0 else Sum(Recent(recentQueries, now, 1.0))
    }

    /** `_compute_instant_latency()`: the mean latency of the last second,
        or the last latency when there is none. */
    function InstantLatency(now: real): (l: real)
      reads this
      ensures Recent(recentLatencies, now, 1.0) == [] ==> l == lastLatencyMs
      ensures Recent(recentLatencies, now, 1.0) != [] ==>
        l == Mean(Recent(recentLatencies, now, 1.0)) &&
        Min(Recent(recentLatencies, now, 1.0)) <= l <= Max(Recent(recentLatencies, now, 1.0))
    {
      var lats := Recent(recentLatencies, now, 1.0);
      if recentLatencies == [] || lats == [] then lastLatencyMs
      else MeanBetweenMinMax(lats); Mean(lats)
    }

    /** `get_gpu_utilization_pct()`: inference milliseconds of the last
        second as a percentage of that second, capped at 100. */
    function GpuUtilization(now: real): (u: real)
      requires Valid()
      reads this
      ensures 0.0 <= u <= 100.0
      ensures Recent(recentStageInference, now, 1.0) == [] ==> u == 0.0
      ensures Recent(recentStageInference, now, 1.0) != [] ==>
        u == (if WindowTotal(recentStageInference, now, 1.0) / 10.0 < 100.0
              then WindowTotal(recentStageInference, now, 1.0) / 10.0 else 100.0)
    {
      var busy := Recent(recentStageInference, now, 1.0);
      if recentStageInference == [] || busy == [] then 0.0
      else
        RecentSum(recentStageInference, now, 1.0);
        RecentPositive(recentStageInference, now, 1.0);
        SumNonNegative(busy);
        if Sum(busy) / 10.0 < 100.0 then Sum(busy) / 10.0 else 100.0
    }

    /** The average of every stage, 0 for a stage never recorded. */
    function StageAverages(): (avgs: map<Stage, real>)
      requires Valid()
      reads this
      ensures forall s: Stage :: s in avgs && avgs[s] == AverageOr0(stageLatencies[s]) && avgs[s] >= 0.0
    {
      var r := map s | s in stageLatencies :: AverageOr0(stageLatencies[s]);
      assert forall s: Stage :: s in r && r[s] >= 0.0 by {
        forall s: Stage ensures s in r && r[s] >= 0.0 {
          if stageLatencies[s] != [] {
            SumNonNegative(stageLatencies[s]);
          }
        }
      }
      r
    }

    /** `summary()` at time `now`, with the process's CPU percentage and the
        GPU memory as measured outside. */
    function Summary(now: real, cpuPercent: real, gpuMemoryMb: real, percentile: Percentile): (r: Report)
      requires Valid()
      reads this
      ensures r.isRunning == IsActive(now) && r.info == info
      ensures r.Idle? <==> latencies == []
      ensures r.Full? ==> r.count == |latencies| == requestCount && r.queryCount == queryCount
      ensures r.Full? ==> Min(latencies) <= r.avgMs <= Max(latencies) && r.avgMs == Mean(latencies)
      ensures r.Full? ==> (r.p50Ms == percentile(latencies, 50.0) && r.p95Ms == percentile(latencies, 95.0) &&
        r.p99Ms == percentile(latencies, 99.0))
      ensures r.Full? ==> r.instantLatencyMs == InstantLatency(now)
      ensures r.Full? ==> QueueWait in r.stageBreakdown && r.queueWaitP95Ms == r.stageBreakdown[QueueWait].p95Ms
      ensures r.Full? ==> r.avgThroughputQps == Rate(queryCount as real, now - startTime)
      ensures r.Full? ==> r.throughputQps == WindowTotal(recentQueries, now, 1.0) && 0.0 <= r.gpuUtilizationPct <= 100.0
      ensures r.Full? ==> forall s: Stage :: s in r.stageBreakdown && r.stageBreakdown[s] == StageStatsOf(stageLatencies[s], percentile)
      ensures r.Full? ==> r.stagePercentages == PercentagesOf(Shares(StageAverages(), Mean(latencies)))
      ensures r.Full? ==> r.stagePercentages.other >= 0.0
      ensures r.Full? ==> r.lastStageMs == lastStageMs && r.queueWaitAvgMs == r.stageBreakdown[QueueWait].avgMs
      ensures r.Full? ==> r.paddingAnalysis == PaddingSummaryOf(padding)
      ensures r.Full? ==> |r.workerStats| == |workerStats.order| && |r.tokenizerWorkerStats| == |tokenizerWorkerStats.order|
      ensures r.Full? ==> forall i :: 0 <= i < |workerStats.order| ==>
        r.workerStats[i] == WorkerStatsOf(workerStats.entries[workerStats.order[i]], now, percentile)
      ensures r.Full? ==> forall i :: 0 <= i < |tokenizerWorkerStats.order| ==>
        r.tokenizerWorkerStats[i] == TokenizerStatsOf(tokenizerWorkerStats.entries[tokenizerWorkerStats.order[i]], now, percentile)
    {
      if latencies == [] then Idle(info, IsActive(now), cpuPercent, gpuMemoryMb)
      else
        var breakdown := map s | s in stageLatencies :: StageStatsOf(stageLatencies[s], percentile);
        var total := StageStatsOf(latencies, percentile);
        var pcts := PercentagesOf(Shares(StageAverages(), total.avgMs));
        Full(info, IsActive(now), |latencies|, queryCount,
          InstantLatency(now), total.avgMs, total.p50Ms, total.p95Ms, total.p99Ms,
          InstantQps(now), Rate(queryCount as real, now - startTime),
          cpuPercent, gpuMemoryMb, GpuUtilization(now),
          breakdown, pcts, lastStageMs,
          breakdown[QueueWait].avgMs, breakdown[QueueWait].p95Ms,
          PaddingSummaryOf(padding),
          Values(workerStats, w => WorkerStatsOf(w, now, percentile)),
          Values(tokenizerWorkerStats, w => TokenizerStatsOf(w, now, percentile)))
    }

    /** `reset()` at time `now`: counters zeroed, every list and deque
        emptied, every last value 0; the worker entries stay, each reset
        and restarted at `now`. */
    method Reset(now: real)
      requires Valid()
      modifies this`latencies, this`startTime, this`requestCount, this`queryCount, this`lastUpdateTime,
        this`lastLatencyMs, this`recentQueries, this`recentLatencies, this`stageLatencies, this`lastStageMs,
        this`recentStageTokenize, this`recentStageInference, this`recentQueueWait, this`padding,
        this`workerStats, this`tokenizerWorkerStats
      ensures Valid()
      ensures latencies == [] && requestCount == 0 && queryCount == 0 && lastLatencyMs == 0.0
      ensures startTime == now && lastUpdateTime == now
      ensures recentQueries == [] && recentLatencies == []
      ensures recentStageTokenize == [] && recentStageInference == [] && recentQueueWait == []
      ensures forall s: Stage :: s in stageLatencies && stageLatencies[s] == [] && lastStageMs[s] == 0.0
      ensures padding == NoPadding
      ensures workerStats.order == old(workerStats.order) && tokenizerWorkerStats.order == old(tokenizerWorkerStats.order)
      ensures forall k :: k in workerStats.entries <==> k in old(workerStats.entries)
      ensures forall k :: k in old(workerStats.entries) ==> workerStats.entries[k] == WorkerRecord(k, [], 0, 0, now)
      ensures forall k :: k in tokenizerWorkerStats.entries <==> k in old(tokenizerWorkerStats.entries)
      ensures forall k :: k in old(tokenizerWorkerStats.entries) ==>
        tokenizerWorkerStats.entries[k] == TokenizerRecord(k, [], 0, 0, now)
    {
      ResetRequests(now);
      ResetStages();
      padding := NoPadding;
      ResetWorkers(now);
    }

    /** The request part of `reset()`. */
    method ResetRequests(now: real)
      modifies this`latencies, this`startTime, this`requestCount, this`queryCount, this`lastUpdateTime,
        this`lastLatencyMs, this`recentQueries, this`recentLatencies
      ensures RequestsValid()
      ensures latencies == [] && requestCount == 0 && queryCount == 0 && lastLatencyMs == 0.0
      ensures startTime == now && lastUpdateTime == now
      ensures recentQueries == [] && recentLatencies == []
    {
      latencies, startTime, requestCount, queryCount, lastUpdateTime := [], now, 0, 0, now;
      lastLatencyMs, recentQueries, recentLatencies := 0.0, [], [];
    }

    /** The stage part of `reset()`. */
    method ResetStages()
      modifies this`stageLatencies, this`lastStageMs, this`recentStageTokenize,
        this`recentStageInference, this`recentQueueWait
      ensures StageRecordsValid()
      ensures recentStageTokenize == [] && recentStageInference == [] && recentQueueWait == []
      ensures forall s: Stage :: s in stageLatencies && stageLatencies[s] == [] && lastStageMs[s] == 0.0
    {
      AllStagesComplete();
      stageLatencies := map s | s in AllStages :: [];
      lastStageMs := map s | s in AllStages :: 0.0;
      recentStageTokenize, recentStageInference, recentQueueWait := [], [], [];
    }

    /** The worker part of `reset()`: entries kept, each one reset. */
    method ResetWorkers(now: real)
      requires WorkersValid(workerStats) && TokenizersValid(tokenizerWorkerStats)
      modifies this`workerStats, this`tokenizerWorkerStats
      ensures WorkersValid(workerStats) && TokenizersValid(tokenizerWorkerStats)
      ensures workerStats.order == old(workerStats.order) && tokenizerWorkerStats.order == old(tokenizerWorkerStats.order)
      ensures forall k :: k in workerStats.entries <==> k in old(workerStats.entries)
      ensures forall k :: k in old(workerStats.entries) ==> workerStats.entries[k] == WorkerRecord(k, [], 0, 0, now)
      ensures forall k :: k in tokenizerWorkerStats.entries <==> k in old(tokenizerWorkerStats.entries)
      ensures forall k :: k in old(tokenizerWorkerStats.entries) ==>
        tokenizerWorkerStats.entries[k] == TokenizerRecord(k, [], 0, 0, now)
    {
      workerStats := MapValues(workerStats, w => ResetWorker(w, now));
      tokenizerWorkerStats := MapValues(tokenizerWorkerStats, w => ResetTokenizer(w, now));
    }
  }
}
