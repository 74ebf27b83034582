/** The inference server's metrics collector
    (`ml_inference_server/metrics/collector.py`): it owns a latency tracker,
    a throughput tracker, a padding analyser and the stage group, forwards
    each recording to them, and builds the dashboard summary. When the
    experiment stops, the first summary is frozen and served until new data
    arrives or the collector is reset. The clock, the CPU and GPU readings,
    the model pool's instance summary and numpy's statistics are
    parameters; the lock and the log lines are not modelled. */
module MlCollector {
  import opened Wrappers
  import opened SeqMath
  import opened MlComponents
  import SM = ServerMetrics
  import IM = InstanceMetrics

  /** `ExperimentInfo`. */
  datatype ExperimentInfo = ExperimentInfo(name: string, description: string, backendType: string, device: string)

  /** The process readings every summary carries: `get_cpu_percent()` and
      `get_gpu_memory_mb()`. */
  datatype SystemReadings = SystemReadings(cpuPercent: real, gpuMemoryMb: real)

  /** The result of `_compute_metrics()`. `instanceMetrics` is None where
      the dictionary is empty: no model pool, or the pool failed. */
  datatype Metrics = Metrics(
    experiment: ExperimentInfo, count: nat, queryCount: int, instantLatencyMs: real,
    latency: LatencyStats, throughput: ThroughputStats, system: SystemReadings,
    stageBreakdown: map<MlStage, SM.StageStats>, stagePercentages: Split,
    lastTokenizeMs: real, lastInferenceMs: real, lastQueueWaitMs: real,
    queueWait: QueueWaitAnalysis, padding: PaddingStats, instanceMetrics: Option<IM.Summary>)

  /** What `summary()` returns: the metadata-only dictionary before any
      latency, or the full metrics with the running flag. */
  datatype Summary =
    | MetadataOnly(experiment: ExperimentInfo, isRunning: bool, system: SystemReadings)
    | Full(metrics: Metrics, isRunning: bool)

  /** The seconds after the last recording during which the experiment
      counts as running. */
  const ActiveWindow: real := 2.0

  /** `MetricsCollector`. Its four components are never replaced, so they
      are constant fields. */
  class MetricsCollector {
    const latency: LatencyTracker
    const throughput: ThroughputTracker
    const padding: PaddingAnalyzer
    const stages: StageMetricsGroup
    var experiment: ExperimentInfo
    var startTime: real
    var lastUpdateTime: real
    var frozenSnapshot: Option<Metrics>

    ghost predicate Valid()
      reads this, latency, throughput, padding, stages
    {
      latency.Valid() && throughput.Valid() && padding.Valid() && stages.Valid()
    }

    constructor (now: real)
      ensures Valid() && fresh(latency) && fresh(throughput) && fresh(padding) && fresh(stages)
      ensures latency.latencies == [] && throughput.requestCount == 0 && padding.Empty() && stages.Cleared()
      ensures experiment == ExperimentInfo("", "", "", "") && startTime == now && lastUpdateTime == now
      ensures frozenSnapshot == None
    {
      latency := new LatencyTracker();
      throughput := new ThroughputTracker(now);
      padding := new PaddingAnalyzer();
      stages := new StageMetricsGroup();
      experiment := ExperimentInfo("", "", "", "");
      startTime := now;
      lastUpdateTime := now;
      frozenSnapshot := None;
    }

    /** `set_experiment_info(...)`. */
    method SetExperimentInfo(name: string, description: string, backend: string, device: string)
      modifies this`experiment
      ensures experiment == ExperimentInfo(name, description, backend, device)
    {
      experiment := ExperimentInfo(name, description, backend, device);
    }

    /** `is_active()` at time `now`: fewer than two seconds since the last
        recording, and at least one latency. */
    predicate IsActive(now: real)
      reads this, latency
    {
      now - lastUpdateTime < ActiveWindow && latency.Count() > 0
    }

    /** `record(duration_ms, num_queries)` at time `now`: one latency and
        one request more, and any frozen snapshot is dropped. */
    method Record(durationMs: real, numQueries: int, now: real)
      requires Valid()
      modifies this`lastUpdateTime, this`frozenSnapshot, latency, throughput
      ensures Valid()
      ensures latency.latencies == old(latency.latencies) + [durationMs]
      ensures throughput.requestCount == old(throughput.requestCount) + 1
      ensures throughput.queryCount == old(throughput.queryCount) + numQueries
      ensures lastUpdateTime == now && frozenSnapshot == None
      ensures IsActive(now)
    {
      latency.Record(durationMs, now);
      throughput.Record(numQueries, now);
      lastUpdateTime := now;
      frozenSnapshot := None;
    }

    /** `record_stage_timings(...)` at time `now`: forwarded to the stage
        group. */
    method RecordStageTimings(tGrpcReceive: real, tTokenize: real, tQueueWait: real, tModelInference: real,
                              tGrpcSend: real, now: real)
      requires Valid()
      modifies stages
      ensures Valid()
      ensures stages.grpcReceive == old(stages.grpcReceive) + (if tGrpcReceive > 0.0 then [tGrpcReceive] else [])
      ensures stages.tokenize == old(stages.tokenize) + (if tTokenize > 0.0 then [tTokenize] else [])
      ensures stages.queueWait == old(stages.queueWait) + (if tQueueWait > 0.0 then [tQueueWait] else [])
      ensures stages.modelInference == old(stages.modelInference) + (if tModelInference > 0.0 then [tModelInference] else [])
      ensures stages.grpcSend == old(stages.grpcSend) + (if tGrpcSend > 0.0 then [tGrpcSend] else [])
    {
      stages.Record(tGrpcReceive, tTokenize, tQueueWait, tModelInference, tGrpcSend, now);
    }

    /** `record_padding_stats(...)`: forwarded to the padding analyser. */
    method RecordPaddingStats(ratio: real, paddedTokens: int, totalTokens: int, maxSeqLength: int, avgSeqLength: real)
      requires Valid()
      modifies padding
      ensures Valid()
      ensures padding.paddingRatios == old(padding.paddingRatios) + (if ratio > 0.0 then [ratio] else [])
      ensures paddedTokens > 0 ==>
        padding.paddedTokensTotal == old(padding.paddedTokensTotal) + paddedTokens &&
        padding.realTokensTotal == old(padding.realTokensTotal) + (totalTokens - paddedTokens)
      ensures paddedTokens <= 0 ==>
        padding.paddedTokensTotal == old(padding.paddedTokensTotal) && padding.realTokensTotal == old(padding.realTokensTotal)
      ensures padding.maxSeqLengths == old(padding.maxSeqLengths) + (if maxSeqLength > 0 then [maxSeqLength] else [])
      ensures padding.avgSeqLengths == old(padding.avgSeqLengths) + (if avgSeqLength > 0.0 then [avgSeqLength] else [])
    {
      padding.RecordBatch(ratio, paddedTokens, totalTokens, maxSeqLength, avgSeqLength);
    }

    /** `_compute_metrics()` at time `now`: nothing before the first
        latency; otherwise every component's statistics, with the stage
        shares and the queue-wait share taken of the mean latency. */
    function ComputeMetrics(now: real, system: SystemReadings, instanceMetrics: Option<IM.Summary>,
                            percentile: Percentile, std: Spread): (m: Option<Metrics>)
      requires Valid()
      reads this, latency, throughput, padding, stages
      ensures latency.latencies == [] <==> m == None
      ensures m.Some? ==>
        m.value.count == |latency.latencies| && m.value.queryCount == throughput.queryCount &&
        m.value.experiment == experiment && m.value.system == system &&
        m.value.instanceMetrics == instanceMetrics &&
        m.value.latency == latency.Stats(percentile, std) &&
        m.value.throughput == throughput.Stats(now) &&
        m.value.instantLatencyMs == latency.InstantLatency(now, 1.0) &&
        m.value.stagePercentages == stages.Percentages(Mean(latency.latencies)) &&
        m.value.queueWait == stages.QueueWaitReport(Mean(latency.latencies), percentile) &&
        m.value.padding == padding.Stats(percentile) &&
        m.value.stageBreakdown == stages.AllStats(percentile)
      ensures m.Some? ==>
        m.value.lastTokenizeMs == LastOr(stages.tokenize, 0.0) &&
        m.value.lastInferenceMs == LastOr(stages.modelInference, 0.0) &&
        m.value.lastQueueWaitMs == LastOr(stages.queueWait, 0.0)
    {
      var ls := latency.Stats(percentile, std);
      if ls.count == 0 then None
      else
        Some(Metrics(experiment, ls.count, throughput.Stats(now).totalQueries, latency.InstantLatency(now, 1.0),
          ls, throughput.Stats(now), system, stages.AllStats(percentile), stages.Percentages(ls.avgMs),
          stages.lastTokenizeMs, stages.lastInferenceMs, stages.lastQueueWaitMs,
          stages.QueueWaitReport(ls.avgMs, percentile), padding.Stats(percentile), instanceMetrics))
    }

    /** `summary()` at time `now`. Before any latency it is the metadata
        alone. A stopped experiment with a frozen snapshot gets that
        snapshot. Otherwise the metrics are computed afresh, and the first
        summary of a stopped experiment freezes them. So after a summary of
        a stopped experiment the snapshot is exactly what was returned, and
        a running experiment never freezes anything. */
    method Summarize(now: real, system: SystemReadings, instanceMetrics: Option<IM.Summary>,
                     percentile: Percentile, std: Spread) returns (s: Summary)
      requires Valid()
      modifies this`frozenSnapshot
      ensures Valid()
      ensures latency.latencies == [] ==>
        s == MetadataOnly(experiment, IsActive(now), system) && frozenSnapshot == old(frozenSnapshot)
      ensures latency.latencies != [] && !IsActive(now) ==>
        frozenSnapshot.Some? && s == Full(frozenSnapshot.value, false)
      ensures latency.latencies != [] && !IsActive(now) && old(frozenSnapshot).Some? ==>
        frozenSnapshot == old(frozenSnapshot)
      ensures latency.latencies != [] && (IsActive(now) || old(frozenSnapshot).None?) ==>
        s == Full(ComputeMetrics(now, system, instanceMetrics, percentile, std).value, IsActive(now))
      ensures IsActive(now) ==> frozenSnapshot == old(frozenSnapshot)
    {
      var isRunning := IsActive(now);
      if latency.Count() == 0 {
        return MetadataOnly(experiment, isRunning, system);
      }
      if !isRunning && frozenSnapshot.Some? {
        return Full(frozenSnapshot.value, false);
      }
      var metrics := ComputeMetrics(now, system, instanceMetrics, percentile, std).value;
      if !isRunning && frozenSnapshot.None? {
        frozenSnapshot := Some(metrics);
      }
      s := Full(metrics, isRunning);
    }

    /** `reset()` at time `now`: every component cleared, the clocks
        restarted and the snapshot dropped. */
    method Reset(now: real)
      requires Valid()
      modifies this`startTime, this`lastUpdateTime, this`frozenSnapshot, latency, throughput, padding, stages
      ensures Valid()
      ensures latency.latencies == [] && latency.lastLatencyMs == 0.0
      ensures throughput.requestCount == 0 && throughput.queryCount == 0 && throughput.startTime == now
      ensures padding.Empty() && stages.Cleared()
      ensures startTime == now && lastUpdateTime == now && frozenSnapshot == None
      ensures !IsActive(now)
    {
      latency.Reset();
      throughput.Reset(now);
      padding.Reset();
      stages.Reset();
      startTime := now;
      lastUpdateTime := now;
      frozenSnapshot := None;
    }
  }
}
