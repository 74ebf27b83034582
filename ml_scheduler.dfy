/** The inference server's scheduler (`ml_inference_server/server/scheduler.py`):
    it hands a request's pairs to the model pool, optionally sorting them by
    estimated length first and putting the scores back in the caller's
    order afterwards, and records the queue wait, the stage timings, the
    padding statistics and the latency with the metrics collector.

    The backend the pool picks is a call into a model: here it scores each
    pair on its own through the parameter `score`, and reports the timing
    breakdown `timing`. The clocks are the parameters `start` (the
    performance counter when the call begins) and `now` (the wall clock the
    collector stamps its records with). */
module MlScheduler {
  import opened Wrappers
  import opened ArgSort
  import LAB = LengthAwareBatching
  import MC = MlCollector
  import MP = MlModelPool
  import Routing

  /** What a backend's `infer_with_timing` reports besides the scores. */
  datatype InferenceTiming = InferenceTiming(
    totalMs: real, tokenizeMs: real, modelInferenceMs: real, paddingRatio: real,
    paddedTokens: int, totalTokens: int, maxSeqLength: int, avgSeqLength: real)

  /** `LengthAwareBatcher`'s default characters per token. */
  const CharsPerToken: real := 4.0

  /** Whether `schedule` sorts the pairs before inference. */
  predicate Reorders(lengthAware: bool, pairs: seq<LAB.Pair>)
  {
    lengthAware && |pairs| > 1
  }

  /** `[score(p) for p in pairs]`: what a backend computes. */
  function ScoreAll(pairs: seq<LAB.Pair>, score: LAB.Pair -> real): (r: seq<real>)
    ensures |r| == |pairs| && forall i :: 0 <= i < |pairs| ==> r[i] == score(pairs[i])
  {
    seq(|pairs|, i requires 0 <= i < |pairs| => score(pairs[i]))
  }

  /** The pairs the backend is given: sorted by estimated length when the
      scheduler reorders, the caller's own otherwise. */
  function InferredPairs(lengthAware: bool, pairs: seq<LAB.Pair>): (r: seq<LAB.Pair>)
    ensures |r| == |pairs|
    ensures !Reorders(lengthAware, pairs) ==> r == pairs
    ensures forall i, j :: 0 <= i < j < |r| ==>
      LAB.EstimatePairLength(r[i].0, r[i].1, CharsPerToken).value <=
      LAB.EstimatePairLength(r[j].0, r[j].1, CharsPerToken).value || !Reorders(lengthAware, pairs)
    ensures multiset(r) == multiset(pairs)
  {
    if Reorders(lengthAware, pairs) then
      var lengths := LAB.Lengths(pairs, CharsPerToken);
      var perm := Argsort(lengths);
      var r := Permute(pairs, perm);
      SortedByLength(pairs, perm);
      PermuteMultiset(pairs, perm);
      r
    else pairs
  }

  lemma SortedByLength(pairs: seq<LAB.Pair>, perm: seq<nat>)
    requires perm == Argsort(LAB.Lengths(pairs, CharsPerToken))
    ensures var r := Permute(pairs, perm);
      forall i, j :: 0 <= i < j < |r| ==>
        LAB.EstimatePairLength(r[i].0, r[i].1, CharsPerToken).value <=
        LAB.EstimatePairLength(r[j].0, r[j].1, CharsPerToken).value
  {
    var lengths := LAB.Lengths(pairs, CharsPerToken);
    var r := Permute(pairs, perm);
    forall i, j | 0 <= i < j < |r|
      ensures LAB.EstimatePairLength(r[i].0, r[i].1, CharsPerToken).value <=
        LAB.EstimatePairLength(r[j].0, r[j].1, CharsPerToken).value
    {
      assert lengths[perm[i]] <= lengths[perm[j]];
    }
  }

  /** The sorted pairs of `sort_pairs_by_length` are the pairs taken in
      argsort order. */
  lemma SortedAreInferred(pairs: seq<LAB.Pair>, s: LAB.SortedPairs)
    requires |pairs| > 1 && LAB.SortsBy(LAB.Lengths(pairs, CharsPerToken), pairs, s)
    requires s.indices == Argsort(LAB.Lengths(pairs, CharsPerToken))
    ensures s.pairs == InferredPairs(true, pairs)
  {
  }

  /** The reordering step of `schedule`: the pairs for the backend, and,
      when they were sorted, the positions that take each caller's pair
      back out of them (`unsort_fn`). */
  method SortForInference(lengthAware: bool, pairs: seq<LAB.Pair>)
    returns (batch: seq<LAB.Pair>, unsort: Option<seq<nat>>)
    ensures batch == InferredPairs(lengthAware, pairs)
    ensures unsort.Some? <==> Reorders(lengthAware, pairs)
    ensures unsort.Some? ==> (|unsort.value| == |pairs| &&
      forall j :: 0 <= j < |pairs| ==> unsort.value[j] < |batch| && batch[unsort.value[j]] == pairs[j])
  {
    if !Reorders(lengthAware, pairs) {
      return pairs, None;
    }
    var s := LAB.SortPairsByLength(pairs, CharsPerToken);
    SortedAreInferred(pairs, s.value);
    return s.value.pairs, Some(s.value.unsort);
  }

  /** `Scheduler`. Only `schedule` and `get_info` read the configuration;
      the batching fields are reported, not acted on. */
  class Scheduler {
    const pool: MP.ModelPool
    const metrics: MC.MetricsCollector
    const batchingEnabled: bool
    const maxBatchSize: int
    const timeoutMs: real
    const enableStageTiming: bool
    const lengthAware: bool

    /** `Scheduler(model_pool, metrics, ...)`: the given collector, or a
        fresh one started at `now`. */
    constructor (pool: MP.ModelPool, metrics: Option<MC.MetricsCollector>, batchingEnabled: bool,
                 maxBatchSize: int, timeoutMs: real, enableStageTiming: bool, lengthAware: bool, now: real)
      requires metrics.Some? ==> metrics.value.Valid()
      ensures this.pool == pool && this.metrics.Valid()
      ensures metrics.Some? ==> this.metrics == metrics.value
      ensures metrics.None? ==> fresh(this.metrics) && this.metrics.latency.latencies == []
      ensures this.batchingEnabled == batchingEnabled && this.maxBatchSize == maxBatchSize
      ensures this.timeoutMs == timeoutMs && this.enableStageTiming == enableStageTiming
      ensures this.lengthAware == lengthAware
    {
      this.pool := pool;
      if metrics.Some? {
        this.metrics := metrics.value;
      } else {
        this.metrics := new MC.MetricsCollector(now);
      }
      this.batchingEnabled := batchingEnabled;
      this.maxBatchSize := maxBatchSize;
      this.timeoutMs := timeoutMs;
      this.enableStageTiming := enableStageTiming;
      this.lengthAware := lengthAware;
    }

    /** `schedule(pairs, request_arrival_time)`. The queue wait is recorded
        as soon as the call starts, and only when an arrival time is given;
        a pool that cannot hand out a backend fails the call after that.
        Otherwise the backend scores the pairs it is given, the stage
        timings and the padding statistics are recorded once, and one
        latency of `timing.totalMs` for `|pairs|` queries. The scores come
        back in the caller's order whether or not the pairs were sorted. */
    method Schedule(pairs: seq<LAB.Pair>, arrival: Option<real>, start: real, now: real,
                    loads: seq<Routing.Load>, score: LAB.Pair -> real, timing: InferenceTiming)
      returns (r: Result<(seq<real>, real)>, ghost inferred: seq<LAB.Pair>)
      requires metrics.Valid() && |loads| == |pool.backends|
      modifies metrics.stages, metrics.padding, metrics.latency, metrics.throughput,
        metrics`lastUpdateTime, metrics`frozenSnapshot, pool.router`index, pool.router`lastSelected
      ensures metrics.Valid()
      ensures r.Err? <==> !pool.isLoaded || pool.backends == []
      ensures !pool.isLoaded ==> r == Err(RuntimeError(MP.NotLoadedMessage))
      ensures pool.isLoaded && pool.backends == [] ==> r == Err(ValueError(MP.EmptyPoolMessage))
      ensures r.Ok? ==> (|r.value.0| == |pairs| && r.value.1 == timing.totalMs &&
        forall i :: 0 <= i < |pairs| ==> r.value.0[i] == score(pairs[i]))
      ensures r.Ok? ==> inferred == InferredPairs(lengthAware, pairs)
      ensures var wait := if arrival.Some? then (start - arrival.value) * 1000.0 else 0.0;
        metrics.stages.queueWait == old(metrics.stages.queueWait) + (if wait > 0.0 then [wait] else [])
      ensures metrics.stages.tokenize == old(metrics.stages.tokenize) +
        (if r.Ok? && timing.tokenizeMs > 0.0 then [timing.tokenizeMs] else [])
      ensures metrics.stages.modelInference == old(metrics.stages.modelInference) +
        (if r.Ok? && timing.modelInferenceMs > 0.0 then [timing.modelInferenceMs] else [])
      ensures metrics.stages.grpcReceive == old(metrics.stages.grpcReceive)
      ensures metrics.stages.grpcSend == old(metrics.stages.grpcSend)
      ensures metrics.padding.paddingRatios == old(metrics.padding.paddingRatios) +
        (if r.Ok? && timing.paddingRatio > 0.0 then [timing.paddingRatio] else [])
      ensures metrics.latency.latencies == old(metrics.latency.latencies) + (if r.Ok? then [timing.totalMs] else [])
      ensures metrics.throughput.requestCount == old(metrics.throughput.requestCount) + (if r.Ok? then 1 else 0)
      ensures metrics.throughput.queryCount == old(metrics.throughput.queryCount) + (if r.Ok? then |pairs| else 0)
    {
      RecordQueueWait(arrival, start, now);

      var batch, unsort := SortForInference(lengthAware, pairs);
      inferred := batch;
      var picked := pool.AcquireBackend(loads);
      if picked.Err? {
        return Err(picked.error), inferred;
      }
      RecordInference(timing, |batch|, now);
      var scores := CallerScores(pairs, batch, unsort, score);
      r := Ok((scores, timing.totalMs));
    }

    /** The backend's scores for `batch`, put back in the caller's order
        (`unsort_fn`) when the pairs were sorted. */
    static method CallerScores(pairs: seq<LAB.Pair>, batch: seq<LAB.Pair>, unsort: Option<seq<nat>>,
                               score: LAB.Pair -> real) returns (scores: seq<real>)
      requires |batch| == |pairs|
      requires unsort.None? ==> batch == pairs
      requires unsort.Some? ==> (|unsort.value| == |pairs| &&
        forall j :: 0 <= j < |pairs| ==> unsort.value[j] < |batch| && batch[unsort.value[j]] == pairs[j])
      ensures |scores| == |pairs| && forall i :: 0 <= i < |pairs| ==> scores[i] == score(pairs[i])
    {
      scores := ScoreAll(batch, score);
      if unsort.Some? {
        scores := LAB.UnsortScores(scores, unsort.value).value;
      }
    }

    /** The queue-wait step of `schedule`: the milliseconds since the
        request arrived, recorded only when an arrival time is given (and,
        as for every stage, only when positive). */
    method RecordQueueWait(arrival: Option<real>, start: real, now: real)
      requires metrics.Valid()
      modifies metrics.stages
      ensures metrics.Valid()
      ensures var wait := if arrival.Some? then (start - arrival.value) * 1000.0 else 0.0;
        metrics.stages.queueWait == old(metrics.stages.queueWait) + (if wait > 0.0 then [wait] else [])
      ensures metrics.stages.tokenize == old(metrics.stages.tokenize)
      ensures metrics.stages.modelInference == old(metrics.stages.modelInference)
      ensures metrics.stages.grpcReceive == old(metrics.stages.grpcReceive)
      ensures metrics.stages.grpcSend == old(metrics.stages.grpcSend)
    {
      if arrival.Some? {
        var wait := (start - arrival.value) * 1000.0;
        metrics.RecordStageTimings(0.0, 0.0, wait, 0.0, 0.0, now);
      }
    }

    /** What `schedule` records once the backend has answered: the
        tokenize and model-inference stages, the padding statistics and
        one latency for `n` queries. */
    method RecordInference(timing: InferenceTiming, n: int, now: real)
      requires metrics.Valid()
      modifies metrics.stages, metrics.padding, metrics.latency, metrics.throughput,
        metrics`lastUpdateTime, metrics`frozenSnapshot
      ensures metrics.Valid()
      ensures metrics.stages.queueWait == old(metrics.stages.queueWait)
      ensures metrics.stages.tokenize == old(metrics.stages.tokenize) +
        (if timing.tokenizeMs > 0.0 then [timing.tokenizeMs] else [])
      ensures metrics.stages.modelInference == old(metrics.stages.modelInference) +
        (if timing.modelInferenceMs > 0.0 then [timing.modelInferenceMs] else [])
      ensures metrics.stages.grpcReceive == old(metrics.stages.grpcReceive)
      ensures metrics.stages.grpcSend == old(metrics.stages.grpcSend)
      ensures metrics.padding.paddingRatios == old(metrics.padding.paddingRatios) +
        (if timing.paddingRatio > 0.0 then [timing.paddingRatio] else [])
      ensures metrics.latency.latencies == old(metrics.latency.latencies) + [timing.totalMs]
      ensures metrics.throughput.requestCount == old(metrics.throughput.requestCount) + 1
      ensures metrics.throughput.queryCount == old(metrics.throughput.queryCount) + n
    {
      metrics.RecordStageTimings(0.0, timing.tokenizeMs, 0.0, timing.modelInferenceMs, 0.0, now);
      metrics.RecordPaddingStats(timing.paddingRatio, timing.paddedTokens, timing.totalTokens,
        timing.maxSeqLength, timing.avgSeqLength);
      metrics.Record(timing.totalMs, n, now);
    }

    /** `get_info()`: the configuration and the pool's own report. */
    function GetInfo(loads: seq<Routing.Load>): (info: SchedulerInfo)
      requires |loads| == |pool.backends|
      reads this, pool
      ensures info.batchingEnabled == batchingEnabled && info.maxBatchSize == maxBatchSize
      ensures info.timeoutMs == timeoutMs && info.enableStageTiming == enableStageTiming
      ensures info.lengthAware == lengthAware
      ensures info.poolInfo.numInstances == |pool.backends| && info.poolInfo.isLoaded == pool.isLoaded
    {
      SchedulerInfo(batchingEnabled, maxBatchSize, timeoutMs, enableStageTiming, lengthAware, pool.GetPoolInfo(loads))
    }
  }

  /** The dictionary `get_info()` returns. */
  datatype SchedulerInfo = SchedulerInfo(
    batchingEnabled: bool, maxBatchSize: int, timeoutMs: real, enableStageTiming: bool,
    lengthAware: bool, poolInfo: MP.PoolInfo)
}
