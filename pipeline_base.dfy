/** The state every pipeline shares (`src/server/pipeline/base.py`) and
    the request record that travels through a pipeline
    (`src/server/dto/pipeline.py`): consecutive request ids, the registry
    of requests in flight, the request counters of the current logging
    window, and whether the tokenization and inference stages are started.

    The locks are not modelled (every method runs alone); the two clocks
    the source reads (`time.time()` for the logging window,
    `time.perf_counter()` for a request's submit time) are parameters. */
module PipelineBase {
  import opened Wrappers
  import opened ServerDto

  /** `PipelineRequest`: a request while the tokenizer and model workers
      handle it. The workers fill in the mutable fields and set the event
      (`signalled`). */
  class PipelineRequest {
    const requestId: int
    const pairs: seq<Pair>
    const submitTime: real
    var tokenizedBatch: Option<TokenizedBatch>
    var tokenizerWorkerId: int
    var inferenceResult: Option<InferenceResult>
    var inferenceWorkerId: int
    var error: Option<Error>
    var tQueueTokenizationWaitMs: Option<real>
    var tQueueInferenceWaitMs: Option<real>
    var signalled: bool

    /** The dataclass defaults: nothing produced yet, worker ids -1,
        both queue waits 0.0. */
    constructor (requestId: int, pairs: seq<Pair>, submitTime: real)
      ensures this.requestId == requestId && this.pairs == pairs && this.submitTime == submitTime
      ensures tokenizedBatch == None && inferenceResult == None && error == None && !signalled
      ensures tokenizerWorkerId == -1 && inferenceWorkerId == -1
      ensures tQueueTokenizationWaitMs == Some(0.0) && tQueueInferenceWaitMs == Some(0.0)
    {
      this.requestId := requestId;
      this.pairs := pairs;
      this.submitTime := submitTime;
      tokenizedBatch := None;
      tokenizerWorkerId := -1;
      inferenceResult := None;
      inferenceWorkerId := -1;
      error := None;
      tQueueTokenizationWaitMs := Some(0.0);
      tQueueInferenceWaitMs := Some(0.0);
      signalled := false;
    }
  }

  /** The metrics service a pipeline was given; its contents are not part
      of this model. */
  datatype MetricsHandle = MetricsHandle(name: string)

  const NotSetUpMessage := "Pipeline not set up. Call setup() first."

  /** `BasePipeline`. */
  class BasePipeline {
    const metrics: Option<MetricsHandle>
    const experimentName: string
    var shutdown: bool
    var tokenizationStarted: bool
    var inferenceStarted: bool
    var nextId: nat
    var pending: map<int, PipelineRequest>
    var requestCount: nat
    var lastLogTime: real
    var requestsInWindow: nat
    var pairsInWindow: nat

    /** Every registered request is filed under its own id, every id
        handed out so far is below `nextId`, and the window never counts
        more requests than the total. */
    ghost predicate Valid()
      reads this
    {
      (forall id :: id in pending ==> 0 <= id < nextId && pending[id].requestId == id) &&
      requestsInWindow <= requestCount
    }

    /** `BasePipeline(...)` at wall-clock time `now`: ids start at 0,
        nothing is registered or counted, no stage is started. */
    constructor (metrics: Option<MetricsHandle>, experimentName: string, now: real)
      ensures Valid()
      ensures this.metrics == metrics && this.experimentName == experimentName
      ensures !shutdown && !tokenizationStarted && !inferenceStarted
      ensures nextId == 0 && pending == map[] && requestCount == 0
      ensures lastLogTime == now && requestsInWindow == 0 && pairsInWindow == 0
    {
      this.metrics := metrics;
      this.experimentName := experimentName;
      shutdown := false;
      tokenizationStarted := false;
      inferenceStarted := false;
      nextId := 0;
      pending := map[];
      requestCount := 0;
      lastLogTime := now;
      requestsInWindow := 0;
      pairsInWindow := 0;
    }

    /** `_get_next_request_id()`: the ids are 0, 1, 2, ... in call order. */
    method GetNextRequestId() returns (id: nat)
      requires Valid()
      modifies this`nextId
      ensures Valid()
      ensures id == old(nextId) && nextId == id + 1
      ensures id !in pending
    {
      id := nextId;
      nextId := nextId + 1;
    }

    /** `_track_request_metrics(num_pairs)` at wall-clock time `now`: the
        request is counted in the total and in the window; once a second
        or more has passed since the window began, the window restarts at
        `now` with both of its counters at 0. */
    method TrackRequestMetrics(numPairs: nat, now: real)
      requires Valid()
      modifies this`requestCount, this`requestsInWindow, this`pairsInWindow, this`lastLogTime
      ensures Valid()
      ensures requestCount == old(requestCount) + 1
      ensures now - old(lastLogTime) >= 1.0 ==>
        lastLogTime == now && requestsInWindow == 0 && pairsInWindow == 0
      ensures now - old(lastLogTime) < 1.0 ==>
        lastLogTime == old(lastLogTime) && requestsInWindow == old(requestsInWindow) + 1 &&
        pairsInWindow == old(pairsInWindow) + numPairs
    {
      requestCount := requestCount + 1;
      requestsInWindow := requestsInWindow + 1;
      pairsInWindow := pairsInWindow + numPairs;
      var elapsed := now - lastLogTime;
      if elapsed >= 1.0 {
        lastLogTime := now;
        requestsInWindow := 0;
        pairsInWindow := 0;
      }
    }

    /** `_create_request(pairs)`: the request is counted, takes the next
        id, is stamped with `submitTime` and is registered under its id,
        which no request in flight had. */
    method CreateRequest(pairs: seq<Pair>, now: real, submitTime: real) returns (req: PipelineRequest)
      requires Valid()
      modifies this`requestCount, this`requestsInWindow, this`pairsInWindow, this`lastLogTime,
        this`nextId, this`pending
      ensures Valid()
      ensures fresh(req) && req.requestId == old(nextId) && nextId == old(nextId) + 1
      ensures req.requestId !in old(pending) && pending == old(pending)[req.requestId := req]
      ensures req.pairs == pairs && req.submitTime == submitTime
      ensures req.tokenizedBatch == None && req.inferenceResult == None && req.error == None && !req.signalled
      ensures req.tQueueTokenizationWaitMs == Some(0.0) && req.tQueueInferenceWaitMs == Some(0.0)
      ensures requestCount == old(requestCount) + 1
    {
      TrackRequestMetrics(|pairs|, now);
      var id := GetNextRequestId();
      req := new PipelineRequest(id, pairs, submitTime);
      pending := pending[id := req];
    }

    /** `_cleanup_request(req_id)`: the id is no longer registered; an id
        that was not registered changes nothing. */
    method CleanupRequest(id: int)
      requires Valid()
      modifies this`pending
      ensures Valid()
      ensures pending == old(pending) - {id}
      ensures id !in old(pending) ==> pending == old(pending)
    {
      pending := pending - {id};
    }

    /** `is_started`: both stages are running. */
    predicate IsStarted()
      reads this
    {
      tokenizationStarted && inferenceStarted
    }

    /** `get_metrics()`. */
    function GetMetrics(): (r: Result<MetricsHandle>)
      ensures metrics.None? <==> r == Err(RuntimeError(NotSetUpMessage))
      ensures metrics.Some? ==> r == Ok(metrics.value)
    {
      if metrics.None? then Err(RuntimeError(NotSetUpMessage)) else Ok(metrics.value)
    }

    /** `get_tokenizer_worker_metrics()`, with `fromPool` what the
        tokenizer pool reports. */
    function GetTokenizerWorkerMetrics<T>(fromPool: seq<T>): (r: seq<T>)
      reads this
      ensures !tokenizationStarted ==> r == []
      ensures tokenizationStarted ==> r == fromPool
    {
      if !tokenizationStarted then [] else fromPool
    }

    /** `get_inference_worker_metrics()`, with `fromPool` what the model
        pool reports. */
    function GetInferenceWorkerMetrics<T>(fromPool: seq<T>): (r: seq<T>)
      reads this
      ensures !inferenceStarted ==> r == []
      ensures inferenceStarted ==> r == fromPool
    {
      if !inferenceStarted then [] else fromPool
    }

    /** `get_gpu_memory_mb()`, with `fromPool` what the model pool
        reports. */
    function GetGpuMemoryMb(fromPool: real): (r: real)
      reads this
      ensures !inferenceStarted ==> r == 0.0
      ensures inferenceStarted ==> r == fromPool
    {
      if !inferenceStarted then 0.0 else fromPool
    }
  }

  /** `n` consecutive calls hand out `n` consecutive ids from the
      counter, all distinct and none of them pending. */
  method ConsecutiveIds(p: BasePipeline, n: nat) returns (ids: seq<nat>)
    requires p.Valid()
    modifies p`nextId
    ensures p.Valid() && p.nextId == old(p.nextId) + n
    ensures |ids| == n && forall i :: 0 <= i < n ==> ids[i] == old(p.nextId) + i
    ensures forall i, j :: 0 <= i < j < n ==> ids[i] < ids[j]
    ensures forall i :: 0 <= i < n ==> ids[i] !in p.pending
  {
    ids := [];
    while |ids| < n
      invariant p.Valid() && |ids| <= n && p.nextId == old(p.nextId) + |ids|
      invariant forall i :: 0 <= i < |ids| ==> ids[i] == old(p.nextId) + i
      invariant forall i :: 0 <= i < |ids| ==> ids[i] !in p.pending
      invariant p.pending == old(p.pending)
    {
      var id := p.GetNextRequestId();
      ids := ids + [id];
    }
  }

  /** A request that is created and then cleaned up leaves the registry as
      it was; only the id counter and the request counters moved on. */
  method CreateThenCleanup(p: BasePipeline, pairs: seq<Pair>, now: real, submitTime: real)
    returns (id: int)
    requires p.Valid()
    modifies p
    ensures p.Valid() && p.pending == old(p.pending)
    ensures id == old(p.nextId) && p.nextId == id + 1
    ensures p.requestCount == old(p.requestCount) + 1
  {
    var req := p.CreateRequest(pairs, now, submitTime);
    id := req.requestId;
    p.CleanupRequest(id);
    assert p.pending == old(p.pending);
  }
}
