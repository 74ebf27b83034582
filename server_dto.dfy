/** The request and result records the server's schedulers and pipelines
    pass around (`src/server/dto/inference.py`, `src/server/dto/scheduler.py`,
    `src/server/dto/pipeline.py`), and the inference they call.

    A backend (a model pool, or the tokenization and inference services
    together) is a call into a model: `Backend` stands for it, scoring each
    pair on its own and reporting a fixed timing breakdown, or raising
    `failure`. */
module ServerDto {
  import opened Wrappers

  type Pair = (string, string)

  /** `InferenceResult`. */
  datatype InferenceResult = InferenceResult(
    scores: seq<real>,
    tTokenizeMs: real, tModelInferenceMs: real, tQueueWaitMs: real,
    tTokenizerQueueWaitMs: real, tModelQueueWaitMs: real, tOverheadMs: real,
    tMpQueueSendMs: real, tMpQueueReceiveMs: real, tGrpcSerializeMs: real,
    tGrpcDeserializeMs: real, tSchedulerMs: real, totalMs: real,
    totalTokens: int, realTokens: int, paddedTokens: int, paddingRatio: real,
    maxSeqLength: int, avgSeqLength: real, batchSize: int, workerId: int,
    tokenizerWorkerId: int, statusCode: int)

  /** `InferenceResult(scores=scores)`: every other field at its default. */
  function DefaultResult(scores: seq<real>): (r: InferenceResult)
    ensures r.scores == scores && r.totalMs == 0.0 && r.batchSize == 0
    ensures r.workerId == -1 && r.tokenizerWorkerId == -1 && r.statusCode == 200
  {
    InferenceResult(scores, 0.0, 0.0, 0.0, 0.0, 0.0, 0.0, 0.0, 0.0, 0.0, 0.0, 0.0, 0.0,
      0, 0, 0, 0.0, 0, 0.0, 0, -1, -1, 200)
  }

  /** `TokenizedBatch`, without the tensors. */
  datatype TokenizedBatch = TokenizedBatch(
    batchSize: int, maxSeqLength: int, totalTokens: int, realTokens: int, paddedTokens: int,
    paddingRatio: real, avgSeqLength: real, tokenizeTimeMs: real)

  /** A model behind a pool or a service: per-pair scores, the timing
      fields it reports, or the exception it raises. */
  datatype Backend = Backend(score: Pair -> real, timing: InferenceResult, failure: Option<Error>)

  /** `[score(p) for p in pairs]`. */
  function ScoreAll(pairs: seq<Pair>, score: Pair -> real): (r: seq<real>)
    ensures |r| == |pairs| && forall i :: 0 <= i < |pairs| ==> r[i] == score(pairs[i])
  {
    seq(|pairs|, i requires 0 <= i < |pairs| => score(pairs[i]))
  }

  /** The backend's answer for `pairs`: one score per pair, in their order. */
  function Infer(b: Backend, pairs: seq<Pair>): (r: Result<InferenceResult>)
    ensures r.Err? <==> b.failure.Some?
    ensures r.Ok? ==> r.value.scores == ScoreAll(pairs, b.score) && r.value.totalMs == b.timing.totalMs
  {
    if b.failure.Some? then Err(b.failure.value) else Ok(b.timing.(scores := ScoreAll(pairs, b.score)))
  }

  /** `PendingRequest`: a caller's pairs waiting in a batching queue. The
      batch thread fills in `result` or `error` and sets the event
      (`signalled`). */
  class PendingRequest {
    const pairs: seq<Pair>
    const submitTime: real
    var result: Option<InferenceResult>
    var error: Option<Error>
    var signalled: bool

    constructor (pairs: seq<Pair>, submitTime: real)
      ensures this.pairs == pairs && this.submitTime == submitTime
      ensures result == None && error == None && !signalled
    {
      this.pairs := pairs;
      this.submitTime := submitTime;
      result := None;
      error := None;
      signalled := false;
    }
  }

  /** The requests of a batch are distinct objects: each was created by
      its own `schedule` call. */
  ghost predicate Distinct(batch: seq<PendingRequest>)
  {
    forall i, j :: 0 <= i < j < |batch| ==> batch[i] != batch[j]
  }

  /** The pairs of each request of a batch. */
  function PairsOf(batch: seq<PendingRequest>): (r: seq<seq<Pair>>)
    ensures |r| == |batch| && forall i :: 0 <= i < |batch| ==> r[i] == batch[i].pairs
  {
    seq(|batch|, i requires 0 <= i < |batch| => batch[i].pairs)
  }

  /** What `get_info()` / `get_batching_info()` report. */
  datatype BatchingInfo = BatchingInfo(
    batchingEnabled: bool, maxBatchSize: int, timeoutMs: real, lengthAware: bool, pending: nat)
}
