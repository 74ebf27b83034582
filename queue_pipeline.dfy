/** The queue-based pipeline (`src/server/pipeline/queue_based.py`). A
    request normally passes the tokenizer pool and then the model pool; in
    `tokenization_only` mode it stops after tokenization, and in
    `inference_only` mode a synthetic batch of the estimated length skips
    the tokenizer. With batching on, a request that finds other requests
    waiting joins the batch queue, and a batch thread sends the joined
    pairs of a batch through the pipeline as one request.

    The worker pools are not part of this model. What they do with a
    request the pipeline submitted is the parameter `Workers`, and
    `Deliver` writes it into the request as the pools would. The batch
    thread, the condition variable and the events are not modelled either:
    `TakeBatch` and `ProcessBatch` are one round of the thread, and a
    request's event is its `signalled` flag. */
module QueuePipeline {
  import opened Wrappers
  import opened SeqMath
  import opened Text
  import opened ServerDto
  import opened BatchScatter
  import opened PipelineBase
  import SrcScheduler
  import SchedulerService

  /** `config.pipeline.mode`. */
  datatype PipelineMode = Full | TokenizationOnly | InferenceOnly | OtherMode(name: string)

  /** The mode a configured name selects. */
  function ModeOf(name: string): (m: PipelineMode)
    ensures m == Full <==> name == "full"
    ensures m == TokenizationOnly <==> name == "tokenization_only"
    ensures m == InferenceOnly <==> name == "inference_only"
    ensures m.OtherMode? ==> m.name == name
  {
    if name == "full" then Full
    else if name == "tokenization_only" then TokenizationOnly
    else if name == "inference_only" then InferenceOnly
    else OtherMode(name)
  }

  /** What the worker pools do with a submitted request before the
      pipeline's wait ends: whether they finish in time, the model behind
      them (its scores, its timing fields, or the error it raises), the
      tokenized batch a tokenizer stores in `tokenization_only` mode,
      whether the model worker stores its result, and the two queue waits
      they report. `rowScore(i)` is the model's score of row `i` of the
      random token ids `inference_only` mode submits in place of the pairs
      (`torch.randint` is not modelled: its outcome is this input). */
  datatype Workers = Workers(
    finished: bool, model: Backend, tokenized: Option<TokenizedBatch>, stored: bool,
    tokenizerWaitMs: Option<real>, modelWaitMs: Option<real>, rowScore: nat -> real)

  /** The scores of the first `n` random rows. */
  function RowScores(rowScore: nat -> real, n: nat): (r: seq<real>)
    ensures |r| == n && forall i :: 0 <= i < n ==> r[i] == rowScore(i)
  {
    seq(n, i requires 0 <= i < n => rowScore(i))
  }

  /** The result the model worker stores: for a synthetic batch the
      scores of its random rows, one per pair, otherwise the scores of the
      pairs themselves; the timing fields are the model's either way. */
  function ModelResult(w: Workers, pairs: seq<Pair>, synthetic: bool): (r: InferenceResult)
    requires w.model.failure.None?
    ensures synthetic ==> r.scores == RowScores(w.rowScore, |pairs|)
    ensures !synthetic ==> r.scores == ScoreAll(pairs, w.model.score)
    ensures r.totalMs == w.model.timing.totalMs && r.statusCode == w.model.timing.statusCode
  {
    if synthetic then w.model.timing.(scores := RowScores(w.rowScore, |pairs|)) else Infer(w.model, pairs).value
  }

  /** The pools at work on `req`, submitted to the tokenizer (only
      tokenized when `tokenizeOnly`) or, when `synthetic`, straight to the
      model as a batch of random ids. */
  method Deliver(req: PipelineRequest, w: Workers, tokenizeOnly: bool, synthetic: bool)
    modifies req
    ensures req.signalled == (old(req.signalled) || w.finished)
    ensures w.finished ==> (req.tQueueTokenizationWaitMs == w.tokenizerWaitMs &&
      req.tQueueInferenceWaitMs == w.modelWaitMs)
    ensures w.finished && w.model.failure.Some? ==> req.error == w.model.failure
    ensures w.finished && w.model.failure.None? && tokenizeOnly ==> req.tokenizedBatch == w.tokenized
    ensures w.finished && w.model.failure.None? && !tokenizeOnly && w.stored ==>
      req.inferenceResult == Some(ModelResult(w, req.pairs, synthetic))
    ensures !(w.finished && w.model.failure.Some?) ==> req.error == old(req.error)
    ensures !(w.finished && w.model.failure.None? && tokenizeOnly) ==> req.tokenizedBatch == old(req.tokenizedBatch)
    ensures !(w.finished && w.model.failure.None? && !tokenizeOnly && w.stored) ==>
      req.inferenceResult == old(req.inferenceResult)
  {
    if w.finished {
      req.tQueueTokenizationWaitMs := w.tokenizerWaitMs;
      req.tQueueInferenceWaitMs := w.modelWaitMs;
      if w.model.failure.Some? {
        req.error := w.model.failure;
      } else if tokenizeOnly {
        req.tokenizedBatch := w.tokenized;
      } else if w.stored {
        req.inferenceResult := Some(ModelResult(w, req.pairs, synthetic));
      }
      req.signalled := true;
    }
  }

  /** `x or 0` on a queue wait. */
  function OrZero(x: Option<real>): (r: real)
    ensures x.None? ==> r == 0.0
    ensures x.Some? ==> r == x.value
  {
    if x.Some? then x.value else 0.0
  }

  /** The fallback sequence length when there is no tokenizer pool. */
  const DefaultMaxLength := 512

  /** `int(len(pairs[0][0] + pairs[0][1]) / 4)` clamped to `max_len`
      and then raised to at least 1. */
  function EstimatedLength(first: Pair, maxLen: int): (n: int)
    ensures n >= 1
    ensures maxLen >= 1 ==> n <= maxLen
    ensures 1 <= (|first.0| + |first.1|) / 4 <= maxLen ==> n == (|first.0| + |first.1|) / 4
    ensures (|first.0| + |first.1|) / 4 > maxLen >= 1 ==> n == maxLen
    ensures (|first.0| + |first.1|) / 4 == 0 ==> n == 1
  {
    var estimated := (|first.0| + |first.1|) / 4;
    var clamped := if estimated > maxLen then maxLen else estimated;
    if clamped < 1 then 1 else clamped
  }

  /** The synthetic batch of `inference_only` mode: every one of the
      `size` rows is `len` real tokens, with no padding. */
  function SyntheticBatch(size: nat, len: int): (b: TokenizedBatch)
    ensures b.batchSize == size && b.maxSeqLength == len
    ensures b.totalTokens == size * len && b.realTokens == b.totalTokens && b.paddedTokens == 0
    ensures b.paddingRatio == 0.0 && b.avgSeqLength == len as real && b.tokenizeTimeMs == 0.0
  {
    TokenizedBatch(size, len, size * len, size * len, 0, 0.0, len as real, 0.0)
  }

  /** The message of a pipeline wait that ran out (`seconds` as Python
      prints the float). */
  function TimedOut(id: nat, seconds: string): string
  {
    "Pipeline request " + NatToString(id) + " timed out after " + seconds + "s"
  }

  function NoTokenizedResult(id: nat): string
  {
    "Pipeline request " + NatToString(id) + " completed with no tokenized result"
  }

  function NoResult(id: nat): string
  {
    "Pipeline request " + NatToString(id) + " completed with no result"
  }

  const SetupMessage := "Pipeline setup requires pools and metrics to be initialized by orchestrator"
  const QueuedTimedOutMessage := "Scheduler request timed out after 30s"

  /** The result `tokenization_only` mode builds: no scores, status 204,
      everything else zero or -1 except the elapsed time. */
  function TokenizedOnlyResult(totalMs: real): (r: InferenceResult)
    ensures r.scores == [] && r.statusCode == 204 && r.totalMs == totalMs
    ensures r.batchSize == 0 && r.workerId == -1 && r.tokenizerWorkerId == -1
  {
    DefaultResult([]).(totalMs := totalMs, statusCode := 204)
  }

  /** The last step of `_schedule_direct`: the queue wait is the sum of
      the tokenizer and model waits, each read as 0 when missing, and the
      total is the elapsed time since submission. */
  function WithQueueWaits(r: InferenceResult, tokenizerWait: Option<real>, modelWait: Option<real>, totalMs: real)
    : (s: InferenceResult)
    ensures s.tQueueWaitMs == OrZero(tokenizerWait) + OrZero(modelWait)
    ensures s.tTokenizerQueueWaitMs == OrZero(tokenizerWait) && s.tModelQueueWaitMs == OrZero(modelWait)
    ensures s.totalMs == totalMs
    ensures s.scores == r.scores && s.statusCode == r.statusCode && s.batchSize == r.batchSize
  {
    r.(tQueueWaitMs := OrZero(tokenizerWait) + OrZero(modelWait),
       tTokenizerQueueWaitMs := OrZero(tokenizerWait), tModelQueueWaitMs := OrZero(modelWait),
       totalMs := totalMs)
  }

  /** What `_schedule_direct` answers once the request (id `id`,
      submitted at `submitTime`) is registered and the workers `w` have
      handled it, the pipeline's clock reading `doneAt` at the end. */
  function DirectAnswer(mode: PipelineMode, id: nat, pairs: seq<Pair>, submitTime: real, w: Workers, doneAt: real)
    : (r: Result<InferenceResult>)
    ensures r.Ok? ==> w.finished && w.model.failure.None? && !(mode == InferenceOnly && pairs == [])
    ensures r.Ok? && mode != TokenizationOnly ==> |r.value.scores| == |pairs|
  {
    var elapsed := (doneAt - submitTime) * 1000.0;
    if mode == InferenceOnly && pairs == [] then Err(IndexError)
    else if !w.finished then
      Err(RuntimeError(TimedOut(id, if mode == TokenizationOnly then "30.0" else "300.0")))
    else if w.model.failure.Some? then Err(w.model.failure.value)
    else if mode == TokenizationOnly then
      if w.tokenized.None? then Err(RuntimeError(NoTokenizedResult(id)))
      else Ok(WithQueueWaits(TokenizedOnlyResult(elapsed), w.tokenizerWaitMs, w.modelWaitMs, elapsed))
    else if !w.stored then Err(RuntimeError(NoResult(id)))
    else Ok(WithQueueWaits(ModelResult(w, pairs, mode == InferenceOnly), w.tokenizerWaitMs, w.modelWaitMs, elapsed))
  }

  /** The error `_schedule_direct` raises before it creates a request,
      when the stages its mode needs are not started. */
  function StageGuard(mode: PipelineMode, tokenizationStarted: bool, inferenceStarted: bool): (r: Option<Error>)
    ensures r.None? <==>
      (mode == Full ==> tokenizationStarted && inferenceStarted) &&
      (mode == TokenizationOnly ==> tokenizationStarted) &&
      (mode == InferenceOnly ==> inferenceStarted)
  {
    if mode == Full && (!tokenizationStarted || !inferenceStarted) then Some(RuntimeError("Pipeline services not started"))
    else if mode == TokenizationOnly && !tokenizationStarted then Some(RuntimeError("Tokenization service not started"))
    else if mode == InferenceOnly && !inferenceStarted then Some(RuntimeError("Inference service not started"))
    else None
  }

  /** `QueueBasedPipeline`, over the shared pipeline state `base`. */
  class QueueBasedPipeline {
    const base: BasePipeline
    const mode: PipelineMode
    var inferenceQueueReady: bool
    var batchingEnabled: bool
    var maxBatchSize: int
    var timeoutMs: real
    var lengthAware: bool
    var batchQueue: seq<PendingRequest>
    var batchingRunning: bool
    var batchShutdown: bool

    /** `QueueBasedPipeline(...)`: batching off, with the defaults of 8
        requests and 100 ms. */
    constructor (base: BasePipeline, mode: PipelineMode)
      ensures this.base == base && this.mode == mode
      ensures !inferenceQueueReady && !batchingEnabled && maxBatchSize == 8 && timeoutMs == 100.0
      ensures !lengthAware && batchQueue == [] && !batchingRunning && !batchShutdown
    {
      this.base := base;
      this.mode := mode;
      inferenceQueueReady := false;
      batchingEnabled := false;
      maxBatchSize := 8;
      timeoutMs := 100.0;
      lengthAware := false;
      batchQueue := [];
      batchingRunning := false;
      batchShutdown := false;
    }

    /** `setup()`, with `ready` whether the pools and the metrics service
        were given. The inference queue is created first; without pools
        or metrics setup fails; with batching configured the batch
        settings are adopted and the batch thread runs. */
    method Setup(ready: bool, enabled: bool, maxBatch: int, timeout: real, aware: bool) returns (r: Result<()>)
      modifies this
      ensures inferenceQueueReady
      ensures r.Err? <==> !ready
      ensures !ready ==> r == Err(RuntimeError(SetupMessage))
      ensures ready && enabled ==> (batchingEnabled && maxBatchSize == maxBatch && timeoutMs == timeout &&
        lengthAware == aware && batchingRunning && !batchShutdown)
      ensures !(ready && enabled) ==> (batchingEnabled == old(batchingEnabled) &&
        maxBatchSize == old(maxBatchSize) && timeoutMs == old(timeoutMs) && lengthAware == old(lengthAware) &&
        batchingRunning == old(batchingRunning) && batchShutdown == old(batchShutdown))
      ensures batchQueue == old(batchQueue)
    {
      inferenceQueueReady := true;
      if !ready {
        return Err(RuntimeError(SetupMessage));
      }
      if enabled {
        batchingEnabled := true;
        maxBatchSize := maxBatch;
        timeoutMs := timeout;
        lengthAware := aware;
        batchingRunning := true;
        batchShutdown := false;
      }
      return Ok(());
    }

    /** `start()`: `full` and `tokenization_only` start tokenization,
        `full` and `inference_only` start inference; a stage the mode does
        not use keeps its flag. */
    method Start()
      modifies base`tokenizationStarted, base`inferenceStarted
      ensures base.tokenizationStarted == (old(base.tokenizationStarted) || mode == Full || mode == TokenizationOnly)
      ensures base.inferenceStarted == (old(base.inferenceStarted) || mode == Full || mode == InferenceOnly)
    {
      if mode == Full || mode == TokenizationOnly {
        base.tokenizationStarted := true;
      }
      if mode == Full || mode == InferenceOnly {
        base.inferenceStarted := true;
      }
    }

    /** `stop()`: both shutdown events are set, the batch thread is told
        to finish, and neither stage counts as started. */
    method Stop()
      modifies this`batchingRunning, this`batchShutdown,
        base`shutdown, base`tokenizationStarted, base`inferenceStarted
      ensures base.shutdown && batchShutdown && !batchingRunning
      ensures !base.tokenizationStarted && !base.inferenceStarted && !base.IsStarted()
    {
      base.shutdown := true;
      batchingRunning := false;
      batchShutdown := true;
      base.inferenceStarted := false;
      base.tokenizationStarted := false;
    }

    /** `schedule(pairs)` up to the wait. With batching on and requests
        waiting, a fresh request joins the back of the batch queue;
        otherwise (batching off, or nobody waiting) the request runs
        directly. */
    method Schedule(pairs: seq<Pair>, now: real, perfNow: real, w: Workers, tokenizerMaxLen: Option<int>, doneAt: real)
      returns (s: SrcScheduler.Scheduled)
      requires base.Valid()
      modifies this`batchQueue, base
      ensures base.Valid()
      ensures batchingEnabled && old(batchQueue) != [] ==>
        s.Queued? && fresh(s.request) && s.request.pairs == pairs && s.request.submitTime == perfNow &&
        s.request.result == None && s.request.error == None && !s.request.signalled &&
        batchQueue == old(batchQueue) + [s.request]
      ensures !(batchingEnabled && old(batchQueue) != []) ==> s.Answered? && batchQueue == old(batchQueue)
      ensures !(batchingEnabled && old(batchQueue) != []) && StageGuard(mode, old(base.tokenizationStarted), old(base.inferenceStarted)).None? ==>
        s.result == DirectAnswer(mode, old(base.nextId), pairs, perfNow, w, doneAt)
    {
      if batchingEnabled && batchQueue != [] {
        var req := new PendingRequest(pairs, perfNow);
        batchQueue := batchQueue + [req];
        return SrcScheduler.Queued(req);
      }
      var r, _ := ScheduleDirect(pairs, now, perfNow, w, tokenizerMaxLen, doneAt);
      return SrcScheduler.Answered(r);
    }

    /** The end of a queued caller's 30-second wait. */
    function AwaitQueued(req: PendingRequest): (r: Result<InferenceResult>)
      reads req
      ensures !req.signalled ==> r == Err(RuntimeError(QueuedTimedOutMessage))
      ensures req.signalled && req.error.Some? ==> r == Err(req.error.value)
      ensures req.signalled && req.error.None? && req.result.None? ==>
        r == Err(RuntimeError(SchedulerService.NoneResultMessage))
      ensures r.Ok? <==> req.signalled && req.error.None? && req.result.Some?
      ensures r.Ok? ==> r.value == req.result.value
    {
      if !req.signalled then Err(RuntimeError(QueuedTimedOutMessage))
      else if req.error.Some? then Err(req.error.value)
      else if req.result.None? then Err(RuntimeError(SchedulerService.NoneResultMessage))
      else Ok(req.result.value)
    }

    /** `_schedule_direct(pairs)`. Unless the mode's stages are started,
        it fails before anything changes. Otherwise it registers a
        request (wall clock `now`, submit time `perfNow`), submits it (in
        `inference_only` mode as a synthetic batch, returned in
        `submitted`), waits for the workers `w`, and answers
        `DirectAnswer`; the request is unregistered again whatever
        happened. */
    method ScheduleDirect(pairs: seq<Pair>, now: real, perfNow: real, w: Workers, tokenizerMaxLen: Option<int>, doneAt: real)
      returns (r: Result<InferenceResult>, submitted: Option<TokenizedBatch>)
      requires base.Valid()
      modifies base
      ensures base.Valid()
      ensures var guard := StageGuard(mode, old(base.tokenizationStarted), old(base.inferenceStarted));
        guard.Some? ==> (r == Err(guard.value) && submitted == None &&
          base.nextId == old(base.nextId) && base.requestCount == old(base.requestCount))
      ensures var guard := StageGuard(mode, old(base.tokenizationStarted), old(base.inferenceStarted));
        guard.None? ==> (r == DirectAnswer(mode, old(base.nextId), pairs, perfNow, w, doneAt) &&
          base.nextId == old(base.nextId) + 1 && base.requestCount == old(base.requestCount) + 1)
      ensures base.pending == old(base.pending)
      ensures base.tokenizationStarted == old(base.tokenizationStarted)
      ensures base.inferenceStarted == old(base.inferenceStarted)
      ensures submitted.Some? <==> (StageGuard(mode, old(base.tokenizationStarted), old(base.inferenceStarted)).None? &&
        mode == InferenceOnly && pairs != [])
      ensures submitted.Some? ==> (submitted.value ==
        SyntheticBatch(|pairs|, EstimatedLength(pairs[0], if tokenizerMaxLen.Some? then tokenizerMaxLen.value else DefaultMaxLength)))
    {
      var guard := StageGuard(mode, base.tokenizationStarted, base.inferenceStarted);
      if guard.Some? {
        return Err(guard.value), None;
      }
      var request := base.CreateRequest(pairs, now, perfNow);
      var id: nat := request.requestId;
      submitted := None;
      if mode == InferenceOnly {
        if pairs == [] {
          base.CleanupRequest(id);
          return Err(IndexError), None;
        }
        var maxLen := DefaultMaxLength;
        if tokenizerMaxLen.Some? {
          maxLen := tokenizerMaxLen.value;
        }
        submitted := Some(SyntheticBatch(|pairs|, EstimatedLength(pairs[0], maxLen)));
      }
      r := RunDirect(request, mode, w, doneAt);
      base.CleanupRequest(id);
    }

    /** `stop`-independent read of the batching settings:
        `get_batching_info()`. */
    function GetBatchingInfo(): (info: BatchingInfo)
      reads this
      ensures info.pending == |batchQueue|
      ensures info == BatchingInfo(batchingEnabled, maxBatchSize, timeoutMs, lengthAware, info.pending)
    {
      BatchingInfo(batchingEnabled, maxBatchSize, timeoutMs, lengthAware, |batchQueue|)
    }

    /** `submit_pipeline(item)`: refused unless tokenization is started. */
    function SubmitPipeline(): (r: Result<()>)
      reads base
      ensures r.Err? <==> !base.tokenizationStarted
      ensures r.Err? ==> r.error == RuntimeError("Tokenization service not started")
    {
      if !base.tokenizationStarted then Err(RuntimeError("Tokenization service not started")) else Ok(())
    }

    /** One round of `_batch_loop`'s collection: nothing once the batch
        thread is shutting down or when the queue is empty; otherwise the
        first request, then more while the batch is below the maximum and
        the deadline allows another poll (`polls`), stopping at an empty
        queue. */
    method TakeBatch(polls: nat) returns (batch: seq<PendingRequest>)
      modifies this`batchQueue
      ensures batch + batchQueue == old(batchQueue)
      ensures batchShutdown || old(batchQueue) == [] ==> batch == []
      ensures !batchShutdown && old(batchQueue) != [] ==> (|batch| ==
        1 + SrcScheduler.Min3(if maxBatchSize <= 1 then 0 else maxBatchSize - 1, polls, |old(batchQueue)| - 1))
      ensures |batch| <= if maxBatchSize < 1 then 1 else maxBatchSize
    {
      if batchShutdown || batchQueue == [] {
        return [];
      }
      batch := [batchQueue[0]];
      batchQueue := batchQueue[1..];
      var round := 0;
      while |batch| < maxBatchSize && round < polls && batchQueue != []
        invariant batch + batchQueue == old(batchQueue) && round <= polls && 1 <= |batch|
        invariant |batch| == 1 + SrcScheduler.Min3(if maxBatchSize <= 1 then 0 else maxBatchSize - 1, round, |old(batchQueue)| - 1)
        decreases polls - round
      {
        batch := batch + [batchQueue[0]];
        batchQueue := batchQueue[1..];
        round := round + 1;
      }
    }

    /** `_process_batch(batch)` started at `batchStart`: the joined pairs
        (sorted by length in length-aware mode) go through the pipeline as
        one request with the next id, which is not registered. If that
        request succeeds, request `i` of the batch receives its slice of
        the scores with its own queue wait added to the pipeline's;
        otherwise every request receives the error. Every event is set. */
    method ProcessBatch(batch: seq<PendingRequest>, w: Workers, batchStart: real)
      requires Distinct(batch) && base.Valid()
      modifies set i | 0 <= i < |batch| :: batch[i]
      modifies base`nextId
      ensures base.Valid() && base.nextId == old(base.nextId) + 1
      ensures var groups := PairsOf(batch);
        var res := BatchAnswer(old(base.nextId), InferenceOrder(lengthAware, Concat(groups)), w);
        forall i :: 0 <= i < |batch| ==> (batch[i].signalled &&
          (res.Ok? ==> (batch[i].error == old(batch[i].error) &&
            batch[i].result == Some(BatchEntry(res.value, groups, i, |Concat(groups)|,
              SchedulerService.QueueWaitMs(batchStart, batch[i].submitTime))))) &&
          (res.Err? ==> batch[i].error == Some(res.error) && batch[i].result == old(batch[i].result)))
    {
      var all := GatherPairs(batch);
      if lengthAware {
        all := SortByLength(all);
      }
      var id := base.GetNextRequestId();
      var res := RunBatch(id, all, w, batchStart);
      if res.Err? {
        SchedulerService.FailAll(batch, res.error);
      } else {
        HandOut(batch, res.value, |all|, batchStart);
      }
    }

    /** The scatter loop of `_process_batch`. */
    method HandOut(batch: seq<PendingRequest>, res: InferenceResult, total: nat, batchStart: real)
      requires Distinct(batch)
      modifies set i | 0 <= i < |batch| :: batch[i]
      ensures forall i :: 0 <= i < |batch| ==> (batch[i].signalled && batch[i].error == old(batch[i].error) &&
        batch[i].result == Some(BatchEntry(res, PairsOf(batch), i, total,
          SchedulerService.QueueWaitMs(batchStart, batch[i].submitTime))))
    {
      var groups := PairsOf(batch);
      var idx := 0;
      for i := 0 to |batch|
        invariant idx == Offset(groups, i)
        invariant forall k :: 0 <= k < |batch| ==> batch[k].error == old(batch[k].error)
        invariant forall k :: 0 <= k < i ==> (batch[k].signalled &&
          batch[k].result == Some(BatchEntry(res, groups, k, total,
            SchedulerService.QueueWaitMs(batchStart, batch[k].submitTime))))
      {
        var n := |batch[i].pairs|;
        var batchWait := (batchStart - batch[i].submitTime) * 1000.0;
        var entry := DefaultResult(PySlice(res.scores, idx, idx + n)).(
          tTokenizeMs := res.tTokenizeMs, tModelInferenceMs := res.tModelInferenceMs,
          tQueueWaitMs := batchWait + res.tQueueWaitMs,
          totalMs := res.totalMs, totalTokens := res.totalTokens, realTokens := res.realTokens,
          paddedTokens := res.paddedTokens, paddingRatio := res.paddingRatio,
          maxSeqLength := res.maxSeqLength, avgSeqLength := res.avgSeqLength,
          batchSize := total, workerId := res.workerId, tokenizerWorkerId := res.tokenizerWorkerId,
          tTokenizerQueueWaitMs := res.tTokenizerQueueWaitMs, tModelQueueWaitMs := res.tModelQueueWaitMs);
        assert entry == BatchEntry(res, groups, i, total, SchedulerService.QueueWaitMs(batchStart, batch[i].submitTime));
        batch[i].result := Some(entry);
        ConcatStep(groups, i);
        idx := idx + n;
        batch[i].signalled := true;
      }
    }
  }

  /** A registered direct request, fresh from `_create_request`, handed
      to the workers `w` and waited for. */
  method RunDirect(request: PipelineRequest, mode: PipelineMode, w: Workers, doneAt: real)
    returns (r: Result<InferenceResult>)
    requires request.requestId >= 0 && !(mode == InferenceOnly && request.pairs == [])
    requires request.tokenizedBatch == None && request.inferenceResult == None
    requires request.error == None && !request.signalled
    modifies request
    ensures r == DirectAnswer(mode, request.requestId as nat, request.pairs, request.submitTime, w, doneAt)
  {
    Deliver(request, w, mode == TokenizationOnly, mode == InferenceOnly);
    r := AwaitDirect(request, mode == TokenizationOnly, doneAt);
  }

  /** The pipeline request of a batch (id `id`, the joined pairs `all`,
      submitted at `batchStart`) handed to the workers `w` and waited
      for. */
  method RunBatch(id: nat, all: seq<Pair>, w: Workers, batchStart: real) returns (r: Result<InferenceResult>)
    ensures r == BatchAnswer(id, all, w)
  {
    var request := new PipelineRequest(id, all, batchStart);
    Deliver(request, w, false, false);
    r := AwaitBatch(request);
  }

  /** The waits of `_schedule_direct` after submission, read off the
      request the workers handled. */
  method AwaitDirect(request: PipelineRequest, tokenizeOnly: bool, doneAt: real) returns (r: Result<InferenceResult>)
    requires request.requestId >= 0
    modifies request`inferenceResult
    ensures var id := request.requestId as nat;
      var elapsed := (doneAt - request.submitTime) * 1000.0;
      r == (if !request.signalled then Err(RuntimeError(TimedOut(id, if tokenizeOnly then "30.0" else "300.0")))
        else if request.error.Some? then Err(request.error.value)
        else if tokenizeOnly && request.tokenizedBatch.None? then Err(RuntimeError(NoTokenizedResult(id)))
        else if tokenizeOnly then
          Ok(WithQueueWaits(TokenizedOnlyResult(elapsed), request.tQueueTokenizationWaitMs, request.tQueueInferenceWaitMs, elapsed))
        else if old(request.inferenceResult).None? then Err(RuntimeError(NoResult(id)))
        else Ok(WithQueueWaits(old(request.inferenceResult).value, request.tQueueTokenizationWaitMs,
          request.tQueueInferenceWaitMs, elapsed)))
  {
    var id: nat := request.requestId;
    if tokenizeOnly {
      if !request.signalled {
        return Err(RuntimeError(TimedOut(id, "30.0")));
      }
      if request.error.Some? {
        return Err(request.error.value);
      }
      if request.tokenizedBatch.None? {
        return Err(RuntimeError(NoTokenizedResult(id)));
      }
      request.inferenceResult := Some(TokenizedOnlyResult((doneAt - request.submitTime) * 1000.0));
    } else {
      if !request.signalled {
        return Err(RuntimeError(TimedOut(id, "300.0")));
      }
      if request.error.Some? {
        return Err(request.error.value);
      }
    }
    if request.inferenceResult.None? {
      return Err(RuntimeError(NoResult(id)));
    }
    var totalMs := (doneAt - request.submitTime) * 1000.0;
    var result := request.inferenceResult.value;
    result := result.(
      tQueueWaitMs := OrZero(request.tQueueTokenizationWaitMs) + OrZero(request.tQueueInferenceWaitMs),
      tTokenizerQueueWaitMs := OrZero(request.tQueueTokenizationWaitMs),
      tModelQueueWaitMs := OrZero(request.tQueueInferenceWaitMs),
      totalMs := totalMs);
    return Ok(result);
  }

  /** What the batch's own pipeline request (id `id`, the joined pairs
      `all`) yields once the workers `w` handled it. */
  function BatchAnswer(id: nat, all: seq<Pair>, w: Workers): (r: Result<InferenceResult>)
    ensures !w.finished ==> r == Err(RuntimeError(TimedOut(id, "30")))
    ensures w.finished && w.model.failure.Some? ==> r == Err(w.model.failure.value)
    ensures w.finished && w.model.failure.None? && !w.stored ==> r == Err(RuntimeError(NoResult(id)))
    ensures r.Ok? <==> w.finished && w.model.failure.None? && w.stored
    ensures r.Ok? ==> r.value == Infer(w.model, all).value && r.value.scores == ScoreAll(all, w.model.score)
  {
    if !w.finished then Err(RuntimeError(TimedOut(id, "30")))
    else if w.model.failure.Some? then Err(w.model.failure.value)
    else if !w.stored then Err(RuntimeError(NoResult(id)))
    else Ok(Infer(w.model, all).value)
  }

  /** The wait of `_process_batch` on its pipeline request. */
  method AwaitBatch(request: PipelineRequest) returns (r: Result<InferenceResult>)
    requires request.requestId >= 0
    ensures r == (if !request.signalled then Err(RuntimeError(TimedOut(request.requestId as nat, "30")))
      else if request.error.Some? then Err(request.error.value)
      else if request.inferenceResult.None? then Err(RuntimeError(NoResult(request.requestId as nat)))
      else Ok(request.inferenceResult.value))
  {
    var id: nat := request.requestId;
    if !request.signalled {
      return Err(RuntimeError(TimedOut(id, "30")));
    }
    if request.error.Some? {
      return Err(request.error.value);
    }
    if request.inferenceResult.None? {
      return Err(RuntimeError(NoResult(id)));
    }
    return Ok(request.inferenceResult.value);
  }

  /** The result request `i` of a batch receives: its slice of the
      scores, the measurements of the pipeline request, its own wait in
      the batch queue plus the pipeline's queue wait, and the size of the
      whole batch. */
  function BatchEntry(res: InferenceResult, groups: seq<seq<Pair>>, i: nat, total: nat, batchWaitMs: real)
    : (r: InferenceResult)
    requires i < |groups|
    ensures r.scores == PySlice(res.scores, Offset(groups, i), Offset(groups, i) + |groups[i]|)
    ensures r.tQueueWaitMs == batchWaitMs + res.tQueueWaitMs && r.batchSize == total
    ensures r.tTokenizeMs == res.tTokenizeMs && r.tModelInferenceMs == res.tModelInferenceMs && r.totalMs == res.totalMs
    ensures r.workerId == res.workerId && r.tokenizerWorkerId == res.tokenizerWorkerId
    ensures r.tTokenizerQueueWaitMs == res.tTokenizerQueueWaitMs && r.tModelQueueWaitMs == res.tModelQueueWaitMs
    ensures r.statusCode == 200 && r.tOverheadMs == 0.0
  {
    var o := Offset(groups, i);
    DefaultResult(PySlice(res.scores, o, o + |groups[i]|)).(
      tTokenizeMs := res.tTokenizeMs, tModelInferenceMs := res.tModelInferenceMs,
      tQueueWaitMs := batchWaitMs + res.tQueueWaitMs,
      totalMs := res.totalMs, totalTokens := res.totalTokens, realTokens := res.realTokens,
      paddedTokens := res.paddedTokens, paddingRatio := res.paddingRatio,
      maxSeqLength := res.maxSeqLength, avgSeqLength := res.avgSeqLength,
      batchSize := total, workerId := res.workerId, tokenizerWorkerId := res.tokenizerWorkerId,
      tTokenizerQueueWaitMs := res.tTokenizerQueueWaitMs, tModelQueueWaitMs := res.tModelQueueWaitMs)
  }

  /** A direct request that succeeds carries a queue wait that is the sum
      of the two stage waits. In `tokenization_only` mode it carries no
      scores and status 204; in `inference_only` mode one score per pair,
      each the score of a random row; otherwise the model's score of
      each pair. */
  lemma DirectSuccess(mode: PipelineMode, id: nat, pairs: seq<Pair>, submitTime: real, w: Workers, doneAt: real)
    requires DirectAnswer(mode, id, pairs, submitTime, w, doneAt).Ok?
    ensures var r := DirectAnswer(mode, id, pairs, submitTime, w, doneAt).value;
      w.finished && w.model.failure.None? &&
      r.tQueueWaitMs == OrZero(w.tokenizerWaitMs) + OrZero(w.modelWaitMs) &&
      r.totalMs == (doneAt - submitTime) * 1000.0 &&
      (mode == TokenizationOnly ==> r.scores == [] && r.statusCode == 204) &&
      (mode == InferenceOnly ==> r.scores == RowScores(w.rowScore, |pairs|)) &&
      (mode != TokenizationOnly && mode != InferenceOnly ==> r.scores == ScoreAll(pairs, w.model.score))
  {
  }

  /** In `inference_only` mode the text of the pairs plays no part in the
      answer: two requests with as many pairs get the same answer. */
  lemma InferenceOnlyIgnoresText(id: nat, pairs: seq<Pair>, other: seq<Pair>, submitTime: real, w: Workers, doneAt: real)
    requires |pairs| == |other|
    ensures DirectAnswer(InferenceOnly, id, pairs, submitTime, w, doneAt) ==
      DirectAnswer(InferenceOnly, id, other, submitTime, w, doneAt)
  {
  }

  /** Every failure of a direct request names its cause: an empty
      `inference_only` request, workers that did not finish, the model's
      error, or a missing result. */
  lemma DirectFailure(mode: PipelineMode, id: nat, pairs: seq<Pair>, submitTime: real, w: Workers, doneAt: real)
    requires DirectAnswer(mode, id, pairs, submitTime, w, doneAt).Err?
    ensures (mode == InferenceOnly && pairs == []) || !w.finished || w.model.failure.Some? ||
      (mode == TokenizationOnly && w.tokenized.None?) || (mode != TokenizationOnly && !w.stored)
  {
  }

  /** A caller whose batch succeeded receives exactly its share of the
      scores, a queue wait that adds its own wait in the batch queue to
      the pipeline's, and, outside length-aware mode, the scores of its
      own pairs. */
  lemma BatchCallerShare(lengthAware: bool, batch: seq<PendingRequest>, id: nat, w: Workers, batchStart: real, i: nat)
    requires i < |batch| && w.finished && w.model.failure.None? && w.stored
    ensures var groups := PairsOf(batch);
      var res := BatchAnswer(id, InferenceOrder(lengthAware, Concat(groups)), w);
      var e := BatchEntry(res.value, groups, i, |Concat(groups)|, SchedulerService.QueueWaitMs(batchStart, batch[i].submitTime));
      |e.scores| == |batch[i].pairs| &&
      e.tQueueWaitMs == (batchStart - batch[i].submitTime) * 1000.0 + w.model.timing.tQueueWaitMs &&
      (!lengthAware ==> e.scores == ScoreAll(batch[i].pairs, w.model.score))
  {
    var groups := PairsOf(batch);
    var res := BatchAnswer(id, InferenceOrder(lengthAware, Concat(groups)), w);
    ScatterPartitions(res.value.scores, groups);
    var e := BatchEntry(res.value, groups, i, |Concat(groups)|, SchedulerService.QueueWaitMs(batchStart, batch[i].submitTime));
    assert Scatter(res.value.scores, groups)[i] == e.scores;
    if !lengthAware {
      ScatterInOrder(groups, w.model.score);
    }
  }
}
