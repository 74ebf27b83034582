/** The scheduler service (`src/server/services/scheduler_service.py`).
    Without batching a request is tokenized and scored at once; with
    batching it is queued, a batch thread scores up to `max_batch` queued
    requests together, and the caller waits at most ten batch timeouts for
    its slice of the scores.

    The tokenization and inference services are one `Backend` here: their
    composition scores each pair on its own. The batch thread's loop, the
    condition variable and the events are not modelled; `TakeBatch` and
    `ProcessBatch` are one round of the thread, `Await` is the end of a
    caller's wait, and the clock is the parameter `batchStart`. */
module SchedulerService {
  import opened Wrappers
  import opened SeqMath
  import opened ServerDto
  import opened BatchScatter
  import SrcScheduler

  const TimedOutMessage := "Scheduler request timed out"
  const NoneResultMessage := "Scheduler returned None result (unexpected error)"

  /** The result request `i` of a batch receives: its slice of the scores,
      every measurement of the batch, its own queue wait, and the size of
      the whole batch as `batch_size`. */
  function EntryFor(res: InferenceResult, groups: seq<seq<Pair>>, i: nat, total: nat, waitMs: real): (r: InferenceResult)
    requires i < |groups|
    ensures r.scores == PySlice(res.scores, Offset(groups, i), Offset(groups, i) + |groups[i]|)
    ensures r.tQueueWaitMs == waitMs && r.batchSize == total
    ensures r.tTokenizeMs == res.tTokenizeMs && r.tModelInferenceMs == res.tModelInferenceMs
    ensures r.totalMs == res.totalMs && r.totalTokens == res.totalTokens && r.realTokens == res.realTokens
    ensures r.paddedTokens == res.paddedTokens && r.paddingRatio == res.paddingRatio
    ensures r.maxSeqLength == res.maxSeqLength && r.avgSeqLength == res.avgSeqLength
    ensures r.workerId == res.workerId && r.tokenizerWorkerId == -1
  {
    var o := Offset(groups, i);
    DefaultResult(PySlice(res.scores, o, o + |groups[i]|)).(
      tTokenizeMs := res.tTokenizeMs, tModelInferenceMs := res.tModelInferenceMs, tQueueWaitMs := waitMs,
      totalMs := res.totalMs, totalTokens := res.totalTokens, realTokens := res.realTokens,
      paddedTokens := res.paddedTokens, paddingRatio := res.paddingRatio,
      maxSeqLength := res.maxSeqLength, avgSeqLength := res.avgSeqLength,
      batchSize := total, workerId := res.workerId)
  }

  /** `(batch_start_time - req.submit_time) * 1000`. */
  function QueueWaitMs(batchStart: real, submitTime: real): real
  {
    (batchStart - submitTime) * 1000.0
  }

  /** `SchedulerService`. */
  class SchedulerService {
    const batching: bool
    const maxBatch: int
    const timeoutMs: real
    const lengthAware: bool
    var queue: seq<PendingRequest>
    var running: bool
    var shutdown: bool

    constructor (batching: bool, maxBatch: int, timeoutMs: real, lengthAware: bool)
      ensures this.batching == batching && this.maxBatch == maxBatch
      ensures this.timeoutMs == timeoutMs && this.lengthAware == lengthAware
      ensures queue == [] && running == batching && !shutdown
    {
      this.batching := batching;
      this.maxBatch := maxBatch;
      this.timeoutMs := timeoutMs;
      this.lengthAware := lengthAware;
      queue := [];
      running := batching;
      shutdown := false;
    }

    /** How long a caller waits for its batch: ten batch timeouts, in
        seconds. */
    function WaitTimeoutSec(): (t: real)
      ensures t * 100.0 == timeoutMs
    {
      (timeoutMs * 10.0) / 1000.0
    }

    /** `schedule(pairs)` up to the wait: without batching `tokenize_sync`
        then `infer_sync`; with batching a fresh request at the back of
        the queue. */
    method Schedule(pairs: seq<Pair>, now: real, services: Backend) returns (s: SrcScheduler.Scheduled)
      modifies this`queue
      ensures !batching ==> s == SrcScheduler.Answered(Infer(services, pairs)) && queue == old(queue)
      ensures batching ==> (s.Queued? && fresh(s.request) && s.request.pairs == pairs &&
        s.request.submitTime == now && s.request.result == None && s.request.error == None &&
        !s.request.signalled && queue == old(queue) + [s.request])
    {
      if !batching {
        return SrcScheduler.Answered(Infer(services, pairs));
      }
      var req := new PendingRequest(pairs, now);
      queue := queue + [req];
      return SrcScheduler.Queued(req);
    }

    /** The end of a caller's wait: a request whose event was not set in
        time fails with a timeout, a stored error is raised again, and a
        missing result is an error too. */
    function Await(req: PendingRequest): (r: Result<InferenceResult>)
      reads req
      ensures !req.signalled ==> r == Err(RuntimeError(TimedOutMessage))
      ensures req.signalled && req.error.Some? ==> r == Err(req.error.value)
      ensures req.signalled && req.error.None? && req.result.None? ==> r == Err(RuntimeError(NoneResultMessage))
      ensures r.Ok? <==> req.signalled && req.error.None? && req.result.Some?
      ensures r.Ok? ==> r.value == req.result.value
    {
      if !req.signalled then Err(RuntimeError(TimedOutMessage))
      else if req.error.Some? then Err(req.error.value)
      else if req.result.None? then Err(RuntimeError(NoneResultMessage))
      else Ok(req.result.value)
    }

    /** One round of `_batch_loop`'s collection. The first request is
        taken whenever the queue has one; then, while the batch is below
        `max_batch`, the service is not shutting down and the deadline
        allows another poll, the next one, stopping at an empty queue. */
    method TakeBatch(polls: nat) returns (batch: seq<PendingRequest>)
      modifies this`queue
      ensures batch + queue == old(queue)
      ensures old(queue) == [] ==> batch == []
      ensures old(queue) != [] ==> (|batch| ==
        1 + SrcScheduler.Min3(if shutdown || maxBatch <= 1 then 0 else maxBatch - 1, polls, |old(queue)| - 1))
      ensures |batch| <= if maxBatch < 1 then 1 else maxBatch
    {
      if queue == [] {
        return [];
      }
      batch := [queue[0]];
      queue := queue[1..];
      var round := 0;
      while |batch| < maxBatch && !shutdown && round < polls && queue != []
        invariant batch + queue == old(queue) && round <= polls && 1 <= |batch|
        invariant |batch| == 1 + SrcScheduler.Min3(if shutdown || maxBatch <= 1 then 0 else maxBatch - 1, round, |old(queue)| - 1)
        decreases polls - round
      {
        batch := batch + [queue[0]];
        queue := queue[1..];
        round := round + 1;
      }
    }

    /** `_process_batch(batch)` started at `batchStart`. The pairs of the
        requests are joined, sorted by length in length-aware mode, and
        scored in one call; request `i` then receives the slice of the
        scores at its offset with its own queue wait, and its event is set.
        If the call fails every request gets the error and its event. */
    method ProcessBatch(batch: seq<PendingRequest>, services: Backend, batchStart: real)
      requires Distinct(batch)
      modifies set i | 0 <= i < |batch| :: batch[i]
      ensures var groups := PairsOf(batch);
        var res := Infer(services, InferenceOrder(lengthAware, Concat(groups)));
        forall i :: 0 <= i < |batch| ==> (batch[i].signalled &&
          (res.Ok? ==> (batch[i].error == old(batch[i].error) &&
            batch[i].result == Some(EntryFor(res.value, groups, i, |Concat(groups)|,
              QueueWaitMs(batchStart, batch[i].submitTime))))) &&
          (res.Err? ==> batch[i].error == Some(res.error) && batch[i].result == old(batch[i].result)))
    {
      var all := GatherPairs(batch);
      if lengthAware {
        all := SortByLength(all);
      }
      var res := Infer(services, all);
      if res.Err? {
        FailAll(batch, res.error);
      } else {
        HandOut(batch, res.value, |all|, batchStart);
      }
    }

    /** The scatter loop of `_process_batch`. */
    method HandOut(batch: seq<PendingRequest>, res: InferenceResult, total: nat, batchStart: real)
      requires Distinct(batch)
      modifies set i | 0 <= i < |batch| :: batch[i]
      ensures forall i :: 0 <= i < |batch| ==>
        batch[i].signalled && batch[i].error == old(batch[i].error) &&
        batch[i].result == Some(EntryFor(res, PairsOf(batch), i, total, QueueWaitMs(batchStart, batch[i].submitTime)))
    {
      var groups := PairsOf(batch);
      var idx := 0;
      for i := 0 to |batch|
        invariant idx == Offset(groups, i)
        invariant forall k :: 0 <= k < |batch| ==> batch[k].error == old(batch[k].error)
        invariant forall k :: 0 <= k < i ==> (batch[k].signalled &&
          batch[k].result == Some(EntryFor(res, groups, k, total, QueueWaitMs(batchStart, batch[k].submitTime))))
      {
        var n := |batch[i].pairs|;
        var wait := (batchStart - batch[i].submitTime) * 1000.0;
        var entry := DefaultResult(PySlice(res.scores, idx, idx + n)).(
          tTokenizeMs := res.tTokenizeMs, tModelInferenceMs := res.tModelInferenceMs, tQueueWaitMs := wait,
          totalMs := res.totalMs, totalTokens := res.totalTokens, realTokens := res.realTokens,
          paddedTokens := res.paddedTokens, paddingRatio := res.paddingRatio,
          maxSeqLength := res.maxSeqLength, avgSeqLength := res.avgSeqLength,
          batchSize := total, workerId := res.workerId);
        assert entry == EntryFor(res, groups, i, total, QueueWaitMs(batchStart, batch[i].submitTime));
        batch[i].result := Some(entry);
        ConcatStep(groups, i);
        idx := idx + n;
        batch[i].signalled := true;
      }
    }

    /** `get_info()`. */
    function GetInfo(): (info: BatchingInfo)
      reads this
      ensures info.pending == |queue|
      ensures info == BatchingInfo(batching, maxBatch, timeoutMs, lengthAware, info.pending)
    {
      BatchingInfo(batching, maxBatch, timeoutMs, lengthAware, |queue|)
    }

    /** `stop()`: the batch thread is told to finish. */
    method Stop()
      modifies this`running, this`shutdown
      ensures !running && shutdown
    {
      running := false;
      shutdown := true;
    }
  }

  /** The failure path of `_process_batch`: every request gets the error
      and its event. */
  method FailAll(batch: seq<PendingRequest>, e: Error)
    requires Distinct(batch)
    modifies set i | 0 <= i < |batch| :: batch[i]
    ensures forall k :: 0 <= k < |batch| ==>
      batch[k].signalled && batch[k].error == Some(e) && batch[k].result == old(batch[k].result)
  {
    for i := 0 to |batch|
      invariant forall k :: 0 <= k < |batch| ==> batch[k].result == old(batch[k].result)
      invariant forall k :: 0 <= k < i ==> batch[k].signalled && batch[k].error == Some(e)
    {
      batch[i].error := Some(e);
      batch[i].signalled := true;
    }
  }

  /** A caller whose batch succeeded receives exactly its share of the
      scores, and, outside length-aware mode, the scores of its own
      pairs; a caller whose batch failed receives the batch's error. */
  lemma CallerOutcome(lengthAware: bool, batch: seq<PendingRequest>, services: Backend, batchStart: real,
                      i: nat, req: PendingRequest, r: Result<InferenceResult>)
    requires i < |batch| && req == batch[i] && req.signalled
    requires var groups := PairsOf(batch);
      var res := Infer(services, InferenceOrder(lengthAware, Concat(groups)));
      (res.Ok? ==> req.error == None && req.result == Some(EntryFor(res.value, groups, i, |Concat(groups)|,
        QueueWaitMs(batchStart, req.submitTime)))) &&
      (res.Err? ==> req.error == Some(res.error))
    requires r == (if req.error.Some? then Err(req.error.value)
      else if req.result.None? then Err(RuntimeError(NoneResultMessage)) else Ok(req.result.value))
    ensures services.failure.Some? ==> r == Err(services.failure.value)
    ensures services.failure.None? ==> (r.Ok? && |r.value.scores| == |req.pairs| &&
      r.value.tQueueWaitMs == QueueWaitMs(batchStart, req.submitTime) &&
      (!lengthAware ==> r.value.scores == ScoreAll(req.pairs, services.score)))
  {
    if services.failure.None? {
      var groups := PairsOf(batch);
      var res := Infer(services, InferenceOrder(lengthAware, Concat(groups)));
      ScatterPartitions(res.value.scores, groups);
      assert Scatter(res.value.scores, groups)[i] == r.value.scores;
      if !lengthAware {
        ScatterInOrder(groups, services.score);
      }
    }
  }
}
