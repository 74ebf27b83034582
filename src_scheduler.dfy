/** The server's request scheduler (`src/server/scheduler.py`). Without
    batching a request goes straight to the model pool. With batching the
    request is queued; a batch thread takes up to `max_batch` queued
    requests, scores all their pairs in one call and hands each request its
    slice of the scores.

    The batch thread's loop, the lock and the event a caller waits on are
    not modelled: `TakeBatch` and `ProcessBatch` are one round of that
    thread, and a caller's wait ends with `Collect`. The deadline of a
    round is the number of polls it allows (`polls`). */
module SrcScheduler {
  import opened Wrappers
  import opened SeqMath
  import opened ServerDto
  import opened BatchScatter

  /** What `schedule` does with a request: answered at once, or queued
      for the batch thread. */
  datatype Scheduled = Answered(result: Result<InferenceResult>) | Queued(request: PendingRequest)

  /** The result request `i` of a batch receives: its slice of the scores,
      the batch's stage timings and total, and its own pair count as
      `batch_size`. */
  function EntryFor(res: InferenceResult, groups: seq<seq<Pair>>, i: nat): (r: InferenceResult)
    requires i < |groups|
    ensures r.scores == PySlice(res.scores, Offset(groups, i), Offset(groups, i) + |groups[i]|)
    ensures r.batchSize == |groups[i]| && r.totalMs == res.totalMs
    ensures r.tTokenizeMs == res.tTokenizeMs && r.tModelInferenceMs == res.tModelInferenceMs
    ensures r.tQueueWaitMs == 0.0 && r.workerId == -1
  {
    var o := Offset(groups, i);
    DefaultResult(PySlice(res.scores, o, o + |groups[i]|)).(
      tTokenizeMs := res.tTokenizeMs, tModelInferenceMs := res.tModelInferenceMs,
      totalMs := res.totalMs, batchSize := |groups[i]|)
  }

  /** `Scheduler`. */
  class Scheduler {
    const batching: bool
    const maxBatch: int
    const timeoutMs: real
    const lengthAware: bool
    var queue: seq<PendingRequest>
    var running: bool

    /** `Scheduler(model_pool, ...)`: an empty queue; with batching the
        batch thread is marked running. */
    constructor (batching: bool, maxBatch: int, timeoutMs: real, lengthAware: bool)
      ensures this.batching == batching && this.maxBatch == maxBatch
      ensures this.timeoutMs == timeoutMs && this.lengthAware == lengthAware
      ensures queue == [] && running == batching
    {
      this.batching := batching;
      this.maxBatch := maxBatch;
      this.timeoutMs := timeoutMs;
      this.lengthAware := lengthAware;
      queue := [];
      running := batching;
    }

    /** `schedule(pairs)` up to the wait: without batching the pool's
        answer for the pairs; with batching a fresh request at the back of
        the queue. */
    method Schedule(pairs: seq<Pair>, now: real, pool: Backend) returns (s: Scheduled)
      modifies this`queue
      ensures !batching ==> s == Answered(Infer(pool, pairs)) && queue == old(queue)
      ensures batching ==> (s.Queued? && fresh(s.request) && s.request.pairs == pairs &&
        s.request.submitTime == now && s.request.result == None && !s.request.signalled &&
        queue == old(queue) + [s.request])
    {
      if !batching {
        return Answered(Infer(pool, pairs));
      }
      var req := new PendingRequest(pairs, now);
      queue := queue + [req];
      return Queued(req);
    }

    /** What `schedule` returns once the request's event is set: the
        result, which is None when the batch failed. */
    function Collect(req: PendingRequest): (r: Option<InferenceResult>)
      reads req
      ensures r == req.result
    {
      req.result
    }

    /** One round of `_batch_loop`'s collection: while the batch is below
        `max_batch` and the deadline allows another poll, the front of the
        queue is moved into the batch. */
    method TakeBatch(polls: nat) returns (batch: seq<PendingRequest>)
      modifies this`queue
      ensures batch + queue == old(queue)
      ensures |batch| == Min3(if maxBatch < 0 then 0 else maxBatch, polls, |old(queue)|)
      ensures |batch| <= maxBatch || batch == []
    {
      batch := [];
      var round := 0;
      while |batch| < maxBatch && round < polls
        invariant batch + queue == old(queue) && round <= polls
        invariant |batch| == Min3(if maxBatch < 0 then 0 else maxBatch, round, |old(queue)|)
        decreases polls - round
      {
        if queue != [] {
          batch := batch + [queue[0]];
          queue := queue[1..];
        }
        round := round + 1;
      }
    }

    /** `_process_batch(batch)` with `pool` the model pool. The pairs of the
        requests are joined, sorted by length in length-aware mode, and
        scored in one call; request `i` then receives the slice of the
        scores at its offset and its event is set. If the call fails every
        event is set and no result is stored. */
    method ProcessBatch(batch: seq<PendingRequest>, pool: Backend)
      requires Distinct(batch)
      modifies set i | 0 <= i < |batch| :: batch[i]
      ensures var groups := PairsOf(batch);
        var res := Infer(pool, InferenceOrder(lengthAware, Concat(groups)));
        forall i :: 0 <= i < |batch| ==>
          batch[i].signalled && batch[i].error == old(batch[i].error) &&
          batch[i].result == (if res.Ok? then Some(EntryFor(res.value, groups, i)) else old(batch[i].result))
    {
      var all := GatherPairs(batch);
      if lengthAware {
        all := SortByLength(all);
      }
      var res := Infer(pool, all);
      if res.Err? {
        SignalAll(batch);
      } else {
        HandOut(batch, res.value);
      }
    }

    /** The scatter loop of `_process_batch`: `idx` runs over the offsets,
        and request `i` gets `EntryFor(res, groups, i)`. */
    method HandOut(batch: seq<PendingRequest>, res: InferenceResult)
      requires Distinct(batch)
      modifies set i | 0 <= i < |batch| :: batch[i]
      ensures forall i :: 0 <= i < |batch| ==>
        batch[i].signalled && batch[i].error == old(batch[i].error) &&
        batch[i].result == Some(EntryFor(res, PairsOf(batch), i))
    {
      var groups := PairsOf(batch);
      var idx := 0;
      for i := 0 to |batch|
        invariant idx == Offset(groups, i)
        invariant forall k :: 0 <= k < |batch| ==> batch[k].error == old(batch[k].error)
        invariant forall k :: 0 <= k < i ==> batch[k].result == Some(EntryFor(res, groups, k)) && batch[k].signalled
      {
        var n := |batch[i].pairs|;
        var entry := DefaultResult(PySlice(res.scores, idx, idx + n)).(
          tTokenizeMs := res.tTokenizeMs, tModelInferenceMs := res.tModelInferenceMs,
          totalMs := res.totalMs, batchSize := n);
        assert entry == EntryFor(res, groups, i);
        batch[i].result := Some(entry);
        ConcatStep(groups, i);
        idx := idx + n;
        batch[i].signalled := true;
      }
    }

    /** `get_info()`: the configuration and the number of queued requests. */
    function GetInfo(): (info: BatchingInfo)
      reads this
      ensures info.pending == |queue|
      ensures info == BatchingInfo(batching, maxBatch, timeoutMs, lengthAware, info.pending)
    {
      BatchingInfo(batching, maxBatch, timeoutMs, lengthAware, |queue|)
    }

    /** `stop()`: the batch thread's loop condition turns false. */
    method Stop()
      modifies this`running
      ensures !running
    {
      running := false;
    }
  }

  /** The failure path of `_process_batch`: every request's event is set,
      nothing else changes. */
  method SignalAll(batch: seq<PendingRequest>)
    requires Distinct(batch)
    modifies set i | 0 <= i < |batch| :: batch[i]
    ensures forall k :: 0 <= k < |batch| ==>
      batch[k].signalled && batch[k].result == old(batch[k].result) && batch[k].error == old(batch[k].error)
  {
    for i := 0 to |batch|
      invariant forall k :: 0 <= k < |batch| ==>
        batch[k].result == old(batch[k].result) && batch[k].error == old(batch[k].error)
      invariant forall k :: 0 <= k < i ==> batch[k].signalled
    {
      batch[i].signalled := true;
    }
  }

  /** The smallest of three counts. */
  function Min3(a: nat, b: nat, c: nat): (m: nat)
    ensures m <= a && m <= b && m <= c && (m == a || m == b || m == c)
  {
    if a <= b && a <= c then a else if b <= c then b else c
  }

  /** A batch the thread hands out gives each request as many scores as it
      has pairs, and, outside length-aware mode, the scores of its own
      pairs. */
  lemma BatchEntries(lengthAware: bool, batch: seq<PendingRequest>, pool: Backend, i: nat)
    requires i < |batch| && pool.failure.None?
    ensures var groups := PairsOf(batch);
      var res := Infer(pool, InferenceOrder(lengthAware, Concat(groups)));
      |EntryFor(res.value, groups, i).scores| == |batch[i].pairs| &&
      (!lengthAware ==> EntryFor(res.value, groups, i).scores == ScoreAll(batch[i].pairs, pool.score))
  {
    var groups := PairsOf(batch);
    var res := Infer(pool, InferenceOrder(lengthAware, Concat(groups)));
    ScatterPartitions(res.value.scores, groups);
    assert Scatter(res.value.scores, groups)[i] == EntryFor(res.value, groups, i).scores;
    if !lengthAware {
      ScatterInOrder(groups, pool.score);
    }
  }
}
