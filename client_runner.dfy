/** The benchmark client's request plan (`src/client/runner.py`): which
    pairs each request carries, the list of batches of a fixed-count run,
    the indices the workers of a timed run walk through, and the result
    dictionary of a run. Sending the requests, the clock, the semaphore
    and the progress bar are not modelled: how many requests completed
    and how long they took are parameters. */
module ClientRunner {
  import opened Wrappers
  import opened SeqMath

  /** Where request `index` starts in the pairs: `(index * batch_size) %
      len(pairs)`. */
  function StartOf(n: nat, batchSize: nat, index: nat): (r: nat)
    requires n > 0
    ensures r < n
  {
    (index * batchSize) % n
  }

  /** `_create_batch(pairs, batch_size, index)`: `batch_size` pairs from
      the start, wrapping around to the front of the list once; no pairs
      at all is a division by zero. */
  function CreateBatch<T>(pairs: seq<T>, batchSize: nat, index: nat): (r: Result<seq<T>>)
    ensures pairs == [] <==> r == Err(ZeroDivisionError)
    ensures r.Ok? ==> |r.value| <= batchSize
  {
    if pairs == [] then Err(ZeroDivisionError)
    else Ok(Window(pairs, StartOf(|pairs|, batchSize, index), batchSize))
  }

  /** The slice `pairs[start:start + batch_size]`, topped up from the
      front of the list when it comes out short. */
  function Window<T>(pairs: seq<T>, start: nat, batchSize: nat): (r: seq<T>)
    ensures |r| <= batchSize
  {
    var batch := PySlice(pairs, start, start + batchSize);
    if |batch| < batchSize then batch + PySlice(pairs, 0, batchSize - |batch|) else batch
  }

  /** A window holds `batch_size` pairs unless that is more than the list
      holds from the start to its end and then once more from the front;
      pair `j` of the window is the pair `j` places after the start, going
      round the list. */
  lemma WindowWraps<T>(pairs: seq<T>, start: nat, batchSize: nat)
    requires start < |pairs|
    ensures var n, b := |pairs|, Window(pairs, start, batchSize);
      |b| == (if batchSize <= 2 * n - start then batchSize else 2 * n - start) &&
      forall j :: 0 <= j < |b| ==> b[j] == pairs[(start + j) % n]
  {
    var n, b := |pairs|, Window(pairs, start, batchSize);
    var first := PySlice(pairs, start, start + batchSize);
    if start + batchSize <= n {
      assert first == pairs[start..start + batchSize];
      forall j | 0 <= j < |b|
        ensures b[j] == pairs[(start + j) % n]
      {
        ModUnique(start + j, n, 0, start + j);
      }
    } else {
      assert first == pairs[start..];
      var rest := PySlice(pairs, 0, batchSize - |first|);
      assert b == first + rest;
      forall j | 0 <= j < |b|
        ensures b[j] == pairs[(start + j) % n]
      {
        if j < |first| {
          ModUnique(start + j, n, 0, start + j);
        } else {
          ModUnique(start + j, n, 1, start + j - n);
        }
      }
    }
  }

  /** A request's batch is the window at its start. */
  lemma BatchWraps<T>(pairs: seq<T>, batchSize: nat, index: nat)
    requires pairs != []
    ensures var n, start := |pairs|, StartOf(|pairs|, batchSize, index);
      var b := CreateBatch(pairs, batchSize, index).value;
      |b| == (if batchSize <= 2 * n - start then batchSize else 2 * n - start) &&
      forall j :: 0 <= j < |b| ==> b[j] == pairs[(start + j) % n]
  {
    WindowWraps(pairs, StartOf(|pairs|, batchSize, index), batchSize);
  }

  /** `a * n >= n` for a positive factor `a`. */
  lemma MulAtLeast(a: int, n: int)
    requires a >= 1 && n > 0
    ensures a * n >= n
  {
    var b := a - 1;
    assert a * n == b * n + n;
    assert b * n >= 0;
  }

  /** Quotient and remainder are unique: `x == q * n + r` with `0 <= r < n`
      makes `r` the remainder and `q` the quotient. */
  lemma ModUnique(x: int, n: int, q: int, r: int)
    requires n > 0 && 0 <= r < n && x == q * n + r
    ensures x % n == r && x / n == q
  {
    var q0, r0 := x / n, x % n;
    assert x == q0 * n + r0;
    var d := q - q0;
    assert d * n == q * n - q0 * n;
    if d >= 1 {
      MulAtLeast(d, n);
    } else if d <= -1 {
      MulAtLeast(-d, n);
    }
  }

  /** The batch of a request holds `batch_size` pairs when that many fit
      in the list. */
  lemma BatchLength<T>(pairs: seq<T>, batchSize: nat, index: nat)
    requires pairs != [] && batchSize <= |pairs|
    ensures |CreateBatch(pairs, batchSize, index).value| == batchSize
  {
    BatchWraps(pairs, batchSize, index);
  }

  /** When a batch fits in the list, the batches of successive requests
      take the pairs in turn: pair `j` of request `index` is pair
      `index * batch_size + j` of the list repeated without end. */
  lemma BatchesCycle<T>(pairs: seq<T>, batchSize: nat, index: nat, j: nat)
    requires pairs != [] && batchSize <= |pairs| && j < batchSize
    ensures |CreateBatch(pairs, batchSize, index).value| == batchSize
    ensures CreateBatch(pairs, batchSize, index).value[j] == pairs[(index * batchSize + j) % |pairs|]
  {
    var n, a := |pairs|, index * batchSize;
    assert CreateBatch(pairs, batchSize, index) == Ok(Window(pairs, a % n, batchSize));
    WindowCycle(pairs, a, batchSize, j);
  }

  /** The window at `a % n` takes pair `j` from `a + j` places round the list. */
  lemma WindowCycle<T>(pairs: seq<T>, a: nat, batchSize: nat, j: nat)
    requires pairs != [] && batchSize <= |pairs| && j < batchSize
    ensures |Window(pairs, a % |pairs|, batchSize)| == batchSize
    ensures Window(pairs, a % |pairs|, batchSize)[j] == pairs[(a + j) % |pairs|]
  {
    var n := |pairs|;
    var start := a % n;
    WindowWraps(pairs, start, batchSize);
    assert batchSize <= 2 * n - start;
    ModAdd(a, j, n);
  }

  /** Adding to a remainder: `(a % n + j) % n == (a + j) % n`. */
  lemma ModAdd(a: nat, j: nat, n: nat)
    requires n > 0
    ensures (a % n + j) % n == (a + j) % n
  {
    var q, r := a / n, a % n;
    var s := r + j;
    var q2, r2 := s / n, s % n;
    assert (q + q2) * n == q * n + q2 * n;
    ModUnique(a + j, n, q + q2, r2);
  }

  /** `_prepare_batches(pairs, batch_size, num_requests)`: one batch per
      request, in order. */
  method PrepareBatches<T>(pairs: seq<T>, batchSize: nat, numRequests: int) returns (r: Result<seq<seq<T>>>)
    ensures numRequests <= 0 ==> r == Ok([])
    ensures numRequests > 0 && pairs == [] ==> r == Err(ZeroDivisionError)
    ensures pairs != [] ==> r.Ok? && |r.value| == (if numRequests > 0 then numRequests else 0)
    ensures r.Ok? ==> forall i :: 0 <= i < |r.value| ==> CreateBatch(pairs, batchSize, i) == Ok(r.value[i])
  {
    var batches := [];
    var i := 0;
    while i < numRequests
      invariant 0 <= i && (numRequests > 0 ==> i <= numRequests)
      invariant numRequests <= 0 || pairs == [] ==> i == 0
      invariant |batches| == i
      invariant forall k :: 0 <= k < i ==> CreateBatch(pairs, batchSize, k) == Ok(batches[k])
    {
      var batch := CreateBatch(pairs, batchSize, i);
      if batch.Err? {
        return Err(batch.error);
      }
      batches := batches + [batch.value];
      i := i + 1;
    }
    return Ok(batches);
  }

  /** The indices a timed-run worker takes: `worker_id`, then steps of
      `concurrency`, for as many requests as it manages to send before
      the time is up or the run is interrupted. */
  method WorkerIndices(workerId: nat, concurrency: nat, sent: nat) returns (indices: seq<nat>)
    ensures |indices| == sent
    ensures forall k :: 0 <= k < sent ==> indices[k] == workerId + k * concurrency
  {
    indices := [];
    var index := workerId;
    while |indices| < sent
      invariant |indices| <= sent
      invariant index == workerId + |indices| * concurrency
      invariant forall k :: 0 <= k < |indices| ==> indices[k] == workerId + k * concurrency
    {
      indices := indices + [index];
      index := index + concurrency;
    }
  }

  /** The workers of a timed run split the request indices between them:
      no two steps of the workers take the same index, and every index is
      taken by worker `index % concurrency` at step `index / concurrency`. */
  lemma WorkersPartition(concurrency: nat, w1: nat, k1: nat, w2: nat, k2: nat, index: nat)
    requires w1 < concurrency && w2 < concurrency
    ensures w1 + k1 * concurrency == w2 + k2 * concurrency ==> w1 == w2 && k1 == k2
    ensures index % concurrency + (index / concurrency) * concurrency == index
  {
    if w1 + k1 * concurrency == w2 + k2 * concurrency {
      ModUnique(w1 + k1 * concurrency, concurrency, k1, w1);
      ModUnique(w1 + k1 * concurrency, concurrency, k2, w2);
    }
  }

  /** The dictionary a run returns. */
  datatype RunResult =
    | NoneCompleted
    | Completed(batchSize: nat, concurrency: nat, numRequests: nat, totalPairs: nat, totalTimeS: real,
                interrupted: bool, benchmarkDurationS: Option<real>)

  /** The keys of a result dictionary: a run without a completed request
      reports `{"error": "No requests completed", "interrupted": True}`. */
  function ErrorMessage(r: RunResult): (m: Option<string>)
    ensures r.NoneCompleted? <==> m == Some("No requests completed")
  {
    if r.NoneCompleted? then Some("No requests completed") else None
  }

  function Interrupted(r: RunResult): bool
  {
    match r
    case NoneCompleted => true
    case Completed(_, _, _, _, _, interrupted, _) => interrupted
  }

  /** The result of a run in which `completed` requests of `batch_size`
      pairs finished in `elapsed` seconds; a timed run also reports its
      duration. */
  function Result(batchSize: nat, concurrency: nat, completed: nat, elapsed: real, interrupted: bool,
                  duration: Option<real>): (r: RunResult)
    ensures completed == 0 <==> r.NoneCompleted?
    ensures completed == 0 ==> Interrupted(r)
    ensures r.Completed? ==> r.numRequests == completed && r.totalPairs == completed * batchSize
  {
    if completed == 0 then NoneCompleted
    else Completed(batchSize, concurrency, completed, completed * batchSize, elapsed, interrupted, duration)
  }

  /** The number of pairs the requests `done` carried. */
  function Carried<T>(pairs: seq<T>, batchSize: nat, done: seq<nat>): nat
    requires pairs != []
  {
    if done == [] then 0
    else Carried(pairs, batchSize, done[..|done| - 1]) + |CreateBatch(pairs, batchSize, done[|done| - 1]).value|
  }

  /** The pair count of a result is the number of pairs the completed
      requests carried, whichever requests they were, when a batch fits
      in the list of pairs. */
  lemma {:induction false} TotalPairsCarried<T>(pairs: seq<T>, batchSize: nat, done: seq<nat>)
    requires pairs != [] && batchSize <= |pairs|
    ensures Carried(pairs, batchSize, done) == |done| * batchSize
  {
    if done != [] {
      TotalPairsCarried(pairs, batchSize, done[..|done| - 1]);
      BatchLength(pairs, batchSize, done[|done| - 1]);
      assert |done| * batchSize == (|done| - 1) * batchSize + batchSize;
    }
  }

  /** What `run` does: the warm-up requests first when asked for, then a
      timed run when a positive duration is given, else the fixed count. */
  datatype Phase = Fixed(requests: int, stage: string) | Timed(seconds: real)

  function Phases(numRequests: int, duration: Option<real>, prefill: int): (ps: seq<Phase>)
    ensures |ps| == (if prefill > 0 then 2 else 1)
    ensures prefill > 0 ==> ps[0] == Fixed(prefill, "Warmup")
    ensures ps[|ps| - 1] == (if duration.Some? && duration.value > 0.0 then Timed(duration.value) else Fixed(numRequests, "Benchmark"))
  {
    var main := if duration.Some? && duration.value > 0.0 then Timed(duration.value) else Fixed(numRequests, "Benchmark");
    if prefill > 0 then [Fixed(prefill, "Warmup"), main] else [main]
  }
}
