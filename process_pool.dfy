/** The process-based model pool of the inference server
    (`ml_inference_server/server/process_pool.py`): one worker process per
    configured instance, a request-id counter, and a per-worker request
    count from which the dashboard's instance summary and history are
    built. The processes, their queues and the readiness wait are not
    modelled: whether each worker became ready, and which worker answered
    a request, are parameters. */
module ProcessPool {
  import opened Wrappers
  import opened SeqMath
  import opened Decimal
  import opened Text
  import opened PyDict
  import CC = CoreConfig
  import IM = InstanceMetrics

  /** `[0, 1, ..., n - 1]`, the worker ids of a pool of `n` workers. */
  function WorkerIds(n: nat): (r: seq<int>)
    ensures |r| == n && forall i :: 0 <= i < n ==> r[i] == i
  {
    seq(n, i requires 0 <= i < n => i)
  }

  /** `counts.get(i, 0)`. */
  function Get(counts: Dict<int, nat>, i: int): nat
  {
    if i in counts.entries then counts.entries[i] else 0
  }

  function SumNat(s: seq<nat>): nat
  {
    if s == [] then 0 else SumNat(s[..|s| - 1]) + s[|s| - 1]
  }

  /** `sum(counts.values())`. */
  function Total(counts: Dict<int, nat>): nat
    requires Wellformed(counts)
  {
    SumNat(Values(counts, (v: nat) => v))
  }

  /** The message of a worker that did not become ready in time;
      `timeoutText` is the timeout as Python prints it. */
  function NotReadyMessage(worker: nat, timeoutText: string): string
  {
    "Worker " + NatToString(worker) + " failed to start within " + timeoutText + "s"
  }

  const NotStartedMessage := "ModelPool not started. Call start() first."

  /** A worker's share of all requests in percent, 0 when there are none. */
  function RawUtil(count: nat, total: nat): (u: real)
    ensures total > 0 ==> u * total as real == count as real * 100.0
    ensures total == 0 ==> u == 0.0
    ensures count <= total ==> 0.0 <= u <= 100.0
  {
    if total > 0 then
      var u := count as real / total as real * 100.0;
      assert count <= total ==> u <= 100.0 by {
        if count <= total {
          UpperBoundDiv(1.0, count as real, total as real);
        }
      }
      assert u >= 0.0 by {
        LowerBoundDiv(0.0, count as real, total as real);
      }
      u
    else 0.0
  }

  /** The request counts of workers 0 to n - 1, absent ones read as 0. */
  function Counts(n: nat, counts: Dict<int, nat>): (r: seq<nat>)
    ensures |r| == n && forall i :: 0 <= i < n ==> r[i] == Get(counts, i)
  {
    seq(n, i requires 0 <= i < n => Get(counts, i))
  }

  /** The unrounded utilisations of a list of request counts. */
  function RawUtils(cs: seq<nat>, total: nat): (r: seq<real>)
    ensures |r| == |cs| && forall i :: 0 <= i < |cs| ==> r[i] == RawUtil(cs[i], total)
  {
    seq(|cs|, i requires 0 <= i < |cs| => RawUtil(cs[i], total))
  }

  /** The summary row of worker `i`: named after its backend and index,
      never busy and without latency, its shares rounded to two decimals. */
  function Row(i: nat, inst: CC.ModelInstanceConfig, count: nat, total: nat): IM.InstanceRow
  {
    var u := RawUtil(count, total);
    IM.InstanceRow(i, CC.BackendName(inst.backend) + "-" + NatToString(i), count, Rounded(u, 2),
      Rounded(100.0 - u, 2), false, 0.0)
  }

  /** The rows of all workers, in worker order. */
  function Rows(insts: seq<CC.ModelInstanceConfig>, counts: Dict<int, nat>): (r: seq<IM.InstanceRow>)
    requires Wellformed(counts)
    ensures |r| == |insts|
    ensures forall i :: 0 <= i < |insts| ==> r[i] == Row(i, insts[i], Get(counts, i), Total(counts))
  {
    seq(|insts|, i requires 0 <= i < |insts| => Row(i, insts[i], Get(counts, i), Total(counts)))
  }

  /** The reported (rounded) utilisations of a list of rows. */
  function RowUtils(rows: seq<IM.InstanceRow>): (r: seq<real>)
    ensures |r| == |rows| && forall i :: 0 <= i < |rows| ==> r[i] == rows[i].utilizationPct
  {
    seq(|rows|, i requires 0 <= i < |rows| => rows[i].utilizationPct)
  }

  /** The mean of the reported utilisations, 0 without rows. */
  function AvgUtil(rows: seq<IM.InstanceRow>): real
  {
    if |rows| > 0 then Mean(RowUtils(rows)) else 0.0
  }

  /** The loop of `get_instance_metrics_summary()` that builds the rows
      worker by worker. */
  method BuildRows(insts: seq<CC.ModelInstanceConfig>, counts: Dict<int, nat>, total: nat)
    returns (rows: seq<IM.InstanceRow>)
    requires Wellformed(counts) && total == Total(counts)
    ensures rows == Rows(insts, counts)
  {
    rows := [];
    for i := 0 to |insts|
      invariant |rows| == i
      invariant forall k :: 0 <= k < i ==> rows[k] == Row(k, insts[k], Get(counts, k), total)
    {
      var count := Get(counts, i);
      var u := RawUtil(count, total);
      rows := rows + [IM.InstanceRow(i, CC.BackendName(insts[i].backend) + "-" + NatToString(i),
        count, Rounded(u, 2), Rounded(100.0 - u, 2), false, 0.0)];
    }
  }

  /** `get_instance_metrics_summary()` as a value: one row per configured
      instance, the rounded mean utilisation and its complement, and the
      total over every count of the dictionary. */
  function PoolSummary(insts: seq<CC.ModelInstanceConfig>, counts: Dict<int, nat>): (s: IM.Summary)
    requires Wellformed(counts)
    ensures s.numInstances == |s.instances| == |insts|
    ensures s.instances == Rows(insts, counts)
    ensures s.totalRequests == Total(counts)
  {
    var rows := Rows(insts, counts);
    var avg := AvgUtil(rows);
    IM.Summary(|insts|, rows, Rounded(avg, 2), Rounded(100.0 - avg, 2), Total(counts))
  }

  /** `get_instance_metrics_history()` as a value. */
  function PoolHistory(n: nat, counts: Dict<int, nat>): (h: IM.Snapshot)
    ensures |h.utilizationPct| == |h.idlePct| == |h.requestCounts| == |h.isBusy| == n
    ensures forall i :: 0 <= i < n ==>
      h.requestCounts[i] == Get(counts, i) && h.utilizationPct[i] == 0.0 && h.idlePct[i] == 100.0 && !h.isBusy[i]
  {
    IM.Snapshot(seq(n, _ => 0.0), seq(n, _ => 100.0), Counts(n, counts), seq(n, _ => false))
  }

  lemma {:induction false} SumNatElement(s: seq<nat>, j: nat)
    requires j < |s|
    ensures s[j] <= SumNat(s)
  {
    if j < |s| - 1 {
      SumNatElement(s[..|s| - 1], j);
    }
  }

  /** A count kept in the dictionary is at most the total. */
  lemma CountAtMostTotal(counts: Dict<int, nat>, i: int)
    requires Wellformed(counts)
    ensures Get(counts, i) <= Total(counts)
  {
    if i in counts.entries {
      var j :| 0 <= j < |counts.order| && counts.order[j] == i;
      SumNatElement(Values(counts, (v: nat) => v), j);
    }
  }

  /** Every row's shares and the averages lie in [0, 100]; each row
      carries its worker's id and count. */
  lemma SummaryWithin(insts: seq<CC.ModelInstanceConfig>, counts: Dict<int, nat>)
    requires Wellformed(counts)
    ensures var s := PoolSummary(insts, counts);
      s.numInstances == |s.instances| == |insts| &&
      (forall i :: 0 <= i < |insts| ==>
        s.instances[i].id == i && s.instances[i].requestCount == Get(counts, i) &&
        0.0 <= s.instances[i].utilizationPct <= 100.0 && 0.0 <= s.instances[i].idlePct <= 100.0) &&
      0.0 <= s.avgUtilizationPct <= 100.0 && 0.0 <= s.avgIdlePct <= 100.0
    ensures insts == [] ==> PoolSummary(insts, counts).avgUtilizationPct == 0.0
  {
    var rows := Rows(insts, counts);
    var total := Total(counts);
    forall i | 0 <= i < |insts|
      ensures 0.0 <= rows[i].utilizationPct <= 100.0 && 0.0 <= rows[i].idlePct <= 100.0
    {
      CountAtMostTotal(counts, i);
      var u := RawUtil(Get(counts, i), total);
      RoundedAtMost(u, 100, 2);
      RoundedAtMost(100.0 - u, 100, 2);
    }
    var avg := AvgUtil(rows);
    if |rows| > 0 {
      MeanWithin(RowUtils(rows), 0.0, 100.0);
    }
    RoundedAtMost(avg, 100, 2);
    RoundedAtMost(100.0 - avg, 100, 2);
    assert Rounded(0.0, 2) == 0.0;
  }

  /** The counts as reals, in the same order. */
  function AsReals(cs: seq<nat>): (r: seq<real>)
    ensures |r| == |cs| && forall i :: 0 <= i < |cs| ==> r[i] == cs[i] as real
  {
    seq(|cs|, i requires 0 <= i < |cs| => cs[i] as real)
  }

  lemma {:induction false} SumOfReals(cs: seq<nat>)
    ensures Sum(AsReals(cs)) == SumNat(cs) as real
  {
    if cs != [] {
      var init := cs[..|cs| - 1];
      assert AsReals(cs)[..|cs| - 1] == AsReals(init);
      SumOfReals(init);
    }
  }

  /** With a positive total, a utilisation is its count times 100 over
      the total. */
  lemma RawUtilScaled(count: nat, total: nat)
    requires total > 0
    ensures RawUtil(count, total) == count as real * (100.0 / total as real)
  {
    var a, n := count as real, total as real;
    var q := 100.0 / n;
    assert q * n == 100.0;
    var u := RawUtil(count, total);
    assert u * n == a * 100.0;
    assert (a * q) * n == a * 100.0;
  }

  /** With a positive total, the utilisations are the counts scaled by
      100 over the total. */
  lemma RawUtilsScale(cs: seq<nat>, total: nat)
    requires total > 0
    ensures RawUtils(cs, total) == Scale(AsReals(cs), 100.0 / total as real)
  {
    var rs := AsReals(cs);
    var k := 100.0 / total as real;
    forall i | 0 <= i < |cs| ensures RawUtils(cs, total)[i] == Scale(rs, k)[i] {
      RawUtilScaled(cs[i], total);
    }
  }

  /** Once every worker holds a count and no other key does, the unrounded
      utilisations are the counts normalised by the total, so with at least
      one request they add up to exactly 100. */
  lemma UtilizationsSumTo100(n: nat, counts: Dict<int, nat>)
    requires Wellformed(counts) && counts.order == WorkerIds(n)
    requires Total(counts) > 0
    ensures Total(counts) == SumNat(Counts(n, counts))
    ensures Sum(RawUtils(Counts(n, counts), Total(counts))) == 100.0
  {
    var cs := Counts(n, counts);
    assert Values(counts, (v: nat) => v) == cs;
    RawUtilsScale(cs, Total(counts));
    SumOfReals(cs);
    NormalisedSumIs100(AsReals(cs));
  }

  /** The history and the summary report the same count for every worker,
      and the history lists one entry per worker in each list. */
  lemma HistoryMatchesSummary(insts: seq<CC.ModelInstanceConfig>, counts: Dict<int, nat>)
    requires Wellformed(counts)
    ensures var h := PoolHistory(|insts|, counts);
      |h.utilizationPct| == |h.idlePct| == |h.requestCounts| == |h.isBusy| == |insts| &&
      forall i :: 0 <= i < |insts| ==>
        h.requestCounts[i] == PoolSummary(insts, counts).instances[i].requestCount &&
        h.utilizationPct[i] == 0.0 && h.idlePct[i] == 100.0 && !h.isBusy[i]
  {
  }

  /** One instance of `get_pool_info()["instances"]`. */
  datatype WorkerInfo = WorkerInfo(workerId: nat, name: string, device: string, backend: string, requestCount: nat)

  /** `get_pool_info()`. */
  datatype PoolInfo = PoolInfo(
    numInstances: nat, routingStrategy: string, executionMode: string, isLoaded: bool,
    workerRequestCounts: map<int, nat>, instances: seq<WorkerInfo>)

  /** `ModelPool`. */
  class ModelPool {
    const config: CC.ModelPoolConfig
    const numWorkers: nat
    var isStarted: bool
    var nextReqId: nat
    var workerRequestCounts: Dict<int, nat>
    /** The request ids handed out so far, in order. */
    ghost var issued: seq<nat>

    /** The counts are either untouched or hold exactly the workers, in
        order, as `start` leaves them; a started pool has them all; the
        ids handed out are 0, 1, 2, ... */
    ghost predicate Valid()
      reads this
    {
      numWorkers == |config.instances| &&
      Wellformed(workerRequestCounts) &&
      (workerRequestCounts.order == [] || workerRequestCounts.order == WorkerIds(numWorkers)) &&
      (isStarted ==> workerRequestCounts.order == WorkerIds(numWorkers)) &&
      |issued| == nextReqId && (forall i :: 0 <= i < |issued| ==> issued[i] == i)
    }

    constructor (config: CC.ModelPoolConfig)
      ensures Valid()
      ensures this.config == config && numWorkers == |config.instances|
      ensures !isStarted && nextReqId == 0 && workerRequestCounts == Empty()
    {
      this.config := config;
      numWorkers := |config.instances|;
      isStarted := false;
      nextReqId := 0;
      workerRequestCounts := Empty();
      issued := [];
    }

    /** `start(timeout_s)`, where `ready[i]` tells whether worker `i`
        signalled readiness before the deadline. A started pool is left as
        it is. Otherwise every worker's count is set to 0; then the first
        worker that is not ready raises RuntimeError and the pool stays
        unstarted, else it is started. */
    method Start(ready: seq<bool>, timeoutText: string) returns (r: Result<()>)
      requires Valid() && |ready| == numWorkers
      modifies this`isStarted, this`workerRequestCounts
      ensures Valid()
      ensures nextReqId == old(nextReqId) && issued == old(issued)
      ensures old(isStarted) ==> r.Ok? && isStarted && workerRequestCounts == old(workerRequestCounts)
      ensures !old(isStarted) ==>
        workerRequestCounts.order == WorkerIds(numWorkers) &&
        (forall i :: 0 <= i < numWorkers ==> i in workerRequestCounts.entries && workerRequestCounts.entries[i] == 0)
      ensures !old(isStarted) ==> (r.Ok? <==> forall i :: 0 <= i < numWorkers ==> ready[i])
      ensures isStarted <==> old(isStarted) || r.Ok?
      ensures r.Err? ==>
        exists i :: (0 <= i < numWorkers && !ready[i] && (forall j :: 0 <= j < i ==> ready[j]) &&
          r.error == RuntimeError(NotReadyMessage(i, timeoutText)))
    {
      if isStarted {
        return Ok(());
      }
      workerRequestCounts := ZeroCounts(numWorkers, workerRequestCounts);
      var notReady := FirstNotReady(ready);
      if notReady.Some? {
        return Err(RuntimeError(NotReadyMessage(notReady.value, timeoutText)));
      }
      isStarted := true;
      r := Ok(());
    }

    /** The loop of `start` that sets `_worker_request_counts[i] = 0` for
        every worker `i`: new keys are appended in worker order, and a pool
        that already listed every worker keeps its order. */
    static method ZeroCounts(n: nat, counts: Dict<int, nat>) returns (c: Dict<int, nat>)
      requires Wellformed(counts) && (counts.order == [] || counts.order == WorkerIds(n))
      ensures Wellformed(c) && c.order == WorkerIds(n)
      ensures forall i :: 0 <= i < n ==> i in c.entries && c.entries[i] == 0
    {
      var wasEmpty := counts.order == [];
      c := counts;
      for i := 0 to n
        invariant Wellformed(c)
        invariant c.order == if wasEmpty then WorkerIds(i) else WorkerIds(n)
        invariant forall j :: 0 <= j < i ==> j in c.entries && c.entries[j] == 0
      {
        var c' := Put(c, i, 0);
        ZeroStep(n, i, wasEmpty, c, c');
        c := c';
      }
    }

    /** One step of that loop keeps its invariant. */
    static lemma ZeroStep(n: nat, i: nat, wasEmpty: bool, c: Dict<int, nat>, c': Dict<int, nat>)
      requires i < n && Wellformed(c) && c.order == (if wasEmpty then WorkerIds(i) else WorkerIds(n))
      requires forall j :: 0 <= j < i ==> j in c.entries && c.entries[j] == 0
      requires c' == Put(c, i, 0)
      ensures Wellformed(c') && c'.order == (if wasEmpty then WorkerIds(i + 1) else WorkerIds(n))
      ensures forall j :: 0 <= j <= i ==> j in c'.entries && c'.entries[j] == 0
    {
      if wasEmpty {
        assert i !in c.entries;
        assert WorkerIds(i) + [i] == WorkerIds(i + 1);
      } else {
        assert WorkerIds(n)[i] == i;
      }
    }

    /** The readiness wait of `start`: the first worker that did not
        become ready, if any. */
    static method FirstNotReady(ready: seq<bool>) returns (k: Option<nat>)
      ensures k.None? <==> forall i :: 0 <= i < |ready| ==> ready[i]
      ensures k.Some? ==> k.value < |ready| && !ready[k.value] && forall j :: 0 <= j < k.value ==> ready[j]
    {
      for i := 0 to |ready|
        invariant forall j :: 0 <= j < i ==> ready[j]
      {
        if !ready[i] {
          return Some(i);
        }
      }
      return None;
    }

    /** `stop()`: an unstarted pool is left as it is; a started one is
        stopped, keeping its counts and its request counter. */
    method Stop()
      requires Valid()
      modifies this`isStarted
      ensures Valid() && !isStarted
    {
      if !isStarted {
        return;
      }
      isStarted := false;
    }

    /** `infer(pairs)`, answered by worker `workerId`: before `start` a
        RuntimeError and nothing changes; otherwise the next request id is
        handed out and the answering worker's count goes up by one. */
    method Infer(workerId: int) returns (r: Result<nat>)
      requires Valid() && (isStarted ==> 0 <= workerId < numWorkers)
      modifies this`nextReqId, this`workerRequestCounts, this`issued
      ensures Valid()
      ensures !isStarted ==> (r == Err(RuntimeError(NotStartedMessage)) &&
        nextReqId == old(nextReqId) && workerRequestCounts == old(workerRequestCounts) && issued == old(issued))
      ensures isStarted ==> (r == Ok(old(nextReqId)) && nextReqId == old(nextReqId) + 1 &&
        issued == old(issued) + [r.value] &&
        workerRequestCounts.order == old(workerRequestCounts.order) &&
        workerRequestCounts.entries ==
          old(workerRequestCounts.entries)[workerId := Get(old(workerRequestCounts), workerId) + 1])
    {
      if !isStarted {
        return Err(RuntimeError(NotStartedMessage));
      }
      var reqId := nextReqId;
      nextReqId := nextReqId + 1;
      issued := issued + [reqId];
      assert WorkerIds(numWorkers)[workerId] == workerId;
      workerRequestCounts := Put(workerRequestCounts, workerId, Get(workerRequestCounts, workerId) + 1);
      r := Ok(reqId);
    }

    /** `get_pool_info()`: the configuration, the running state and a copy
        of the counts, with one entry per configured instance. */
    function GetPoolInfo(): (info: PoolInfo)
      reads this
      ensures info.numInstances == numWorkers && info.isLoaded == isStarted && info.executionMode == "process"
      ensures info.routingStrategy == CC.PoolRoutingName(config.routingStrategy)
      ensures info.workerRequestCounts == workerRequestCounts.entries
      ensures |info.instances| == |config.instances|
      ensures forall i :: 0 <= i < |config.instances| ==>
        info.instances[i] == WorkerInfo(i, config.instances[i].name, config.instances[i].device,
          CC.BackendName(config.instances[i].backend), Get(workerRequestCounts, i))
    {
      var insts, counts := config.instances, workerRequestCounts;
      PoolInfo(numWorkers, CC.PoolRoutingName(config.routingStrategy), "process", isStarted, counts.entries,
        seq(|insts|, i requires 0 <= i < |insts| =>
          WorkerInfo(i, insts[i].name, insts[i].device, CC.BackendName(insts[i].backend), Get(counts, i))))
    }

    /** `get_instance_metrics_summary()`: the rows are built worker by
        worker; the result is the pool summary of the counts. */
    method GetInstanceMetricsSummary() returns (s: IM.Summary)
      requires Valid()
      ensures s == PoolSummary(config.instances, workerRequestCounts)
    {
      var total := Total(workerRequestCounts);
      var rows := BuildRows(config.instances, workerRequestCounts, total);
      var avg := if |rows| > 0 then Sum(RowUtils(rows)) / |rows| as real else 0.0;
      assert avg == AvgUtil(rows);
      s := IM.Summary(numWorkers, rows, Rounded(avg, 2), Rounded(100.0 - avg, 2), total);
    }

    /** `get_instance_metrics_history()`. */
    function GetInstanceMetricsHistory(): (h: IM.Snapshot)
      reads this
      ensures h == PoolHistory(numWorkers, workerRequestCounts)
    {
      PoolHistory(numWorkers, workerRequestCounts)
    }
  }
}
