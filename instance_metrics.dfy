/** Per-instance utilisation of the model pool
    (`ml_inference_server/metrics/components/instance_metrics.py`): each
    registered instance accumulates busy time between `mark_busy` and
    `mark_idle`, counts requests and keeps its last 100 positive latencies;
    statistics relate busy time to the time since the tracker started. The
    clock is the `now` parameter and the lock is not modelled. */
module InstanceMetrics {
  import opened Wrappers
  import opened SeqMath
  import opened Decimal
  import opened Text
  import opened IntSets
  import opened PyDict

  /** At most this many latencies are kept per instance. */
  const KeepLatencies: nat := 100

  /** The per-instance dictionary of the tracker. */
  datatype Instance = Instance(
    name: string, requestCount: nat, totalBusyTimeS: real, busyStartTime: Option<real>,
    isBusy: bool, latenciesMs: seq<real>, lastRequestTime: real)

  /** A freshly registered instance. */
  function Registered(name: string): (i: Instance)
    ensures i.requestCount == 0 && !i.isBusy && i.busyStartTime == None && i.latenciesMs == []
  {
    Instance(name, 0, 0.0, None, false, [], 0.0)
  }

  /** The name an instance is registered under: the given one, or
      `instance-<id>` when it is empty. */
  function InstanceName(id: int, name: string): (n: string)
    ensures name != [] ==> n == name
    ensures name == [] ==> n == "instance-" + IntToString(id)
  {
    if name != [] then name else "instance-" + IntToString(id)
  }

  /** Busy exactly while a busy start is recorded; at most 100 latencies,
      all positive. */
  ghost predicate InstanceValid(i: Instance)
  {
    (i.isBusy <==> i.busyStartTime.Some?) &&
    |i.latenciesMs| <= KeepLatencies &&
    (forall k :: 0 <= k < |i.latenciesMs| ==> i.latenciesMs[k] > 0.0)
  }

  /** `InstanceStats`. */
  datatype InstanceStats = InstanceStats(
    instanceId: int, instanceName: string, requestCount: nat, totalBusyTimeS: real,
    totalIdleTimeS: real, utilizationPct: real, idlePct: real, isBusy: bool,
    lastRequestTime: real, avgRequestLatencyMs: real)

  /** The stats reported for an id that was never registered. */
  function UnknownStats(id: int): InstanceStats
  {
    InstanceStats(id, "unknown", 0, 0.0, 0.0, 0.0, 100.0, false, 0.0, 0.0)
  }

  /** Busy time as a percentage of the elapsed time; 0 when no time has
      passed. */
  function Utilization(busy: real, elapsed: real): (u: real)
    ensures elapsed <= 0.0 ==> u == 0.0
    ensures elapsed > 0.0 ==> u * elapsed == busy * 100.0
    ensures elapsed > 0.0 && 0.0 <= busy <= elapsed ==> 0.0 <= u <= 100.0
  {
    if elapsed > 0.0 then
      var u := busy / elapsed * 100.0;
      assert u * elapsed == busy * 100.0;
      FractionAtMostOne(busy, elapsed);
      u
    else 0.0
  }

  lemma FractionAtMostOne(part: real, whole: real)
    ensures whole > 0.0 && 0.0 <= part <= whole ==> 0.0 <= part / whole <= 1.0
  {
    if whole > 0.0 && 0.0 <= part <= whole {
      UpperBoundDiv(1.0, part, whole);
      LowerBoundDiv(0.0, part, whole);
    }
  }

  /** The busy time so far: the accumulated time plus, while busy, the
      time since the busy start. A busy start of exactly 0 counts as
      absent, as Python's truth test on it does. */
  function BusySoFar(i: Instance, now: real): real
  {
    if i.isBusy && i.busyStartTime.Some? && i.busyStartTime.value != 0.0 then
      i.totalBusyTimeS + (now - i.busyStartTime.value)
    else i.totalBusyTimeS
  }

  /** `_compute_stats(id)`: utilisation and idle share rounded to two
      decimals, computed so that before rounding they add up to 100. */
  function StatsOf(id: int, i: Instance, elapsed: real, now: real): (s: InstanceStats)
    ensures s.instanceId == id && s.instanceName == i.name && s.requestCount == i.requestCount
    ensures s.isBusy == i.isBusy && s.totalBusyTimeS == BusySoFar(i, now)
    ensures s.totalBusyTimeS + s.totalIdleTimeS == elapsed
    ensures s.utilizationPct == Rounded(Utilization(BusySoFar(i, now), elapsed), 2)
    ensures s.idlePct == Rounded(100.0 - Utilization(BusySoFar(i, now), elapsed), 2)
    ensures i.latenciesMs == [] ==> s.avgRequestLatencyMs == 0.0
    ensures i.latenciesMs != [] ==> s.avgRequestLatencyMs == Rounded(Mean(i.latenciesMs), 2)
  {
    var busy := BusySoFar(i, now);
    var u := Utilization(busy, elapsed);
    var avg := if i.latenciesMs != [] then Sum(i.latenciesMs) / |i.latenciesMs| as real else 0.0;
    InstanceStats(id, i.name, i.requestCount, busy, elapsed - busy, Rounded(u, 2), Rounded(100.0 - u, 2),
      i.isBusy, i.lastRequestTime, Rounded(avg, 2))
  }

  /** While the busy time lies within the elapsed time, the reported
      utilisation and idle share both lie in [0, 100]; the average latency
      of a valid instance is never negative. */
  lemma StatsWithin(id: int, i: Instance, elapsed: real, now: real)
    requires InstanceValid(i)
    requires 0.0 <= BusySoFar(i, now) <= elapsed
    ensures 0.0 <= StatsOf(id, i, elapsed, now).utilizationPct <= 100.0
    ensures 0.0 <= StatsOf(id, i, elapsed, now).idlePct <= 100.0
    ensures StatsOf(id, i, elapsed, now).avgRequestLatencyMs >= 0.0
  {
    var u := Utilization(BusySoFar(i, now), elapsed);
    assert 0.0 <= u <= 100.0;
    RoundedAtMost(u, 100, 2);
    RoundedAtMost(100.0 - u, 100, 2);
    if i.latenciesMs != [] {
      MeanNonNegative(i.latenciesMs);
    }
  }

  /** One row of `get_summary()["instances"]`. */
  datatype InstanceRow = InstanceRow(
    id: int, name: string, requestCount: nat, utilizationPct: real, idlePct: real, isBusy: bool,
    avgLatencyMs: real)

  /** `get_summary()`. */
  datatype Summary = Summary(
    numInstances: nat, instances: seq<InstanceRow>, avgUtilizationPct: real, avgIdlePct: real,
    totalRequests: nat)

  /** `get_history_snapshot()`: four parallel lists. */
  datatype Snapshot = Snapshot(
    utilizationPct: seq<real>, idlePct: seq<real>, requestCounts: seq<nat>, isBusy: seq<bool>)

  function Row(s: InstanceStats): InstanceRow
  {
    InstanceRow(s.instanceId, s.instanceName, s.requestCount, s.utilizationPct, s.idlePct, s.isBusy,
      s.avgRequestLatencyMs)
  }

  function TotalRequests(stats: seq<InstanceStats>): (t: nat)
  {
    if stats == [] then 0 else TotalRequests(stats[..|stats| - 1]) + stats[|stats| - 1].requestCount
  }

  function Utilizations(stats: seq<InstanceStats>): (r: seq<real>)
    ensures |r| == |stats| && forall k :: 0 <= k < |stats| ==> r[k] == stats[k].utilizationPct
  {
    seq(|stats|, k requires 0 <= k < |stats| => stats[k].utilizationPct)
  }

  /** The summary of a list of stats: with none, 0 instances, 0
      utilisation, 100 idle and 0 requests; otherwise the mean of the
      reported (rounded) utilisations and its complement to 100, both
      rounded to two decimals. */
  function SummaryOf(stats: seq<InstanceStats>): (r: Summary)
    ensures stats == [] ==> r == Summary(0, [], 0.0, 100.0, 0)
    ensures r.numInstances == |stats| && |r.instances| == |stats|
    ensures forall k :: 0 <= k < |stats| ==> r.instances[k] == Row(stats[k])
    ensures r.totalRequests == TotalRequests(stats)
    ensures stats != [] ==> (r.avgUtilizationPct == Rounded(Mean(Utilizations(stats)), 2) &&
      r.avgIdlePct == Rounded(100.0 - Mean(Utilizations(stats)), 2))
  {
    if stats == [] then Summary(0, [], 0.0, 100.0, 0)
    else
      var avg := Mean(Utilizations(stats));
      Summary(|stats|, seq(|stats|, k requires 0 <= k < |stats| => Row(stats[k])), Rounded(avg, 2),
        Rounded(100.0 - avg, 2), TotalRequests(stats))
  }

  /** When every instance reports a utilisation in [0, 100], so does the
      summary, and its idle share too. */
  lemma SummaryWithin(stats: seq<InstanceStats>)
    requires forall k :: 0 <= k < |stats| ==> 0.0 <= stats[k].utilizationPct <= 100.0
    ensures 0.0 <= SummaryOf(stats).avgUtilizationPct <= 100.0
    ensures 0.0 <= SummaryOf(stats).avgIdlePct <= 100.0
  {
    if stats != [] {
      var u := Utilizations(stats);
      MeanWithin(u, 0.0, 100.0);
      RoundedAtMost(Mean(u), 100, 2);
      RoundedAtMost(100.0 - Mean(u), 100, 2);
    }
  }

  /** The history snapshot of a list of stats: one entry per instance in
      each of the four lists, in the same order. */
  function SnapshotOf(stats: seq<InstanceStats>): (r: Snapshot)
    ensures |r.utilizationPct| == |r.idlePct| == |r.requestCounts| == |r.isBusy| == |stats|
    ensures forall k :: 0 <= k < |stats| ==>
      r.utilizationPct[k] == stats[k].utilizationPct && r.idlePct[k] == stats[k].idlePct &&
      r.requestCounts[k] == stats[k].requestCount && r.isBusy[k] == stats[k].isBusy
  {
    Snapshot(Utilizations(stats), seq(|stats|, k requires 0 <= k < |stats| => stats[k].idlePct),
      seq(|stats|, k requires 0 <= k < |stats| => stats[k].requestCount),
      seq(|stats|, k requires 0 <= k < |stats| => stats[k].isBusy))
  }

  /** The instance ids of a list of stats, in order. */
  function Ids(stats: seq<InstanceStats>): (r: seq<int>)
    ensures |r| == |stats| && forall k :: 0 <= k < |stats| ==> r[k] == stats[k].instanceId
  {
    seq(|stats|, k requires 0 <= k < |stats| => stats[k].instanceId)
  }

  /** `InstanceMetricsTracker`: the instances dictionary, in
      registration order, and the time the tracker started. */
  class InstanceMetricsTracker {
    var instances: Dict<int, Instance>
    var startTime: real

    ghost predicate Valid()
      reads this
    {
      Wellformed(instances) &&
      forall id :: id in instances.entries ==> InstanceValid(instances.entries[id])
    }

    constructor (now: real)
      ensures Valid() && instances == Empty() && startTime == now
    {
      instances := Empty();
      startTime := now;
    }

    /** `register_instance(id, name)`: a fresh record, replacing any
        earlier one under that id. */
    method RegisterInstance(id: int, name: string)
      requires Valid()
      modifies this
      ensures Valid() && startTime == old(startTime)
      ensures instances == Put(old(instances), id, Registered(InstanceName(id, name)))
    {
      instances := Put(instances, id, Registered(InstanceName(id, name)));
    }

    /** `mark_busy(id)` at time `now`; an unregistered id changes nothing. */
    method MarkBusy(id: int, now: real)
      requires Valid()
      modifies this
      ensures Valid() && startTime == old(startTime) && instances.order == old(instances).order
      ensures id !in old(instances).entries ==> instances == old(instances)
      ensures id in old(instances).entries ==> (instances.entries ==
        old(instances).entries[id := old(instances).entries[id].(isBusy := true, busyStartTime := Some(now))])
    {
      if id !in instances.entries {
        return;
      }
      var i := instances.entries[id];
      instances := Put(instances, id, i.(isBusy := true, busyStartTime := Some(now)));
    }

    /** `mark_idle(id, latency_ms)` at time `now`: the busy interval, if one
        was started, is added to the busy time; the request is counted; a
        positive latency is kept among the last 100. An unregistered id
        changes nothing. */
    method MarkIdle(id: int, latencyMs: real, now: real)
      requires Valid()
      modifies this
      ensures Valid() && startTime == old(startTime) && instances.order == old(instances).order
      ensures id !in old(instances).entries ==> instances == old(instances)
      ensures instances.entries.Keys == old(instances).entries.Keys
      ensures forall k :: k in old(instances).entries && k != id ==>
        instances.entries[k] == old(instances).entries[k]
      ensures id in old(instances).entries ==>
        var o := old(instances).entries[id];
        var n := instances.entries[id];
        n.name == o.name && !n.isBusy && n.busyStartTime == None &&
        n.requestCount == o.requestCount + 1 && n.lastRequestTime == now &&
        n.totalBusyTimeS == (if o.busyStartTime.Some? then o.totalBusyTimeS + (now - o.busyStartTime.value) else o.totalBusyTimeS) &&
        n.latenciesMs == (if latencyMs > 0.0 then Bounded(o.latenciesMs + [latencyMs], KeepLatencies) else o.latenciesMs)
    {
      if id !in instances.entries {
        return;
      }
      var i := instances.entries[id];
      var busy := i.totalBusyTimeS;
      if i.busyStartTime.Some? {
        busy := busy + (now - i.busyStartTime.value);
      }
      var lats := i.latenciesMs;
      if latencyMs > 0.0 {
        lats := lats + [latencyMs];
        if |lats| > KeepLatencies {
          lats := lats[|lats| - KeepLatencies..];
        }
      }
      instances := Put(instances, id, Instance(i.name, i.requestCount + 1, busy, None, false, lats, now));
    }

    /** `get_instance_stats(id)` at time `now`. */
    function InstanceStatsAt(id: int, now: real): (s: InstanceStats)
      reads this
      ensures id !in instances.entries ==> s == UnknownStats(id)
      ensures id in instances.entries ==> s == StatsOf(id, instances.entries[id], now - startTime, now)
    {
      if id !in instances.entries then UnknownStats(id)
      else StatsOf(id, instances.entries[id], now - startTime, now)
    }

    /** `get_all_stats()`: the stats of every registered instance, by
        ascending id. */
    function AllStats(now: real): (r: seq<InstanceStats>)
      requires Valid()
      reads this
      ensures Ascending(Ids(r)) && |r| == |instances.order|
      ensures forall id :: id in Ids(r) <==> id in instances.entries
      ensures forall k :: 0 <= k < |r| ==> (r[k].instanceId in instances.entries &&
        r[k] == StatsOf(r[k].instanceId, instances.entries[r[k].instanceId], now - startTime, now))
    {
      var inst, elapsed := instances.entries, now - startTime;
      var ids := Sorted(instances.order);
      assert forall k :: 0 <= k < |ids| ==> ids[k] in ids;
      var r := seq(|ids|, k requires 0 <= k < |ids| && ids[k] in inst => StatsOf(ids[k], inst[ids[k]], elapsed, now));
      assert Ids(r) == ids;
      r
    }

    /** `get_summary()`. */
    function GetSummary(now: real): (r: Summary)
      requires Valid()
      reads this
      ensures instances.entries == map[] ==> r == Summary(0, [], 0.0, 100.0, 0)
      ensures r.numInstances == |instances.order|
      ensures r == SummaryOf(AllStats(now))
    {
      SummaryOf(AllStats(now))
    }

    /** `get_history_snapshot()`. */
    function HistorySnapshot(now: real): (r: Snapshot)
      requires Valid()
      reads this
      ensures |r.utilizationPct| == |r.idlePct| == |r.requestCounts| == |r.isBusy| == |instances.order|
      ensures r == SnapshotOf(AllStats(now))
    {
      SnapshotOf(AllStats(now))
    }

    /** `reset()` at time `now`: every instance keeps its name and loses
        everything else; the clock restarts. */
    method Reset(now: real)
      requires Valid()
      modifies this
      ensures Valid() && startTime == now && instances.order == old(instances).order
      ensures instances.entries.Keys == old(instances).entries.Keys
      ensures forall id :: id in instances.entries ==>
        instances.entries[id] == Registered(old(instances).entries[id].name)
    {
      var n := 0;
      while n < |instances.order|
        invariant 0 <= n <= |instances.order|
        invariant Wellformed(instances) && instances.order == old(instances).order
        invariant instances.entries.Keys == old(instances).entries.Keys
        invariant forall k :: n <= k < |instances.order| ==>
          instances.entries[instances.order[k]] == old(instances).entries[instances.order[k]]
        invariant forall k :: 0 <= k < n ==>
          instances.entries[instances.order[k]] == Registered(old(instances).entries[instances.order[k]].name)
      {
        var id := instances.order[n];
        assert forall k :: 0 <= k < |instances.order| && k != n ==> instances.order[k] != id;
        instances := Put(instances, id, Registered(instances.entries[id].name));
        n := n + 1;
      }
      forall id | id in instances.entries
        ensures instances.entries[id] == Registered(old(instances).entries[id].name)
      {
        var k :| 0 <= k < |instances.order| && instances.order[k] == id;
      }
      startTime := now;
    }
  }
}
