/** The server's metric holders (`src/server/dto/metrics`): one tracker per
    pipeline stage and a manager over them by name, a padding tracker that
    rejects impossible samples, and per-worker records of latencies, queries
    and tokens with a manager that creates them on first use. The clock is a
    parameter (`now`) and numpy's percentile is the `percentile` parameter;
    the managers' locks are not modelled. */
module DtoMetrics {
  import opened Wrappers
  import opened SeqMath
  import opened PyDict
  import opened Decimal
  import opened ServerMetrics

  // ---------------------------------------------------------------------
  // Stage trackers

  /** `StageTracker`: the recorded latencies of one stage, the newest of
      them, and, when asked for at construction, a bounded history of
      `(timestamp, value)` pairs. */
  class StageTracker {
    const name: string
    const tracksRecent: bool
    const recentMaxlen: int
    var latencies: seq<real>
    var lastValueMs: real
    var recentHistory: seq<(real, real)>

    /** Only positive values are ever kept; the last value is the newest
        one (0 before any); the history exists only when tracked and never
        exceeds its bound. */
    ghost predicate Valid()
      reads this
    {
      lastValueMs == LastOr(latencies, 0.0) &&
      (forall i :: 0 <= i < |latencies| ==> latencies[i] > 0.0) &&
      (tracksRecent ==> 0 <= recentMaxlen && |recentHistory| <= recentMaxlen) &&
      (!tracksRecent ==> recentHistory == [])
    }

    /** `deque(maxlen=recent_maxlen)` refuses a negative bound, so one is
        only needed when the history is tracked. */
    constructor (name: string, trackRecent: bool, recentMaxlen: int)
      requires trackRecent ==> recentMaxlen >= 0
      ensures Valid()
      ensures this.name == name && tracksRecent == trackRecent && this.recentMaxlen == recentMaxlen
      ensures latencies == [] && lastValueMs == 0.0 && recentHistory == []
    {
      this.name := name;
      tracksRecent := trackRecent;
      this.recentMaxlen := recentMaxlen;
      latencies := [];
      lastValueMs := 0.0;
      recentHistory := [];
    }

    /** `record(value_ms, timestamp)`: a value that is not positive changes
        nothing; otherwise it is appended and becomes the last value, and
        it enters the history only when the history is tracked and a
        timestamp is given. */
    method Record(valueMs: real, timestamp: Option<real>)
      requires Valid()
      modifies this
      ensures Valid()
      ensures valueMs <= 0.0 ==> unchanged(this)
      ensures valueMs > 0.0 ==> latencies == old(latencies) + [valueMs] && lastValueMs == valueMs
      ensures valueMs > 0.0 && tracksRecent && timestamp.Some? ==>
        recentHistory == Push(old(recentHistory), (timestamp.value, valueMs), recentMaxlen as nat)
      ensures !(valueMs > 0.0 && tracksRecent && timestamp.Some?) ==> recentHistory == old(recentHistory)
    {
      if valueMs <= 0.0 {
        return;
      }
      latencies := latencies + [valueMs];
      lastValueMs := valueMs;
      if tracksRecent && timestamp.Some? {
        recentHistory := Push(recentHistory, (timestamp.value, valueMs), recentMaxlen as nat);
      }
    }

    /** `reset()`: everything recorded is forgotten; a tracked history
        stays tracked, empty. */
    method Reset()
      requires Valid()
      modifies this
      ensures Valid()
      ensures latencies == [] && lastValueMs == 0.0 && recentHistory == []
    {
      latencies := [];
      lastValueMs := 0.0;
      recentHistory := [];
    }
  }

  /** The key `get_all_last_values` reports a stage under. */
  function LastKey(name: string): string
  {
    "last_" + name + "_ms"
  }

  /** Distinct stage names give distinct keys. */
  lemma LastKeyInjective(a: string, b: string)
    requires LastKey(a) == LastKey(b)
    ensures a == b
  {
    assert |a| == |b|;
    forall i | 0 <= i < |a| ensures a[i] == b[i] {
      assert LastKey(a)[5 + i] == a[i];
      assert LastKey(b)[5 + i] == b[i];
    }
  }

  /** `StageTrackerManager`: trackers by stage name. */
  class StageTrackerManager {
    var trackers: Dict<string, StageTracker>

    ghost function Repr(): set<object>
      reads this
    {
      set n | n in trackers.entries :: trackers.entries[n] as object
    }

    /** Every tracker is filed under its own name, which also makes the
        trackers distinct objects. */
    ghost predicate Valid()
      reads this, Repr()
    {
      Wellformed(trackers) &&
      forall n :: n in trackers.entries ==> trackers.entries[n].name == n && trackers.entries[n].Valid()
    }

    constructor ()
      ensures Valid() && trackers == Empty()
    {
      trackers := Empty();
    }

    /** `register(name, ...)`: a fresh tracker replaces any tracker of that
        name; the others stay. */
    method Register(name: string, trackRecent: bool, recentMaxlen: int) returns (t: StageTracker)
      requires Valid()
      requires trackRecent ==> recentMaxlen >= 0
      modifies this
      ensures Valid()
      ensures fresh(t) && trackers == Put(old(trackers), name, t)
      ensures t.name == name && t.latencies == [] && t.lastValueMs == 0.0 && t.recentHistory == []
    {
      t := new StageTracker(name, trackRecent, recentMaxlen);
      trackers := Put(trackers, name, t);
    }

    /** `unregister(name)`: the name disappears if present. */
    method Unregister(name: string)
      requires Valid()
      modifies this
      ensures Valid()
      ensures trackers == Remove(old(trackers), name)
      ensures name !in trackers.entries
    {
      trackers := Remove(trackers, name);
    }

    /** `get(name)`: `KeyError` for a name never registered. */
    function Get(name: string): (r: Result<StageTracker>)
      reads this, Repr()
      requires Valid()
      ensures name in trackers.entries <==> r.Ok?
      ensures r.Ok? ==> r.value == trackers.entries[name] && r.value.name == name
      ensures r.Err? ==> r.error == KeyError(name)
    {
      if name in trackers.entries then Ok(trackers.entries[name]) else Err(KeyError(name))
    }

    /** `record(name, value_ms, timestamp)`: an unknown name is ignored;
        otherwise only that stage's tracker records. */
    method Record(name: string, valueMs: real, timestamp: Option<real>)
      requires Valid()
      modifies Repr()
      ensures Valid() && trackers == old(trackers)
      ensures name !in trackers.entries ==> forall n :: n in trackers.entries ==> unchanged(trackers.entries[n])
      ensures forall n :: n in trackers.entries && n != name ==> unchanged(trackers.entries[n])
      ensures name in trackers.entries && valueMs > 0.0 ==>
        trackers.entries[name].latencies == old(trackers.entries[name].latencies) + [valueMs] &&
        trackers.entries[name].lastValueMs == valueMs
      ensures name in trackers.entries && valueMs <= 0.0 ==> unchanged(trackers.entries[name])
    {
      if name in trackers.entries {
        trackers.entries[name].Record(valueMs, timestamp);
      }
    }

    /** `reset_all()`: every tracker, in registration order, is reset. */
    method ResetAll()
      requires Valid()
      modifies Repr()
      ensures Valid() && trackers == old(trackers)
      ensures forall n :: n in trackers.entries ==>
        trackers.entries[n].latencies == [] && trackers.entries[n].lastValueMs == 0.0 &&
        trackers.entries[n].recentHistory == []
    {
      var i := 0;
      while i < |trackers.order|
        invariant 0 <= i <= |trackers.order|
        invariant Valid() && trackers == old(trackers)
        invariant forall j :: 0 <= j < i ==>
          trackers.entries[trackers.order[j]].latencies == [] &&
          trackers.entries[trackers.order[j]].lastValueMs == 0.0 &&
          trackers.entries[trackers.order[j]].recentHistory == []
      {
        trackers.entries[trackers.order[i]].Reset();
        i := i + 1;
      }
    }

    /** `get_all_last_values()`: one `last_<name>_ms` entry per registered
        stage holding that stage's newest value, and nothing else. */
    function LastValues(): (r: map<string, real>)
      reads this, Repr()
      requires Valid()
      ensures forall n :: n in trackers.entries ==> LastKey(n) in r && r[LastKey(n)] == trackers.entries[n].lastValueMs
      ensures forall k :: k in r ==> exists n :: n in trackers.entries && k == LastKey(n)
    {
      forall a, b | a in trackers.entries && b in trackers.entries && LastKey(a) == LastKey(b)
        ensures a == b
      {
        LastKeyInjective(a, b);
      }
      map n | n in trackers.entries :: LastKey(n) := trackers.entries[n].lastValueMs
    }
  }

  // ---------------------------------------------------------------------
  // Padding tracker

  /** Ratios in [0, 1] report percentages in [0, 100]. */
  lemma PercentagesWithin(p: PaddingLog)
    requires PaddingValid(p)
    requires forall i :: 0 <= i < |p.ratios| ==> 0.0 <= p.ratios[i] <= 1.0
    ensures 0.0 <= PaddingSummaryOf(p).avgPaddingPct <= 100.0
    ensures 0.0 <= PaddingSummaryOf(p).lastPaddingPct <= 100.0
  {
    if p.ratios != [] {
      MeanWithin(p.ratios, 0.0, 1.0);
      RoundedAtMost(Mean(p.ratios) * 100.0, 100, 1);
      RoundedAtMost(p.lastRatio * 100.0, 100, 1);
    }
  }

  /** `PaddingTracker`: the same eight fields as the collector's padding
      statistics, held as one `PaddingLog`. */
  class PaddingTracker {
    var log: PaddingLog

    /** Besides the log's own shape: every kept ratio is in [0, 1] and both
        token totals are non-negative. */
    ghost predicate Valid()
      reads this
    {
      PaddingValid(log) &&
      (forall i :: 0 <= i < |log.ratios| ==> 0.0 <= log.ratios[i] <= 1.0) &&
      log.paddedTokensTotal >= 0 && log.realTokensTotal >= 0
    }

    constructor ()
      ensures Valid() && log == NoPadding
    {
      log := NoPadding;
    }

    /** `record(...)`: a ratio outside [0, 1], or a padded count outside
        [0, total], is refused and changes nothing; an accepted sample is
        recorded as the collector records it, so both totals can only
        grow. */
    method Record(ratio: real, paddedTokens: int, totalTokens: int, maxSeqLength: int, avgSeqLength: real)
      requires Valid()
      modifies this
      ensures Valid()
      ensures !(0.0 <= ratio <= 1.0 && 0 <= paddedTokens <= totalTokens) ==> log == old(log)
      ensures 0.0 <= ratio <= 1.0 && 0 <= paddedTokens <= totalTokens ==>
        log == RecordPadding(old(log), ratio, paddedTokens, totalTokens, maxSeqLength, avgSeqLength)
      ensures log.paddedTokensTotal >= old(log.paddedTokensTotal) && log.realTokensTotal >= old(log.realTokensTotal)
    {
      if !(0.0 <= ratio <= 1.0) {
        return;
      }
      if !(0 <= paddedTokens <= totalTokens) {
        return;
      }
      log := RecordPadding(log, ratio, paddedTokens, totalTokens, maxSeqLength, avgSeqLength);
    }

    /** `get_stats()`: zeros before any sample; afterwards the mean and the
        last ratio as percentages rounded to one decimal, both within
        [0, 100]. */
    function Stats(): (s: PaddingSummary)
      reads this
      requires Valid()
      ensures log.ratios == [] ==> s == PaddingSummary(0.0, 0.0, 0, 0.0)
      ensures log.ratios != [] ==> s.avgPaddingPct == Rounded(Mean(log.ratios) * 100.0, 1)
      ensures 0.0 <= s.avgPaddingPct <= 100.0 && 0.0 <= s.lastPaddingPct <= 100.0
      ensures log.ratios != [] ==> s.lastMaxSeqLength == log.lastMaxSeqLength
      ensures s == PaddingSummaryOf(log)
    {
      PercentagesWithin(log);
      PaddingSummaryOf(log)
    }

    /** `reset()`. */
    method Reset()
      modifies this
      ensures Valid() && log == NoPadding
    {
      log := NoPadding;
    }
  }

  // ---------------------------------------------------------------------
  // Per-worker metrics

  /** Which subclass of `BaseWorkerMetrics` a record is. */
  datatype WorkerKind = ModelWorker | TokenizerWorker

  /** `get_stats()` of a worker: the latency statistics, the request and
      query counts and the query rate, and for a tokenizer worker also the
      token total and token rate. */
  datatype WorkerReport = WorkerReport(
    workerId: int, latency: StageStats, requestCount: nat, queryCount: int, throughputQps: real,
    tokens: Option<(int, real)>)

  /** `WorkerMetrics` or `TokenizerWorkerMetrics`. */
  class WorkerMetrics {
    const kind: WorkerKind
    const workerId: int
    var latencies: seq<real>
    var requestCount: nat
    var startTime: real
    var queryCount: int
    var totalTokensProcessed: int

    /** One request per latency; nothing is counted before the first
        request; a model worker counts no tokens. */
    ghost predicate Valid()
      reads this
    {
      requestCount == |latencies| &&
      (latencies == [] ==> queryCount == 0 && totalTokensProcessed == 0) &&
      (kind == ModelWorker ==> totalTokensProcessed == 0)
    }

    constructor (kind: WorkerKind, workerId: int, now: real)
      ensures Valid()
      ensures this.kind == kind && this.workerId == workerId && startTime == now
      ensures latencies == [] && requestCount == 0 && queryCount == 0 && totalTokensProcessed == 0
    {
      this.kind := kind;
      this.workerId := workerId;
      latencies := [];
      requestCount := 0;
      startTime := now;
      queryCount := 0;
      totalTokensProcessed := 0;
    }

    /** `record(latency_ms, num_queries=..., total_tokens=...)`: one more
        request and latency, `numQueries` more queries (callers that omit it
        pass 1), and for a tokenizer worker `totalTokens` more tokens
        (callers that omit it pass 0); a model worker ignores tokens. */
    method Record(latencyMs: real, numQueries: int, totalTokens: int)
      requires Valid()
      modifies this
      ensures Valid()
      ensures latencies == old(latencies) + [latencyMs] && requestCount == old(requestCount) + 1
      ensures queryCount == old(queryCount) + numQueries
      ensures kind == TokenizerWorker ==> totalTokensProcessed == old(totalTokensProcessed) + totalTokens
      ensures kind == ModelWorker ==> totalTokensProcessed == 0
      ensures startTime == old(startTime)
    {
      latencies := latencies + [latencyMs];
      requestCount := requestCount + 1;
      queryCount := queryCount + numQueries;
      if kind == TokenizerWorker {
        totalTokensProcessed := totalTokensProcessed + totalTokens;
      }
    }

    /** `get_stats()` at time `now`: rates are per second since the start
        and 0 when no time has passed. */
    function Stats(now: real, percentile: Percentile): (s: WorkerReport)
      reads this
      requires Valid()
      ensures s.workerId == workerId && s.requestCount == |latencies| && s.queryCount == queryCount
      ensures latencies == [] ==> s.latency == StageStats(0.0, 0.0, 0.0, 0.0, 0) && s.queryCount == 0
      ensures latencies != [] ==> s.latency.avgMs == Mean(latencies) && Min(latencies) <= s.latency.avgMs <= Max(latencies)
      ensures s.latency == StageStatsOf(latencies, percentile)
      ensures now - startTime <= 0.0 ==> s.throughputQps == 0.0
      ensures now - startTime > 0.0 ==> s.throughputQps * (now - startTime) == queryCount as real
      ensures kind == ModelWorker <==> s.tokens.None?
      ensures s.tokens.Some? ==> (s.tokens.value.0 == totalTokensProcessed &&
        (now - startTime > 0.0 ==> s.tokens.value.1 * (now - startTime) == totalTokensProcessed as real) &&
        (now - startTime <= 0.0 ==> s.tokens.value.1 == 0.0))
    {
      var elapsed := now - startTime;
      var tokens := match kind
        case ModelWorker => None
        case TokenizerWorker => Some((totalTokensProcessed, Rate(totalTokensProcessed as real, elapsed)));
      WorkerReport(workerId, StageStatsOf(latencies, percentile), requestCount, queryCount,
        Rate(queryCount as real, elapsed), tokens)
    }

    /** `reset()`: counts cleared and the clock restarted at `now`. */
    method Reset(now: real)
      modifies this
      ensures Valid()
      ensures latencies == [] && requestCount == 0 && queryCount == 0 && totalTokensProcessed == 0
      ensures startTime == now
    {
      latencies := [];
      requestCount := 0;
      startTime := now;
      queryCount := 0;
      totalTokensProcessed := 0;
    }
  }

  /** `WorkerStatsManager`: worker records by id, all of one kind. */
  class WorkerStatsManager {
    const kind: WorkerKind
    var stats: Dict<int, WorkerMetrics>

    ghost function Repr(): set<object>
      reads this
    {
      set id | id in stats.entries :: stats.entries[id] as object
    }

    /** Every record is filed under its own worker id and is of the
        manager's kind. */
    ghost predicate Valid()
      reads this, Repr()
    {
      Wellformed(stats) &&
      forall id :: id in stats.entries ==>
        stats.entries[id].workerId == id && stats.entries[id].kind == kind && stats.entries[id].Valid()
    }

    constructor (kind: WorkerKind)
      ensures Valid() && this.kind == kind && stats == Empty()
    {
      this.kind := kind;
      stats := Empty();
    }

    /** `get_or_create(worker_id)`: the existing record, or a new one
        started at `now` appended to the order. */
    method GetOrCreate(workerId: int, now: real) returns (w: WorkerMetrics)
      requires Valid()
      modifies this
      ensures Valid()
      ensures workerId in stats.entries && w == stats.entries[workerId]
      ensures workerId in old(stats.entries) ==> stats == old(stats)
      ensures workerId !in old(stats.entries) ==>
        fresh(w) && stats == Put(old(stats), workerId, w) && w.startTime == now && w.latencies == []
    {
      if workerId in stats.entries {
        w := stats.entries[workerId];
      } else {
        w := new WorkerMetrics(kind, workerId, now);
        stats := Put(stats, workerId, w);
      }
    }

    /** `record(worker_id, latency_ms, ...)`: the worker's record (created
        if needed) takes the sample; every other record is untouched. */
    method Record(workerId: int, latencyMs: real, numQueries: int, totalTokens: int, now: real)
      requires Valid()
      modifies this, Repr()
      ensures Valid()
      ensures workerId in stats.entries
      ensures workerId in old(stats.entries) ==> stats == old(stats)
      ensures workerId !in old(stats.entries) ==> stats.order == old(stats.order) + [workerId]
      ensures forall id :: id in old(stats.entries) && id != workerId ==>
        id in stats.entries && stats.entries[id] == old(stats.entries[id]) && unchanged(stats.entries[id])
      ensures stats.entries[workerId].latencies ==
        (if workerId in old(stats.entries) then old(stats.entries[workerId].latencies) else []) + [latencyMs]
      ensures workerId !in old(stats.entries) ==> (stats.entries[workerId].startTime == now &&
        stats.entries[workerId].queryCount == numQueries)
    {
      var w := GetOrCreate(workerId, now);
      w.Record(latencyMs, numQueries, totalTokens);
    }

    /** `get_all_stats()`: one report per worker, in the order the workers
        first appeared. */
    function AllStats(now: real, percentile: Percentile): (r: seq<WorkerReport>)
      reads this, Repr()
      requires Valid()
      ensures |r| == |stats.order|
      ensures forall i :: 0 <= i < |r| ==> (r[i].workerId == stats.order[i] &&
        r[i].requestCount == |stats.entries[stats.order[i]].latencies|)
      ensures r == ReportsOf(stats.order, now, percentile)
    {
      ReportsOf(stats.order, now, percentile)
    }

    /** The reports of the workers `ids`, in that order. */
    function ReportsOf(ids: seq<int>, now: real, percentile: Percentile): (r: seq<WorkerReport>)
      reads this, Repr()
      requires Valid()
      requires forall i :: 0 <= i < |ids| ==> ids[i] in stats.entries
      ensures |r| == |ids|
      ensures forall i :: 0 <= i < |ids| ==> stats.entries[ids[i]].Valid()
      ensures forall i :: 0 <= i < |ids| ==> r[i] == stats.entries[ids[i]].Stats(now, percentile)
    {
      if ids == [] then []
      else
        var id := ids[|ids| - 1];
        assert id in stats.entries;
        ReportsOf(ids[..|ids| - 1], now, percentile) + [stats.entries[id].Stats(now, percentile)]
    }

    /** `reset_all()`: all records are dropped. */
    method ResetAll()
      modifies this
      ensures Valid() && stats == Empty()
    {
      stats := Empty();
    }
  }
}
