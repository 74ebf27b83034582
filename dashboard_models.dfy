/** The dashboard containers of src/models/dashboard.py: the chart
    history (fourteen parallel lists) and the experiment-level metrics
    summary. Dafny sequences are values, so the dictionary `ToDict`
    returns shares nothing with the history, as the `.copy()` calls in the
    source intend. */
module DashboardModels {
  import opened SeqMath

  /** The fourteen lists of the history, by field. */
  datatype Series =
    | Timestamps | Latencies | Throughput | Queries | CpuPercent | GpuMemoryMb | GpuUtilizationPct
    | QueueWaitMs | TokenizeMs | InferenceMs | PaddingPct | OverheadMs
    | TokenizerWorkerLatencies | TokenizerWorkerRequests

  /** The key a series has in the JSON the dashboard receives. */
  function Name(s: Series): string
  {
    match s
    case Timestamps => "timestamps"
    case Latencies => "latencies"
    case Throughput => "throughput"
    case Queries => "queries"
    case CpuPercent => "cpu_percent"
    case GpuMemoryMb => "gpu_memory_mb"
    case GpuUtilizationPct => "gpu_utilization_pct"
    case QueueWaitMs => "queue_wait_ms"
    case TokenizeMs => "tokenize_ms"
    case InferenceMs => "inference_ms"
    case PaddingPct => "padding_pct"
    case OverheadMs => "overhead_ms"
    case TokenizerWorkerLatencies => "tokenizer_worker_latencies"
    case TokenizerWorkerRequests => "tokenizer_worker_requests"
  }

  /** All fourteen series. */
  const AllSeries: set<Series> := {
    Timestamps, Latencies, Throughput, Queries, CpuPercent, GpuMemoryMb, GpuUtilizationPct,
    QueueWaitMs, TokenizeMs, InferenceMs, PaddingPct, OverheadMs,
    TokenizerWorkerLatencies, TokenizerWorkerRequests}

  /** Nothing is missing from `AllSeries`. */
  lemma AllSeriesComplete(s: Series)
    ensures s in AllSeries
  {
    match s
    case Timestamps => case Latencies => case Throughput => case Queries =>
    case CpuPercent => case GpuMemoryMb => case GpuUtilizationPct => case QueueWaitMs =>
    case TokenizeMs => case InferenceMs => case PaddingPct => case OverheadMs =>
    case TokenizerWorkerLatencies => case TokenizerWorkerRequests =>
  }

  class DashboardHistory {
    var timestamps: seq<real>
    var latencies: seq<real>
    var throughput: seq<real>
    var queries: seq<real>
    var cpuPercent: seq<real>
    var gpuMemoryMb: seq<real>
    var gpuUtilizationPct: seq<real>
    var queueWaitMs: seq<real>
    var tokenizeMs: seq<real>
    var inferenceMs: seq<real>
    var paddingPct: seq<real>
    var overheadMs: seq<real>
    var tokenizerWorkerLatencies: seq<real>
    var tokenizerWorkerRequests: seq<real>

    /** Every list is empty. */
    predicate Empty()
      reads this
    {
      timestamps == [] && latencies == [] && throughput == [] && queries == [] &&
      cpuPercent == [] && gpuMemoryMb == [] && gpuUtilizationPct == [] && queueWaitMs == [] &&
      tokenizeMs == [] && inferenceMs == [] && paddingPct == [] && overheadMs == [] &&
      tokenizerWorkerLatencies == [] && tokenizerWorkerRequests == []
    }

    constructor ()
      ensures Empty()
    {
      timestamps, latencies, throughput, queries := [], [], [], [];
      cpuPercent, gpuMemoryMb, gpuUtilizationPct, queueWaitMs := [], [], [], [];
      tokenizeMs, inferenceMs, paddingPct, overheadMs := [], [], [], [];
      tokenizerWorkerLatencies, tokenizerWorkerRequests := [], [];
    }

    /** The list a series is stored in. */
    function Get(s: Series): seq<real>
      reads this
    {
      match s
      case Timestamps => timestamps
      case Latencies => latencies
      case Throughput => throughput
      case Queries => queries
      case CpuPercent => cpuPercent
      case GpuMemoryMb => gpuMemoryMb
      case GpuUtilizationPct => gpuUtilizationPct
      case QueueWaitMs => queueWaitMs
      case TokenizeMs => tokenizeMs
      case InferenceMs => inferenceMs
      case PaddingPct => paddingPct
      case OverheadMs => overheadMs
      case TokenizerWorkerLatencies => tokenizerWorkerLatencies
      case TokenizerWorkerRequests => tokenizerWorkerRequests
    }

    /** `to_dict()`: one entry per list, under its field's key. */
    function ToDict(): (d: map<Series, seq<real>>)
      reads this
      ensures forall s: Series :: s in d <==> s in AllSeries
      ensures forall s: Series :: s in d ==> d[s] == Get(s)
    {
      map s | s in AllSeries :: Get(s)
    }

    /** `reset()`: every list is cleared, so `to_dict()` then maps each of
        the fourteen keys to an empty list. */
    method Reset()
      modifies this
      ensures Empty()
      ensures forall s: Series :: s in ToDict() ==> ToDict()[s] == []
    {
      timestamps, latencies, throughput, queries := [], [], [], [];
      cpuPercent, gpuMemoryMb, gpuUtilizationPct, queueWaitMs := [], [], [], [];
      tokenizeMs, inferenceMs, paddingPct, overheadMs := [], [], [], [];
      tokenizerWorkerLatencies, tokenizerWorkerRequests := [], [];
      EmptyDict();
    }

    /** A cleared history holds no value under any key. */
    lemma EmptyDict()
      requires Empty()
      ensures forall s: Series :: s in ToDict() ==> ToDict()[s] == []
    {
      forall s: Series | s in ToDict()
        ensures ToDict()[s] == []
      {
        assert ToDict()[s] == Get(s);
        match s
        case Timestamps => case Latencies => case Throughput => case Queries =>
        case CpuPercent => case GpuMemoryMb => case GpuUtilizationPct => case QueueWaitMs =>
        case TokenizeMs => case InferenceMs => case PaddingPct => case OverheadMs =>
        case TokenizerWorkerLatencies => case TokenizerWorkerRequests =>
      }
    }
  }

  /** The five numbers `stats(arr)` reports. */
  datatype Stats = Stats(avg: real, min: real, max: real, p50: real, p95: real)

  /** `stats(arr)`: all zero for an empty list; otherwise mean, minimum,
      maximum and the two percentiles, with the mean between the extremes. */
  function StatsOf(arr: seq<real>, percentile: Percentile): (s: Stats)
    ensures arr == [] ==> s == Stats(0.0, 0.0, 0.0, 0.0, 0.0)
    ensures arr != [] ==> s.avg == Mean(arr) && s.p50 == percentile(arr, 50.0) && s.p95 == percentile(arr, 95.0)
    ensures arr != [] ==> s.min == Min(arr) && s.max == Max(arr)
    ensures arr != [] ==> s.min <= s.avg <= s.max
    ensures arr != [] ==> forall i :: 0 <= i < |arr| ==> s.min <= arr[i] <= s.max
  {
    if arr == [] then Stats(0.0, 0.0, 0.0, 0.0, 0.0)
    else
      MeanBetweenMinMax(arr);
      MinMaxBound(arr);
      Stats(Mean(arr), Min(arr), Max(arr), percentile(arr, 50.0), percentile(arr, 95.0))
  }

  /** The series `DashboardMetrics.get_summary()` reports on. */
  const SummarisedSeries: set<Series> :=
    {GpuMemoryMb, GpuUtilizationPct, CpuPercent, TokenizeMs, InferenceMs, QueueWaitMs, PaddingPct, OverheadMs}

  /** The lists `DashboardMetrics` keeps. */
  predicate Kept(s: Series)
  {
    s in SummarisedSeries || s == Latencies || s == Throughput
  }

  class DashboardMetrics {
    var gpuMemoryMb: seq<real>
    var gpuUtilizationPct: seq<real>
    var cpuPercent: seq<real>
    var latencies: seq<real>
    var throughput: seq<real>
    var tokenizeMs: seq<real>
    var inferenceMs: seq<real>
    var queueWaitMs: seq<real>
    var paddingPct: seq<real>
    var overheadMs: seq<real>

    constructor ()
      ensures forall s: Series :: Kept(s) ==> Get(s) == []
    {
      gpuMemoryMb, gpuUtilizationPct, cpuPercent, latencies, throughput := [], [], [], [], [];
      tokenizeMs, inferenceMs, queueWaitMs, paddingPct, overheadMs := [], [], [], [], [];
    }

    /** The list a kept series is stored in. */
    function Get(s: Series): seq<real>
      requires Kept(s)
      reads this
    {
      match s
      case GpuMemoryMb => gpuMemoryMb
      case GpuUtilizationPct => gpuUtilizationPct
      case CpuPercent => cpuPercent
      case Latencies => latencies
      case Throughput => throughput
      case TokenizeMs => tokenizeMs
      case InferenceMs => inferenceMs
      case QueueWaitMs => queueWaitMs
      case PaddingPct => paddingPct
      case OverheadMs => overheadMs
    }

    /** `get_summary()`: exactly eight series are summarised (latencies and
        throughput are kept but not reported); SummaryOfSeries states what
        each entry holds. */
    function GetSummary(percentile: Percentile): (r: map<Series, Stats>)
      reads this
      ensures forall s: Series :: s in r <==> s in SummarisedSeries
      ensures Latencies !in r && Throughput !in r
    {
      map s | s in SummarisedSeries :: StatsOf(Get(s), percentile)
    }

    /** A summarised series reports all zeros when its list is empty, and
        otherwise its mean, minimum, maximum and two percentiles, the mean
        lying between the extremes. */
    lemma SummaryOfSeries(percentile: Percentile, s: Series)
      requires s in SummarisedSeries
      ensures s in GetSummary(percentile)
      ensures Get(s) == [] ==> GetSummary(percentile)[s] == Stats(0.0, 0.0, 0.0, 0.0, 0.0)
      ensures Get(s) != [] ==>
        var st := GetSummary(percentile)[s];
        st.avg == Mean(Get(s)) && st.min == Min(Get(s)) && st.max == Max(Get(s)) &&
        st.p50 == percentile(Get(s), 50.0) && st.p95 == percentile(Get(s), 95.0) &&
        st.min <= st.avg <= st.max
    {
    }
  }
}
