/** The benchmark client's experiment settings
    (`src/client/experiment_config.py`): what the loaded experiment
    document gives, with the command-line arguments filling whatever it
    leaves out. */
module ClientExperimentConfig {
  import opened Wrappers
  import opened ConfigValue

  /** The command-line arguments the settings fall back on. An argument
      object without `duration` reads as `VNone` and one without
      `prefill_requests` as `VInt(0)`, as `getattr` with a default does. */
  datatype Args = Args(
    batchSize: Value, concurrency: Value, numRequests: Value,
    duration: Value, prefillRequests: Value, datasetSize: Value)

  /** `ExperimentConfig`. `name` and `description` are the values read
      (see `## Left out` on `str()`). */
  datatype ExperimentConfig = ExperimentConfig(
    name: Value, description: Value, batchSizes: seq<int>, concurrencyLevels: seq<int>,
    benchmarkRequests: int, benchmarkDurationS: Option<real>, prefillRequests: int, datasetSize: int)

  /** `[int(v) for v in items]`: the first element `int()` refuses stops
      the list with its error. */
  function Ints(items: seq<Value>): (r: Result<seq<int>>)
    ensures r.Ok? <==> forall i :: 0 <= i < |items| ==> IntOf(items[i]).Ok?
    ensures r.Ok? ==> |r.value| == |items| && forall i :: 0 <= i < |items| ==> IntOf(items[i]) == Ok(r.value[i])
    ensures r.Err? ==> exists i :: 0 <= i < |items| && IntOf(items[i]) == Err(r.error)
  {
    if items == [] then Ok([])
    else
      var init := items[..|items| - 1];
      match Ints(init)
      case Err(e) => Err(e)
      case Ok(xs) =>
        match IntOf(items[|items| - 1])
        case Err(e) => Err(e)
        case Ok(x) => Ok(xs + [x])
  }

  /** `_listify(value, fallback)`: no value is the fallback, a list is
      converted element by element, anything else is a list of one. */
  function Listify(value: Value, fallback: seq<int>): (r: Result<seq<int>>)
    ensures value.VNone? ==> r == Ok(fallback)
    ensures value.VList? ==> r == Ints(value.items)
    ensures !value.VNone? && !value.VList? ==> (match IntOf(value)
      case Ok(i) => r == Ok([i])
      case Err(e) => r == Err(e))
  {
    match value
    case VNone => Ok(fallback)
    case VList(items) => Ints(items)
    case _ =>
      match IntOf(value)
      case Ok(i) => Ok([i])
      case Err(e) => Err(e)
  }

  /** A list setting: the experiment's value, else the argument alone. The
      argument is converted first, whether or not it is used. */
  function ListSetting(experiment: Dict, key: string, arg: Value): (r: Result<seq<int>>)
    ensures IntOf(arg).Err? ==> r == Err(IntOf(arg).error)
    ensures IntOf(arg).Ok? && key !in experiment ==> r == Ok([IntOf(arg).value])
  {
    match IntOf(arg)
    case Err(e) => Err(e)
    case Ok(a) => Listify(Lookup(experiment, key, VNone), [a])
  }

  /** The duration: the experiment's value unless it is `None`, else the
      argument's, as a float; `None` when both are. */
  function Duration(experiment: Dict, arg: Value): (r: Result<Option<real>>)
    ensures "benchmark_duration_s" in experiment && !experiment["benchmark_duration_s"].VNone? ==>
      r == (match FloatOf(experiment["benchmark_duration_s"])
            case Ok(x) => Ok(Some(x))
            case Err(e) => Err(e))
    ensures Lookup(experiment, "benchmark_duration_s", VNone).VNone? && arg.VNone? ==> r == Ok(None)
  {
    var value := Lookup(experiment, "benchmark_duration_s", VNone);
    var chosen := if value.VNone? then arg else value;
    if chosen.VNone? then Ok(None)
    else
      match FloatOf(chosen)
      case Ok(x) => Ok(Some(x))
      case Err(e) => Err(e)
  }

  /** The warm-up request count: the experiment's value unless it is
      `None`, else the argument's; a falsy result is 0. */
  function Prefill(experiment: Dict, arg: Value): (r: Result<int>)
    ensures "prefill_requests" in experiment && !experiment["prefill_requests"].VNone? ==>
      r == IntOf(Or(experiment["prefill_requests"], VInt(0)))
  {
    var value := Lookup(experiment, "prefill_requests", VNone);
    var chosen := if value.VNone? then arg else value;
    IntOf(Or(chosen, VInt(0)))
  }

  /** `ExperimentConfig.from_sources(config, args)`. A missing document is
      an empty one; a missing or falsy `experiment` section is an empty
      one; a truthy section that is not a dictionary has no `get`. The
      conversions run in the order the source evaluates them. */
  function FromSources(config: Value, args: Args): (r: Result<ExperimentConfig>)
    ensures !Or(config, VDict(map[])).VDict? ==> r == Err(AttributeError("get"))
    ensures r.Ok? ==> var source := Or(config, VDict(map[])).d;
      r.value.name == Or(Lookup(source, "name", VNone), VStr("")) &&
      r.value.description == Or(Lookup(source, "description", VNone), VStr(""))
  {
    var source := Or(config, VDict(map[]));
    if !source.VDict? then Err(AttributeError("get"))
    else
      var experiment := Or(Lookup(source.d, "experiment", VDict(map[])), VDict(map[]));
      var name := Or(Lookup(source.d, "name", VNone), VStr(""));
      var description := Or(Lookup(source.d, "description", VNone), VStr(""));
      if !experiment.VDict? then Err(AttributeError("get"))
      else
        var e := experiment.d;
        match ListSetting(e, "batch_sizes", args.batchSize)
        case Err(err) => Err(err)
        case Ok(batchSizes) =>
          match ListSetting(e, "concurrency_levels", args.concurrency)
          case Err(err) => Err(err)
          case Ok(levels) =>
            match IntOf(Or(Lookup(e, "benchmark_requests", VNone), args.numRequests))
            case Err(err) => Err(err)
            case Ok(requests) =>
              match Duration(e, args.duration)
              case Err(err) => Err(err)
              case Ok(duration) =>
                match Prefill(e, args.prefillRequests)
                case Err(err) => Err(err)
                case Ok(prefill) =>
                  match IntOf(Or(Lookup(e, "dataset_size", VNone), args.datasetSize))
                  case Err(err) => Err(err)
                  case Ok(size) =>
                    Ok(ExperimentConfig(name, description, batchSizes, levels, requests, duration, prefill, size))
  }

  /** Integer arguments, as the command line gives them. */
  predicate IntArgs(args: Args)
  {
    args.batchSize.VInt? && args.concurrency.VInt? && args.numRequests.VInt? &&
    (args.duration.VNone? || args.duration.VInt? || args.duration.VReal?) &&
    args.prefillRequests.VInt? && args.datasetSize.VInt?
  }

  /** The settings the arguments alone give. */
  function FromArgs(args: Args): (c: ExperimentConfig)
    requires IntArgs(args)
  {
    ExperimentConfig(
      VStr(""), VStr(""), [args.batchSize.i], [args.concurrency.i], args.numRequests.i,
      if args.duration.VNone? then None else Some(FloatOf(args.duration).value),
      args.prefillRequests.i, args.datasetSize.i)
  }

  /** Without a document, or with an empty one, the settings are the
      arguments': one batch size, one concurrency level, no name. */
  lemma NoDocumentUsesArgs(args: Args)
    requires IntArgs(args)
    ensures FromSources(VNone, args) == Ok(FromArgs(args))
    ensures FromSources(VDict(map[]), args) == Ok(FromArgs(args))
  {
  }

  /** An experiment section that spells out every argument's value gives
      the same settings as no document at all, when the values are
      non-zero: the document and the command line agree. */
  lemma SpelledOutMatchesArgs(args: Args, e: Dict, bs: int, c: int, n: int, d: int, p: int, size: int)
    requires args == Args(VInt(bs), VInt(c), VInt(n), VInt(d), VInt(p), VInt(size))
    requires n != 0 && p != 0 && size != 0
    requires "batch_sizes" in e && e["batch_sizes"] == VList([VInt(bs)])
    requires "concurrency_levels" in e && e["concurrency_levels"] == VInt(c)
    requires "benchmark_requests" in e && e["benchmark_requests"] == VInt(n)
    requires "benchmark_duration_s" in e && e["benchmark_duration_s"] == VInt(d)
    requires "prefill_requests" in e && e["prefill_requests"] == VInt(p)
    requires "dataset_size" in e && e["dataset_size"] == VInt(size)
    ensures FromSources(VDict(map["experiment" := VDict(e)]), args) == FromSources(VNone, args)
  {
    IntsOne(VInt(bs));
    assert ListSetting(e, "batch_sizes", args.batchSize) == Ok([bs]);
    assert ListSetting(e, "concurrency_levels", args.concurrency) == Ok([c]);
    assert Duration(e, args.duration) == Ok(Some(d as real));
    assert Prefill(e, args.prefillRequests) == Ok(p);
  }

  /** A list of one value the `int()` conversion accepts. */
  lemma IntsOne(v: Value)
    requires IntOf(v).Ok?
    ensures Ints([v]) == Ok([IntOf(v).value])
  {
    var r := Ints([v]);
    assert r.Ok? && |r.value| == 1 && IntOf([v][0]) == Ok(r.value[0]);
    assert r.value == [r.value[0]];
  }

  /** The request count and data-set size treat 0 as missing, but the
      duration and the warm-up count only treat `None` so: a 0 in the
      document overrides the arguments for those two. */
  lemma ZeroSettings(args: Args, e: Dict)
    requires IntArgs(args)
    requires "benchmark_requests" in e && e["benchmark_requests"] == VInt(0)
    requires "dataset_size" in e && e["dataset_size"] == VInt(0)
    requires "benchmark_duration_s" in e && e["benchmark_duration_s"] == VInt(0)
    requires "prefill_requests" in e && e["prefill_requests"] == VInt(0)
    requires "batch_sizes" !in e && "concurrency_levels" !in e
    ensures var r := FromSources(VDict(map["experiment" := VDict(e)]), args);
      r.Ok? && r.value.benchmarkRequests == args.numRequests.i && r.value.datasetSize == args.datasetSize.i &&
      r.value.benchmarkDurationS == Some(0.0) && r.value.prefillRequests == 0
  {
  }

  /** Whenever the document's experiment section sets a value, that value
      is used and the argument is not: lists are converted element by
      element, a non-zero request count or data-set size and any warm-up
      count or duration are taken as given. */
  lemma DocumentValuesWin(args: Args, e: Dict)
    requires FromSources(VDict(map["experiment" := VDict(e)]), args).Ok?
    ensures var c := FromSources(VDict(map["experiment" := VDict(e)]), args).value;
      ("batch_sizes" in e && e["batch_sizes"].VList? ==> Ints(e["batch_sizes"].items) == Ok(c.batchSizes)) &&
      ("concurrency_levels" in e && e["concurrency_levels"].VList? ==>
        Ints(e["concurrency_levels"].items) == Ok(c.concurrencyLevels)) &&
      ("benchmark_requests" in e && e["benchmark_requests"].VInt? && e["benchmark_requests"].i != 0 ==>
        c.benchmarkRequests == e["benchmark_requests"].i) &&
      ("dataset_size" in e && e["dataset_size"].VInt? && e["dataset_size"].i != 0 ==>
        c.datasetSize == e["dataset_size"].i) &&
      ("prefill_requests" in e && e["prefill_requests"].VInt? ==> c.prefillRequests == e["prefill_requests"].i) &&
      ("benchmark_duration_s" in e && e["benchmark_duration_s"].VReal? ==>
        c.benchmarkDurationS == Some(e["benchmark_duration_s"].r))
  {
    var doc := VDict(map["experiment" := VDict(e)]);
    assert Or(doc, VDict(map[])) == doc;
    if e != map[] {
      assert Or(Lookup(doc.d, "experiment", VDict(map[])), VDict(map[])) == VDict(e);
    }
  }

  /** A document listing batch sizes 1 and 2 overrides a command-line
      batch size of 8. */
  lemma BatchSizesOverride(args: Args)
    requires IntArgs(args) && args.batchSize == VInt(8)
    ensures FromSources(VDict(map["experiment" := VDict(map["batch_sizes" := VList([VInt(1), VInt(2)])])]), args).Ok?
    ensures FromSources(VDict(map["experiment" := VDict(map["batch_sizes" := VList([VInt(1), VInt(2)])])]), args)
      .value.batchSizes == [1, 2]
  {
    var e := map["batch_sizes" := VList([VInt(1), VInt(2)])];
    assert Ints([VInt(1), VInt(2)]) == Ok([1, 2]) by {
      var items := [VInt(1), VInt(2)];
      assert items[..|items| - 1] == [VInt(1)];
      IntsOne(VInt(1));
      assert IntOf(VInt(1)) == Ok(1) && IntOf(items[|items| - 1]) == Ok(2);
      assert [1] + [2] == [1, 2];
    }
    assert ListSetting(e, "batch_sizes", args.batchSize) == Ok([1, 2]);
    DocumentValuesWin(args, e);
    var c := FromSources(VDict(map["experiment" := VDict(e)]), args).value;
    assert Ints([VInt(1), VInt(2)]) == Ok(c.batchSizes);
    assert IntOf(VInt(1)) == Ok(1) && IntOf(VInt(2)) == Ok(2);
  }
}
