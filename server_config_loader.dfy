/** Loading the server's configuration (`src/server/utils/config_loader.py`):
    the same merge of an experiment file over `base_config.yaml` and the
    same instance precedence as the client-side loader, with a named
    default instance, a server section that also reads `port` and
    `prometheus_port`, and the conversion of a Hydra-composed
    configuration. The configuration classes of `src/server/dto/config.py`
    are not part of this model: their defaults are taken to be the
    fallbacks the loader spells out. */
module ServerConfigLoader {
  import opened Wrappers
  import opened ConfigValue
  import opened ModelsConfigLoader
  import FileNames

  /** The server section of the server's `Config`. */
  datatype ServerNetwork = ServerNetwork(
    host: Value, grpcPort: Value, httpPort: Value, prometheusPort: Value, grpcWorkers: Value)

  const DefaultNetwork := ServerNetwork(VStr("0.0.0.0"), VInt(50051), VInt(8080), VInt(8000), VInt(10))

  /** `_parse_server_config`: `grpc_port` falls back on `port`, then on
      50051; `prometheus_port` falls back on 8000. */
  function ParseNetwork(data: Dict): (r: Result<ServerNetwork>)
    ensures r.Err? <==> Section(data, "server").Err?
    ensures "server" !in data ==> r == Ok(DefaultNetwork)
  {
    match Section(data, "server")
    case Err(e) => Err(e)
    case Ok(None) => Ok(DefaultNetwork)
    case Ok(Some(s)) =>
      Ok(ServerNetwork(
        Lookup(s, "host", VStr("0.0.0.0")), Lookup(s, "grpc_port", Lookup(s, "port", VInt(50051))),
        Lookup(s, "http_port", VInt(8080)), Lookup(s, "prometheus_port", VInt(8000)),
        Lookup(s, "grpc_workers", VInt(10))))
  }

  /** The gRPC port: `grpc_port` if given, else `port`, else 50051. */
  lemma GrpcPortPrecedence(s: Dict)
    ensures var n := ParseNetwork(map["server" := VDict(s)]).value;
      ("grpc_port" in s ==> n.grpcPort == s["grpc_port"]) &&
      ("grpc_port" !in s && "port" in s ==> n.grpcPort == s["port"]) &&
      ("grpc_port" !in s && "port" !in s ==> n.grpcPort == VInt(50051)) &&
      ("prometheus_port" !in s ==> n.prometheusPort == VInt(8000))
  {
    assert Section(map["server" := VDict(s)], "server") == Ok(Some(s));
  }

  /** The server's `Config`. */
  datatype ServerSideConfig = ServerSideConfig(
    instances: seq<ModelEntry>, tokenizerPool: TokenizerPoolConfig, batching: BatchConfig,
    server: ServerNetwork, name: Value, description: Value)

  /** The configuration of a merged dictionary, section by section; the
      instances are read as by the client-side loader, whose default is
      the named instance this loader builds. */
  function Build(data: Dict): (r: Result<ServerSideConfig>)
    ensures r.Ok? <==> (Instances(data).Ok? && ParseBatching(data).Ok? &&
      ParseTokenizer(data).Ok? && ParseNetwork(data).Ok?)
    ensures r.Ok? ==> r.value.instances == Instances(data).value && r.value.server == ParseNetwork(data).value
    ensures r.Ok? && SourceOf(data).Absent? ==> r.value.instances == [NamedDefault(DefaultModelName)]
  {
    match Instances(data)
    case Err(e) => Err(e)
    case Ok(instances) =>
      match ParseBatching(data)
      case Err(e) => Err(e)
      case Ok(batching) =>
        match ParseTokenizer(data)
        case Err(e) => Err(e)
        case Ok(tokenizer) =>
          match ParseNetwork(data)
          case Err(e) => Err(e)
          case Ok(server) =>
            Ok(ServerSideConfig(instances, tokenizer, batching, server,
              Lookup(data, "name", VStr("")), Lookup(data, "description", VStr(""))))
  }

  /** What `load_config` returns, from the same inputs as the client-side
      loader. */
  function Loaded(path: string, found: bool, baseDoc: Option<Value>, expDoc: Value): (r: Result<ServerSideConfig>)
    ensures !found <==> r == Err(FileNotFoundError("Config not found: " + path))
  {
    if !found then Err(FileNotFoundError("Config not found: " + path))
    else
      match MergeDocuments(Document(baseDoc.GetOr(VDict(map[]))), Document(expDoc))
      case Err(e) => Err(e)
      case Ok(data) => Build(data)
  }

  /** `load_config(config_path)`. */
  method LoadConfig(path: string, found: bool, baseDoc: Option<Value>, expDoc: Value) returns (r: Result<ServerSideConfig>)
    ensures r == Loaded(path, found, baseDoc, expDoc)
  {
    if !found {
      return Err(FileNotFoundError("Config not found: " + path));
    }
    var base := Document(baseDoc.GetOr(VDict(map[])));
    var exp := Document(expDoc);
    if !(base.VDict? || base.VList?) {
      return Err(AttributeError("copy"));
    }
    if !exp.VDict? {
      return Err(AttributeError("items"));
    }
    if base.VList? {
      return Err(TypeError);
    }
    var data := DeepMerge(base.d, exp.d);
    var instances := ParseModelInstances(data);
    if instances.Err? {
      return Err(instances.error);
    }
    var batching := ParseBatching(data);
    if batching.Err? {
      return Err(batching.error);
    }
    var tokenizer := ParseTokenizer(data);
    if tokenizer.Err? {
      return Err(tokenizer.error);
    }
    var server := ParseNetwork(data);
    if server.Err? {
      return Err(server.error);
    }
    return Ok(ServerSideConfig(instances.value, tokenizer.value, batching.value, server.value,
      Lookup(data, "name", VStr("")), Lookup(data, "description", VStr(""))));
  }

  /** An empty experiment with no base loads one default instance here,
      where the client-side loader as written refuses it. */
  lemma EmptyFileLoads(path: string)
    ensures Loaded(path, true, None, VNone).Ok?
    ensures Loaded(path, true, None, VNone).value.instances == [NamedDefault(DefaultModelName)]
    ensures ModelsConfigLoader.Loaded(path, true, None, VNone) == Err(ValidationError("name"))
  {
    assert MergeDocuments(VDict(map[]), VDict(map[])) == Ok(Merged(map[], map[]));
    MergeEmpty(map[]);
    assert Merged(map[], map[]) == map[];
    EmptyConfigInstances();
  }

  /** An instance of a Hydra configuration: the pool form with
      `compile_model`, `compile_mode` and `onnx_optimize`. */
  datatype HydraEntry = HydraEntry(
    name: Value, device: Value, backend: Value, quantization: Value, compileModel: Value,
    compileMode: Value, maxLength: Value, onnxOptimize: Value)

  /** One instance entry of a Hydra configuration; only a dictionary has
      `get`. */
  function HydraEntryOf(m: Value): (r: Result<HydraEntry>)
    ensures !m.VDict? <==> r == Err(AttributeError("get"))
    ensures r.Ok? ==> (("quantization" !in m.d ==> r.value.quantization == VStr("fp16")) &&
      ("compile_mode" !in m.d ==> r.value.compileMode == VNone) &&
      ("name" in m.d ==> r.value.name == m.d["name"]) &&
      ("name" !in m.d ==> r.value.name == VStr(DefaultModelName)))
  {
    match m
    case VDict(d) =>
      Ok(HydraEntry(
        Lookup(d, "name", VStr(DefaultModelName)), Lookup(d, "device", VStr("mps")),
        Lookup(d, "backend", VStr("mps")), Lookup(d, "quantization", VStr("fp16")),
        Lookup(d, "compile_model", VBool(false)), Lookup(d, "compile_mode", VNone),
        Lookup(d, "max_length", VInt(512)), Lookup(d, "onnx_optimize", VBool(true))))
    case _ => Err(AttributeError("get"))
  }

  /** The instance a Hydra configuration without a pool gets. */
  function HydraDefault(): HydraEntry
  {
    HydraEntry(VStr(DefaultModelName), VStr("mps"), VStr("mps"), VStr("fp16"), VBool(false), VNone, VInt(512), VBool(true))
  }

  /** The entries of a Hydra instance list, in order; the first entry that
      is not a dictionary stops the loop. */
  function HydraEntries(items: seq<Value>): (r: Result<seq<HydraEntry>>)
    ensures r.Ok? <==> forall i :: 0 <= i < |items| ==> items[i].VDict?
    ensures r.Err? ==> r == Err(AttributeError("get"))
    ensures r.Ok? ==> (|r.value| == |items| &&
      forall i :: 0 <= i < |items| ==> HydraEntryOf(items[i]) == Ok(r.value[i]))
  {
    if items == [] then Ok([])
    else
      match HydraEntries(items[..|items| - 1])
      case Err(e) => Err(e)
      case Ok(es) =>
        match HydraEntryOf(items[|items| - 1])
        case Err(e) => Err(e)
        case Ok(x) => Ok(es + [x])
  }

  /** The instances of a Hydra configuration: `model_pool.instances`, or
      one default instance. */
  function HydraInstances(cfg: Dict): (r: Result<seq<HydraEntry>>)
    ensures GuardedRead(cfg, "model_pool", "instances").Err? ==> r == Err(TypeError)
    ensures GuardedRead(cfg, "model_pool", "instances") == Ok(None) ==> r == Ok([HydraDefault()])
    ensures "model_pool" in cfg && Has(cfg["model_pool"], "instances") ==>
      r == (match Elements(cfg["model_pool"].d["instances"])
            case Err(e) => Err(e)
            case Ok(items) => HydraEntries(items))
  {
    match GuardedRead(cfg, "model_pool", "instances")
    case Err(e) => Err(e)
    case Ok(None) => Ok([HydraDefault()])
    case Ok(Some(v)) =>
      match Elements(v)
      case Err(e) => Err(e)
      case Ok(items) => HydraEntries(items)
  }

  /** The loop of `hydra_config_to_config` over the pool's instances. */
  method ReadHydraInstances(cfg: Dict) returns (r: Result<seq<HydraEntry>>)
    ensures r == HydraInstances(cfg)
  {
    var guard := GuardedRead(cfg, "model_pool", "instances");
    if guard.Err? {
      return Err(TypeError);
    }
    if guard.value.None? {
      return Ok([HydraDefault()]);
    }
    var items := Elements(cfg["model_pool"].d["instances"]);
    if items.Err? {
      return Err(items.error);
    }
    var all := items.value;
    var instances := [];
    for i := 0 to |all|
      invariant HydraEntries(all[..i]) == Ok(instances)
    {
      assert all[..i + 1][..i] == all[..i];
      var e := HydraEntryOf(all[i]);
      if e.Err? {
        return Err(e.error);
      }
      instances := instances + [e.value];
    }
    assert all[..|all|] == all;
    return Ok(instances);
  }

  /** `cfg.get(key, {})`, the section `get` is then called on. */
  function HydraSection(cfg: Dict, key: string): (r: Result<Dict>)
    ensures key !in cfg ==> r == Ok(map[])
    ensures r.Err? <==> key in cfg && !cfg[key].VDict?
    ensures r.Err? ==> r == Err(AttributeError("get"))
  {
    if key !in cfg then Ok(map[])
    else match cfg[key]
      case VDict(d) => Ok(d)
      case _ => Err(AttributeError("get"))
  }

  /** The typed configuration a Hydra configuration converts to. */
  datatype HydraConfig = HydraConfig(
    instances: seq<HydraEntry>, tokenizerPool: TokenizerPoolConfig, batching: BatchConfig,
    server: ServerNetwork, name: Value, description: Value)

  /** `hydra_config_to_config(cfg)`: the tokenizer pool falls back on
      enabled with three workers; the batching timeout goes through
      `float()` and falls back on 100.0; the server section has no `port`
      fallback. */
  function HydraToConfig(cfg: Dict): (r: Result<HydraConfig>)
    ensures (HydraSection(cfg, "tokenizer_pool").Err? || HydraSection(cfg, "batching").Err? ||
      HydraSection(cfg, "server").Err?) ==> r.Err?
    ensures r.Ok? && "tokenizer_pool" !in cfg ==> r.value.tokenizerPool == DefaultTokenizer
    ensures r.Ok? && "batching" !in cfg ==> r.value.batching.timeoutMs == VReal(100.0)
    ensures r.Ok? ==> r.value.batching.timeoutMs.VReal?
    ensures r.Ok? <==>
      HydraInstances(cfg).Ok? && HydraSection(cfg, "tokenizer_pool").Ok? && HydraSection(cfg, "batching").Ok? &&
      HydraSection(cfg, "server").Ok? &&
      FloatOf(Lookup(HydraSection(cfg, "batching").value, "timeout_ms", VReal(100.0))).Ok?
    ensures r.Ok? ==> r.value.instances == HydraInstances(cfg).value
    ensures r.Ok? ==>
      var t := HydraSection(cfg, "tokenizer_pool").value;
      r.value.tokenizerPool.enabled == Lookup(t, "enabled", VBool(true)) &&
      r.value.tokenizerPool.numWorkers == Lookup(t, "num_workers", VInt(3)) &&
      r.value.tokenizerPool.modelName == Lookup(t, "model_name", VStr(""))
    ensures r.Ok? ==>
      var b := HydraSection(cfg, "batching").value;
      r.value.batching.enabled == Lookup(b, "enabled", VBool(false)) &&
      r.value.batching.maxBatchSize == Lookup(b, "max_batch_size", VInt(8)) &&
      r.value.batching.timeoutMs == VReal(FloatOf(Lookup(b, "timeout_ms", VReal(100.0))).value) &&
      r.value.batching.lengthAware == Lookup(b, "length_aware", VBool(false))
    ensures r.Ok? ==>
      var s := HydraSection(cfg, "server").value;
      r.value.server.host == Lookup(s, "host", VStr("0.0.0.0")) &&
      r.value.server.grpcPort == Lookup(s, "grpc_port", VInt(50051)) &&
      r.value.server.httpPort == Lookup(s, "http_port", VInt(8080)) &&
      r.value.server.prometheusPort == Lookup(s, "prometheus_port", VInt(8000)) &&
      r.value.server.grpcWorkers == Lookup(s, "grpc_workers", VInt(10))
    ensures r.Ok? ==> r.value.name == Lookup(cfg, "name", VStr("")) && r.value.description == Lookup(cfg, "description", VStr(""))
  {
    match HydraInstances(cfg)
    case Err(e) => Err(e)
    case Ok(instances) =>
      match HydraSection(cfg, "tokenizer_pool")
      case Err(e) => Err(e)
      case Ok(t) =>
        var tokenizer := TokenizerPoolConfig(
          Lookup(t, "enabled", VBool(true)), Lookup(t, "num_workers", VInt(3)), Lookup(t, "model_name", VStr("")));
        match HydraSection(cfg, "batching")
        case Err(e) => Err(e)
        case Ok(b) =>
          match FloatOf(Lookup(b, "timeout_ms", VReal(100.0)))
          case Err(e) => Err(e)
          case Ok(timeout) =>
            var batching := BatchConfig(
              Lookup(b, "enabled", VBool(false)), Lookup(b, "max_batch_size", VInt(8)),
              VReal(timeout), Lookup(b, "length_aware", VBool(false)));
            match HydraSection(cfg, "server")
            case Err(e) => Err(e)
            case Ok(s) =>
              var server := ServerNetwork(
                Lookup(s, "host", VStr("0.0.0.0")), Lookup(s, "grpc_port", VInt(50051)),
                Lookup(s, "http_port", VInt(8080)), Lookup(s, "prometheus_port", VInt(8000)),
                Lookup(s, "grpc_workers", VInt(10)));
              Ok(HydraConfig(instances, tokenizer, batching, server,
                Lookup(cfg, "name", VStr("")), Lookup(cfg, "description", VStr(""))))
  }

  /** The conversion of a Hydra configuration with no sections at all: one
      default instance, an enabled tokenizer pool of three workers, and
      the batching and server defaults. */
  lemma HydraEmpty()
    ensures HydraToConfig(map[]) == Ok(HydraConfig([HydraDefault()], DefaultTokenizer,
      BatchConfig(VBool(false), VInt(8), VReal(100.0), VBool(false)), DefaultNetwork, VStr(""), VStr("")))
  {
  }

  /** An integer timeout converts to the same number as a float. */
  lemma HydraTimeout(b: Dict, n: int)
    requires b == map["timeout_ms" := VInt(n)]
    ensures HydraToConfig(map["batching" := VDict(b)]).value.batching.timeoutMs == VReal(n as real)
  {
    assert FloatOf(VInt(n)) == Ok(n as real);
  }

  /** `get_experiment_name(config, config_path)`: the name if it is not
      empty, else the path's stem if a path is given, else "experiment". */
  function ExperimentName(name: Value, path: Option<string>): (r: Value)
    ensures Truthy(name) ==> r == name
    ensures !Truthy(name) && (path.None? || path == Some("")) ==> r == VStr("experiment")
  {
    if Truthy(name) then name
    else match path
      case Some(p) => if p != "" then VStr(FileNames.Stem(p)) else VStr("experiment")
      case None => VStr("experiment")
  }

  /** An unnamed experiment in `<dir>/<base>.yaml` is called `base`. */
  lemma UnnamedUsesFileName(name: Value, dir: string, base: string)
    requires !Truthy(name) && base != "" && base != "." && '/' !in base
    ensures ExperimentName(name, Some(dir + "/" + base + ".yaml")) == VStr(base)
  {
    FileNames.YamlFile(dir, base);
  }
}
