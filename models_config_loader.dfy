/** Loading a client-side experiment configuration
    (`src/models/config_loader.py`): the experiment document is merged over
    `base_config.yaml` from the same directory, and the merged dictionary
    is read section by section into the typed configuration. File reads
    are parameters: whether the file exists and the documents the two
    files load to. The typed records hold the loaded values as they are;
    the type checks of the configuration classes are not modelled. */
module ModelsConfigLoader {
  import opened Wrappers
  import opened ConfigValue
  import FileNames

  const DefaultModelName: string := "cross-encoder/ms-marco-MiniLM-L-6-v2"

  /** `ModelConfig` as the loader fills it. */
  datatype ModelEntry = ModelEntry(
    name: Value, device: Value, backend: Value, quantization: Value, compileModel: Value, maxLength: Value)

  /** The keys an instance entry is read from. */
  datatype Field = Name | Device | Backend | Quantization | Compile | MaxLength

  function KeyOf(f: Field): string
  {
    match f
    case Name => "name"
    case Device => "device"
    case Backend => "backend"
    case Quantization => "quantization"
    case Compile => "compile"
    case MaxLength => "max_length"
  }

  /** The field of an entry a key fills. */
  function Pick(e: ModelEntry, f: Field): Value
  {
    match f
    case Name => e.name
    case Device => e.device
    case Backend => e.backend
    case Quantization => e.quantization
    case Compile => e.compileModel
    case MaxLength => e.maxLength
  }

  /** The value a missing key falls back on; the quantization of a pool
      instance is `quant` instead. */
  function Fallback(f: Field, quant: Value): Value
  {
    match f
    case Name => VStr(DefaultModelName)
    case Device => VStr("mps")
    case Backend => VStr("mps")
    case Quantization => quant
    case Compile => VBool(false)
    case MaxLength => VInt(512)
  }

  /** `ModelConfig(name=name)`: every other field at the class default. */
  function NamedDefault(name: string): ModelEntry
  {
    ModelEntry(VStr(name), VStr("mps"), VStr("mps"), VStr("fp16"), VBool(false), VInt(512))
  }

  /** The quantization a pool instance without one falls back on:
      `use_fp16`, true when missing, picks "fp16", otherwise "fp32". */
  function Fp16Fallback(m: Dict): (r: Value)
    ensures r == VStr("fp16") <==> "use_fp16" !in m || Truthy(m["use_fp16"])
    ensures r == VStr("fp16") || r == VStr("fp32")
  {
    if Truthy(Lookup(m, "use_fp16", VBool(true))) then VStr("fp16") else VStr("fp32")
  }

  /** One instance entry: keys the entry has are kept, missing ones fall
      back. A pool entry's quantization falls back on `use_fp16`, any
      other on "fp16". Only a dictionary has `get`. */
  function EntryOf(m: Value, pool: bool): (r: Result<ModelEntry>)
    ensures !m.VDict? <==> r == Err(AttributeError("get"))
    ensures r.Ok? ==> forall f :: KeyOf(f) in m.d ==> Pick(r.value, f) == m.d[KeyOf(f)]
    ensures r.Ok? ==> forall f :: KeyOf(f) !in m.d ==>
      Pick(r.value, f) == Fallback(f, if pool then Fp16Fallback(m.d) else VStr("fp16"))
  {
    if !m.VDict? then Err(AttributeError("get"))
    else
      var quant := if pool then Fp16Fallback(m.d) else VStr("fp16");
      var e := ModelEntry(
        Lookup(m.d, KeyOf(Name), Fallback(Name, quant)),
        Lookup(m.d, KeyOf(Device), Fallback(Device, quant)),
        Lookup(m.d, KeyOf(Backend), Fallback(Backend, quant)),
        Lookup(m.d, KeyOf(Quantization), Fallback(Quantization, quant)),
        Lookup(m.d, KeyOf(Compile), Fallback(Compile, quant)),
        Lookup(m.d, KeyOf(MaxLength), Fallback(MaxLength, quant)));
      assert forall f :: Pick(e, f) == Lookup(m.d, KeyOf(f), Fallback(f, quant));
      Ok(e)
  }

  /** Where the instances are read from, in order of precedence;
      `Unsearchable` when the guard on `model_pool` raises `TypeError`. */
  datatype Source = Pool(instances: Value) | Listed(models: Value) | Single(model: Value) | Absent | Unsearchable

  function SourceOf(data: Dict): (s: Source)
    ensures s.Unsearchable? <==> GuardedRead(data, "model_pool", "instances").Err?
    ensures s.Pool? <==> "model_pool" in data && Has(data["model_pool"], "instances")
    ensures s.Pool? ==> s.instances == data["model_pool"].d["instances"]
    ensures s.Listed? <==> GuardedRead(data, "model_pool", "instances") == Ok(None) && "models" in data
    ensures s.Single? <==> (GuardedRead(data, "model_pool", "instances") == Ok(None) &&
      "models" !in data && "model" in data)
  {
    match GuardedRead(data, "model_pool", "instances")
    case Err(_) => Unsearchable
    case Ok(Some(v)) => Pool(v)
    case Ok(None) =>
      if "models" in data then Listed(data["models"])
      else if "model" in data then Single(data["model"])
      else Absent
  }

  /** `for m in v`: a list yields its items. An empty string or
      dictionary yields nothing; a non-empty one yields strings
      (characters, keys), and a string has no `get`, so the first entry
      already fails. Other values cannot be iterated. */
  function Elements(v: Value): (r: Result<seq<Value>>)
    ensures v.VList? ==> r == Ok(v.items)
    ensures (v.VNone? || v.VBool? || v.VInt? || v.VReal?) <==> r == Err(TypeError)
  {
    match v
    case VList(items) => Ok(items)
    case VStr(s) => if s == "" then Ok([]) else Err(AttributeError("get"))
    case VDict(d) => if d == map[] then Ok([]) else Err(AttributeError("get"))
    case _ => Err(TypeError)
  }

  /** The entries of a list of instances, in order; the first entry that
      is not a dictionary stops the loop. */
  function Entries(items: seq<Value>, pool: bool): (r: Result<seq<ModelEntry>>)
    ensures r.Ok? <==> forall i :: 0 <= i < |items| ==> items[i].VDict?
    ensures r.Err? ==> r == Err(AttributeError("get"))
    ensures r.Ok? ==> (|r.value| == |items| &&
      forall i :: 0 <= i < |items| ==> EntryOf(items[i], pool) == Ok(r.value[i]))
  {
    if items == [] then Ok([])
    else
      var init := items[..|items| - 1];
      match Entries(init, pool)
      case Err(e) => Err(e)
      case Ok(es) =>
        match EntryOf(items[|items| - 1], pool)
        case Err(e) => Err(e)
        case Ok(x) => Ok(es + [x])
  }

  /** The instances of the merged configuration, as the loader means
      them: `model_pool.instances`, else `models`, else `model`, else one
      instance with every field at its default. */
  function Instances(data: Dict): (r: Result<seq<ModelEntry>>)
    ensures SourceOf(data).Absent? ==> r == Ok([NamedDefault(DefaultModelName)])
    ensures SourceOf(data).Single? ==> r.Ok? ==> |r.value| == 1
    ensures SourceOf(data).Unsearchable? ==> r == Err(TypeError)
  {
    match SourceOf(data)
    case Pool(v) => (match Elements(v) case Err(e) => Err(e) case Ok(items) => Entries(items, true))
    case Listed(v) => (match Elements(v) case Err(e) => Err(e) case Ok(items) => Entries(items, false))
    case Single(m) => (match EntryOf(m, false) case Err(e) => Err(e) case Ok(x) => Ok([x]))
    case Absent => Ok([NamedDefault(DefaultModelName)])
    case Unsearchable => Err(TypeError)
  }

  /** `_parse_model_instances` as written: without any model section it
      builds `ModelConfig()`, whose `name` has no default, so the
      configuration class refuses it. */
  function InstancesAsWritten(data: Dict): (r: Result<seq<ModelEntry>>)
    ensures !SourceOf(data).Absent? ==> r == Instances(data)
  {
    if SourceOf(data).Absent? then Err(ValidationError("name")) else Instances(data)
  }

  /** The discrepancy: an empty configuration, for which the loader's own
      tests expect one default instance, fails as written; the corrected
      loader gives the instance an empty `model` section would give. */
  lemma EmptyConfigInstances()
    ensures InstancesAsWritten(map[]) == Err(ValidationError("name"))
    ensures Instances(map[]) == Ok([NamedDefault(DefaultModelName)])
    ensures Instances(map[]) == Instances(map["model" := VDict(map[])])
  {
    var m := VDict(map[]);
    var e := EntryOf(m, false).value;
    assert forall f :: Pick(e, f) == Pick(NamedDefault(DefaultModelName), f);
    assert e == NamedDefault(DefaultModelName);
  }

  /** The loop of `_parse_model_instances(data)` over the chosen source,
      with the server loader's named default instance. */
  method ParseModelInstances(data: Dict) returns (r: Result<seq<ModelEntry>>)
    ensures r == Instances(data)
  {
    var src := SourceOf(data);
    if src.Unsearchable? {
      return Err(TypeError);
    }
    if src.Absent? {
      return Ok([NamedDefault(DefaultModelName)]);
    }
    if src.Single? {
      var e := EntryOf(src.model, false);
      if e.Err? {
        return Err(e.error);
      }
      return Ok([e.value]);
    }
    var pool := src.Pool?;
    var items := Elements(if pool then src.instances else src.models);
    if items.Err? {
      return Err(items.error);
    }
    var all := items.value;
    var instances := [];
    for i := 0 to |all|
      invariant Entries(all[..i], pool) == Ok(instances)
    {
      assert all[..i + 1][..i] == all[..i];
      var e := EntryOf(all[i], pool);
      if e.Err? {
        return Err(e.error);
      }
      instances := instances + [e.value];
    }
    assert all[..|all|] == all;
    return Ok(instances);
  }

  /** `model_pool.instances` wins over `models` and `model`. */
  lemma PoolFirst(data: Dict, x: Value, y: Value)
    requires SourceOf(data).Pool?
    ensures Instances(data["models" := x]["model" := y]) == Instances(data)
  {
    var d := data["models" := x]["model" := y];
    assert d["model_pool"] == data["model_pool"];
  }

  /** `models` wins over `model`. */
  lemma ListedBeforeSingle(data: Dict, y: Value)
    requires SourceOf(data).Listed?
    ensures Instances(data["model" := y]) == Instances(data)
  {
    var d := data["model" := y];
    assert "model_pool" in d ==> d["model_pool"] == data["model_pool"];
  }

  /** A pool entry without `quantization` takes "fp32" exactly when it
      sets `use_fp16` to a false value; a `models` entry takes "fp16". */
  lemma PoolQuantization(m: Dict)
    requires "quantization" !in m
    ensures EntryOf(VDict(m), true).value.quantization == VStr("fp32") <==>
      "use_fp16" in m && !Truthy(m["use_fp16"])
    ensures EntryOf(VDict(m), false).value.quantization == VStr("fp16")
  {
    assert Pick(EntryOf(VDict(m), true).value, Quantization) == Fp16Fallback(m);
    assert Pick(EntryOf(VDict(m), false).value, Quantization) == VStr("fp16");
  }

  /** `BatchConfig`. */
  datatype BatchConfig = BatchConfig(enabled: Value, maxBatchSize: Value, timeoutMs: Value, lengthAware: Value)

  /** `TokenizerPoolConfig`. */
  datatype TokenizerPoolConfig = TokenizerPoolConfig(enabled: Value, numWorkers: Value, modelName: Value)

  /** `ServerConfig`. */
  datatype ServerConfig = ServerConfig(host: Value, grpcPort: Value, httpPort: Value, grpcWorkers: Value)

  /** The class defaults, used when a section is missing. */
  const DefaultBatch := BatchConfig(VBool(false), VInt(8), VInt(100), VBool(false))
  const DefaultTokenizer := TokenizerPoolConfig(VBool(true), VInt(3), VStr(""))
  const DefaultServer := ServerConfig(VStr("0.0.0.0"), VInt(50051), VInt(8080), VInt(10))

  /** A section that is present: only a dictionary has `get`. */
  function Section(data: Dict, key: string): (r: Result<Option<Dict>>)
    ensures key !in data <==> r == Ok(None)
    ensures key in data && data[key].VDict? ==> r == Ok(Some(data[key].d))
    ensures r.Ok? && r.value.Some? ==> key in data && data[key] == VDict(r.value.value)
    ensures r.Err? ==> r == Err(AttributeError("get"))
  {
    if key !in data then Ok(None)
    else match data[key]
      case VDict(d) => Ok(Some(d))
      case _ => Err(AttributeError("get"))
  }

  /** `_parse_batching_config`: the class defaults for a missing section;
      otherwise each key the section has, and the same defaults for the
      others. */
  function ParseBatching(data: Dict): (r: Result<BatchConfig>)
    ensures r.Err? <==> Section(data, "batching").Err?
    ensures "batching" !in data ==> r == Ok(DefaultBatch)
    ensures r.Ok? && "batching" in data ==> var b := data["batching"].d;
      ("enabled" in b ==> r.value.enabled == b["enabled"]) &&
      ("max_batch_size" in b ==> r.value.maxBatchSize == b["max_batch_size"]) &&
      ("timeout_ms" in b ==> r.value.timeoutMs == b["timeout_ms"]) &&
      ("length_aware" in b ==> r.value.lengthAware == b["length_aware"])
  {
    match Section(data, "batching")
    case Err(e) => Err(e)
    case Ok(None) => Ok(DefaultBatch)
    case Ok(Some(b)) =>
      Ok(BatchConfig(
        Lookup(b, "enabled", VBool(false)), Lookup(b, "max_batch_size", VInt(8)),
        Lookup(b, "timeout_ms", VInt(100)), Lookup(b, "length_aware", VBool(false))))
  }

  /** `_parse_tokenizer_pool_config`. The keys of a present section fall
      back on disabled and one worker, not on the class defaults. */
  function ParseTokenizer(data: Dict): (r: Result<TokenizerPoolConfig>)
    ensures r.Err? <==> Section(data, "tokenizer_pool").Err?
    ensures "tokenizer_pool" !in data ==> r == Ok(DefaultTokenizer)
    ensures r.Ok? && "tokenizer_pool" in data ==> var t := data["tokenizer_pool"].d;
      ("enabled" in t ==> r.value.enabled == t["enabled"]) &&
      ("num_workers" in t ==> r.value.numWorkers == t["num_workers"]) &&
      ("model_name" in t ==> r.value.modelName == t["model_name"])
  {
    match Section(data, "tokenizer_pool")
    case Err(e) => Err(e)
    case Ok(None) => Ok(DefaultTokenizer)
    case Ok(Some(t)) =>
      Ok(TokenizerPoolConfig(
        Lookup(t, "enabled", VBool(false)), Lookup(t, "num_workers", VInt(1)), Lookup(t, "model_name", VStr(""))))
  }

  /** `_parse_server_config`. */
  function ParseServer(data: Dict): (r: Result<ServerConfig>)
    ensures r.Err? <==> Section(data, "server").Err?
    ensures "server" !in data ==> r == Ok(DefaultServer)
    ensures r.Ok? && "server" in data ==> var s := data["server"].d;
      ("host" in s ==> r.value.host == s["host"]) &&
      ("grpc_port" in s ==> r.value.grpcPort == s["grpc_port"]) &&
      ("http_port" in s ==> r.value.httpPort == s["http_port"]) &&
      ("grpc_workers" in s ==> r.value.grpcWorkers == s["grpc_workers"])
  {
    match Section(data, "server")
    case Err(e) => Err(e)
    case Ok(None) => Ok(DefaultServer)
    case Ok(Some(s)) =>
      Ok(ServerConfig(
        Lookup(s, "host", VStr("0.0.0.0")), Lookup(s, "grpc_port", VInt(50051)),
        Lookup(s, "http_port", VInt(8080)), Lookup(s, "grpc_workers", VInt(10))))
  }

  /** An empty batching or server section reads like a missing one; an
      empty tokenizer-pool section does not: it is disabled with one
      worker, where a missing one is enabled with three. */
  lemma SectionDefaults()
    ensures ParseBatching(map["batching" := VDict(map[])]) == ParseBatching(map[])
    ensures ParseServer(map["server" := VDict(map[])]) == ParseServer(map[])
    ensures ParseTokenizer(map["tokenizer_pool" := VDict(map[])]) == Ok(TokenizerPoolConfig(VBool(false), VInt(1), VStr("")))
    ensures ParseTokenizer(map[]).value.enabled == VBool(true)
  {
  }

  /** `Config`. */
  datatype Config = Config(
    instances: seq<ModelEntry>, tokenizerPool: TokenizerPoolConfig, batching: BatchConfig,
    server: ServerConfig, name: Value, description: Value)

  /** `yaml.safe_load(f) or {}`. */
  function Document(v: Value): (r: Value)
    ensures Truthy(v) ==> r == v
    ensures !Truthy(v) ==> r == VDict(map[])
  {
    Or(v, VDict(map[]))
  }

  /** The configuration of a merged dictionary, section by section, with
      the instances as written: a dictionary without any model section
      fails. */
  function Build(data: Dict): (r: Result<Config>)
    ensures r.Ok? <==> (InstancesAsWritten(data).Ok? && ParseBatching(data).Ok? &&
      ParseTokenizer(data).Ok? && ParseServer(data).Ok?)
    ensures r.Ok? ==> r.value.instances == InstancesAsWritten(data).value && r.value.batching == ParseBatching(data).value
    ensures r.Ok? ==> r.value.name == Lookup(data, "name", VStr(""))
    ensures SourceOf(data).Absent? ==> r == Err(ValidationError("name"))
  {
    match InstancesAsWritten(data)
    case Err(e) => Err(e)
    case Ok(instances) =>
      match ParseBatching(data)
      case Err(e) => Err(e)
      case Ok(batching) =>
        match ParseTokenizer(data)
        case Err(e) => Err(e)
        case Ok(tokenizer) =>
          match ParseServer(data)
          case Err(e) => Err(e)
          case Ok(server) =>
            Ok(Config(instances, tokenizer, batching, server,
              Lookup(data, "name", VStr("")), Lookup(data, "description", VStr(""))))
  }

  /** What `load_config` returns for a file that exists or not, the
      document of `base_config.yaml` beside it (`None` when there is no
      such file) and the file's own document. */
  function Loaded(path: string, found: bool, baseDoc: Option<Value>, expDoc: Value): (r: Result<Config>)
    ensures !found <==> r == Err(FileNotFoundError("Config not found: " + path))
  {
    if !found then Err(FileNotFoundError("Config not found: " + path))
    else
      match MergeDocuments(Document(baseDoc.GetOr(VDict(map[]))), Document(expDoc))
      case Err(e) => Err(e)
      case Ok(data) => Build(data)
  }

  /** `load_config(config_path)`. */
  method LoadConfig(path: string, found: bool, baseDoc: Option<Value>, expDoc: Value) returns (r: Result<Config>)
    ensures r == Loaded(path, found, baseDoc, expDoc)
  {
    if !found {
      return Err(FileNotFoundError("Config not found: " + path));
    }
    var base := Document(baseDoc.GetOr(VDict(map[])));
    var exp := Document(expDoc);
    if !(base.VDict? || base.VList?) {
      return Err(AttributeError("copy"));
    }
    if !exp.VDict? {
      return Err(AttributeError("items"));
    }
    if base.VList? {
      return Err(TypeError);
    }
    var data := DeepMerge(base.d, exp.d);
    if SourceOf(data).Absent? {
      return Err(ValidationError("name"));
    }
    var instances := ParseModelInstances(data);
    if instances.Err? {
      return Err(instances.error);
    }
    var batching := ParseBatching(data);
    if batching.Err? {
      return Err(batching.error);
    }
    var tokenizer := ParseTokenizer(data);
    if tokenizer.Err? {
      return Err(tokenizer.error);
    }
    var server := ParseServer(data);
    if server.Err? {
      return Err(server.error);
    }
    return Ok(Config(instances.value, tokenizer.value, batching.value, server.value,
      Lookup(data, "name", VStr("")), Lookup(data, "description", VStr(""))));
  }

  /** Two non-empty documents load to the configuration of their merge. */
  lemma LoadedMerges(path: string, base: Dict, exp: Dict)
    requires base != map[] && exp != map[]
    ensures Loaded(path, true, Some(VDict(base)), VDict(exp)) == Build(Merged(base, exp))
  {
    assert MergeDocuments(VDict(base), VDict(exp)) == Ok(Merged(base, exp));
  }

  /** The experiment's `name` overrides the base's, and the base's fills
      in when the experiment has none. */
  lemma NameOverride(base: Dict, exp: Dict)
    requires Build(Merged(base, exp)).Ok?
    ensures "name" in exp && !exp["name"].VDict? ==> Build(Merged(base, exp)).value.name == exp["name"]
    ensures "name" !in exp && "name" in base ==> Build(Merged(base, exp)).value.name == base["name"]
  {
  }

  /** A server section only the base has is read from the base. */
  lemma ServerFromBase(base: Dict, exp: Dict)
    requires Build(Merged(base, exp)).Ok? && "server" !in exp
    ensures Build(Merged(base, exp)).value.server == ParseServer(base).value
  {
    var data := Merged(base, exp);
    assert "server" in data <==> "server" in base;
    assert "server" in data ==> data["server"] == base["server"];
  }

  /** `get_experiment_name`: the configuration's name when it is not
      empty, otherwise the file's stem. */
  function ExperimentName(config: Config, path: string): (r: Value)
    ensures Truthy(config.name) ==> r == config.name
    ensures !Truthy(config.name) ==> r == VStr(FileNames.Stem(path))
  {
    if Truthy(config.name) then config.name else VStr(FileNames.Stem(path))
  }

  /** An unnamed experiment in `<dir>/<base>.yaml` is called `base`. */
  lemma UnnamedUsesFileName(config: Config, dir: string, base: string)
    requires !Truthy(config.name) && base != "" && base != "." && '/' !in base
    ensures ExperimentName(config, dir + "/" + base + ".yaml") == VStr(base)
  {
    FileNames.YamlFile(dir, base);
  }
}
