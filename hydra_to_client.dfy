/** Converting a Hydra experiment configuration into the client's format
    (`scripts/hydra_to_client_config.py`): the name and description, the
    first pool instance as the client's single `model` block, the batching
    section under the client's key names, and the `experiment` section as
    it is. Whether the file exists and the document it loads to are
    parameters. */
module HydraToClient {
  import opened Wrappers
  import opened ConfigValue
  import MlConfigLoader
  import ModelsConfigLoader

  /** The file read: the path given, else `conf/experiment/<name>.yaml`
      under the project root. */
  function ConfigPath(experimentName: string, projectRoot: string, configPath: Option<string>): (r: string)
    ensures configPath.Some? ==> r == configPath.value
  {
    match configPath
    case Some(p) => p
    case None =>
      MlConfigLoader.JoinPath(MlConfigLoader.JoinPath(MlConfigLoader.JoinPath(projectRoot, "conf"), "experiment"),
                              experimentName + ".yaml")
  }

  /** The precision flags of the model block: "fp16" sets `mps.fp16`,
      "fp32" clears it, "int8" marks the model quantized in mode "int8";
      any other mode adds nothing. */
  function WithQuantization(model: Dict, quantization: Value): (r: Dict)
    ensures forall k :: k in model && k != "mps" && k != "quantized" && k != "quantization_mode" ==>
      k in r && r[k] == model[k]
    ensures ("mps" in r && r["mps"] == VDict(map["fp16" := VBool(true)])) <==
      (quantization == VStr("fp16"))
    ensures ("mps" in r && r["mps"] == VDict(map["fp16" := VBool(false)])) <==
      (quantization == VStr("fp32"))
    ensures (quantization == VStr("int8")) ==>
      ("quantized" in r && r["quantized"] == VBool(true) &&
       "quantization_mode" in r && r["quantization_mode"] == VStr("int8"))
    ensures quantization !in {VStr("fp16"), VStr("fp32"), VStr("int8")} ==> r == model
  {
    if quantization == VStr("fp16") then model["mps" := VDict(map["fp16" := VBool(true)])]
    else if quantization == VStr("fp32") then model["mps" := VDict(map["fp16" := VBool(false)])]
    else if quantization == VStr("int8") then model["quantized" := VBool(true)]["quantization_mode" := VStr("int8")]
    else model
  }

  /** The client's `model` block for one pool instance: its name, backend
      and device (the usual defaults when missing) and its precision
      flags, "fp16" when it names none. */
  function ModelOf(instance: Dict): (r: Dict)
    ensures "name" in r && r["name"] == Lookup(instance, "name", VStr(ModelsConfigLoader.DefaultModelName))
    ensures "backend" in r && r["backend"] == Lookup(instance, "backend", VStr("mps"))
    ensures "device" in r && r["device"] == Lookup(instance, "device", VStr("mps"))
  {
    var model := map[
      "name" := Lookup(instance, "name", VStr(ModelsConfigLoader.DefaultModelName)),
      "backend" := Lookup(instance, "backend", VStr("mps")),
      "device" := Lookup(instance, "device", VStr("mps"))];
    WithQuantization(model, Lookup(instance, "quantization", VStr("fp16")))
  }

  /** The model block for `model_pool.instances`: none for an empty (or
      falsy) value, else that of the first instance. Only a list can give
      one: a dictionary has no key 0, a string's first character has no
      `get`, and a number or `True` has no length. */
  function FirstModel(instances: Value): (r: Result<Option<Dict>>)
    ensures !Truthy(instances) ==> r == Ok(None)
    ensures r.Ok? && r.value.Some? ==> (instances.VList? && instances.items != [] &&
      instances.items[0].VDict? && r.value.value == ModelOf(instances.items[0].d))
    ensures instances.VList? && instances.items != [] ==>
      (r.Ok? <==> instances.items[0].VDict?)
  {
    if !Truthy(instances) then Ok(None)
    else
      match instances
      case VList(items) =>
        if items[0].VDict? then Ok(Some(ModelOf(items[0].d))) else Err(AttributeError("get"))
      case VDict(_) => Err(KeyError("0"))
      case VStr(_) => Err(AttributeError("get"))
      case _ => Err(TypeError)
  }

  /** The client's batching section: the same settings under the client's
      key names, with the converter's own defaults. */
  function BatchingOf(batching: Dict): (r: Dict)
    ensures r.Keys == {"enabled", "max_batch_size", "timeout_ms", "length_aware_batching"}
    ensures r["enabled"] == Lookup(batching, "enabled", VBool(false))
    ensures r["max_batch_size"] == Lookup(batching, "max_batch_size", VInt(32))
    ensures r["timeout_ms"] == Lookup(batching, "timeout_ms", VInt(100))
    ensures r["length_aware_batching"] == Lookup(batching, "length_aware", VBool(false))
  {
    map[
      "enabled" := Lookup(batching, "enabled", VBool(false)),
      "max_batch_size" := Lookup(batching, "max_batch_size", VInt(32)),
      "timeout_ms" := Lookup(batching, "timeout_ms", VInt(100)),
      "length_aware_batching" := Lookup(batching, "length_aware", VBool(false))]
  }

  /** The model block a configuration gives: that of the first entry of
      `model_pool.instances` when there is such a key. */
  function PoolModel(d: Dict): (r: Result<Option<Dict>>)
    ensures GuardedRead(d, "model_pool", "instances").Err? ==> r == Err(TypeError)
    ensures GuardedRead(d, "model_pool", "instances") == Ok(None) ==> r == Ok(None)
    ensures "model_pool" in d && Has(d["model_pool"], "instances") ==> r == FirstModel(d["model_pool"].d["instances"])
  {
    match GuardedRead(d, "model_pool", "instances")
    case Err(e) => Err(e)
    case Ok(None) => Ok(None)
    case Ok(Some(v)) => FirstModel(v)
  }

  /** The client dictionary from its parts: the name and description,
      then the model block, the batching block and the experiment section
      when there are. */
  function Assemble(experimentName: string, d: Dict, model: Option<Dict>, batching: Option<Dict>): (r: Dict)
    ensures "name" in r && r["name"] == Lookup(d, "name", VStr(experimentName))
    ensures "description" in r && r["description"] == Lookup(d, "description", VStr(""))
    ensures "model" in r <==> model.Some?
    ensures model.Some? ==> r["model"] == VDict(model.value)
    ensures "batching" in r <==> batching.Some?
    ensures batching.Some? ==> r["batching"] == VDict(batching.value)
    ensures "experiment" in r <==> "experiment" in d
    ensures "experiment" in d ==> r["experiment"] == d["experiment"]
    ensures r.Keys <= {"name", "description", "model", "batching", "experiment"}
  {
    var named := map["name" := Lookup(d, "name", VStr(experimentName)),
                     "description" := Lookup(d, "description", VStr(""))];
    var withModel := if model.Some? then named["model" := VDict(model.value)] else named;
    var withBatching := if batching.Some? then withModel["batching" := VDict(batching.value)] else withModel;
    if "experiment" in d then withBatching["experiment" := d["experiment"]] else withBatching
  }

  /** The converted dictionary of a loaded document (an empty file loads
      as an empty configuration). */
  function Converted(experimentName: string, doc: Value): (r: Result<Dict>)
    ensures !(doc.VNone? || doc.VDict?) ==> r == Err(AttributeError("get"))
    ensures r.Ok? ==> (var d := if doc.VNone? then map[] else doc.d;
      "name" in r.value && r.value["name"] == Lookup(d, "name", VStr(experimentName)) &&
      "description" in r.value && r.value["description"] == Lookup(d, "description", VStr("")) &&
      ("experiment" in r.value <==> "experiment" in d) &&
      ("experiment" in d ==> r.value["experiment"] == d["experiment"]))
  {
    if !(doc.VNone? || doc.VDict?) then Err(AttributeError("get"))
    else
      var d := if doc.VNone? then map[] else doc.d;
      match PoolModel(d)
      case Err(e) => Err(e)
      case Ok(m) =>
        if "batching" in d && !d["batching"].VDict? then Err(AttributeError("get"))
        else Ok(Assemble(experimentName, d, m, if "batching" in d then Some(BatchingOf(d["batching"].d)) else None))
  }

  /** What `hydra_to_client_config` returns: `doc` is `None` when the file
      does not exist. */
  function Loaded(experimentName: string, projectRoot: string, configPath: Option<string>,
                  doc: Option<Value>): (r: Result<Dict>)
    ensures doc.None? ==> r == Err(FileNotFoundError(ConfigPath(experimentName, projectRoot, configPath)))
    ensures doc.Some? ==> r == Converted(experimentName, doc.value)
  {
    match doc
    case None => Err(FileNotFoundError(ConfigPath(experimentName, projectRoot, configPath)))
    case Some(v) => Converted(experimentName, v)
  }

  /** `hydra_to_client_config(experiment_name, project_root, config_path)`:
      the client dictionary built key by key. */
  method HydraToClientConfig(experimentName: string, projectRoot: string, configPath: Option<string>,
                             doc: Option<Value>) returns (r: Result<Dict>)
    ensures r == Loaded(experimentName, projectRoot, configPath, doc)
  {
    var path := ConfigPath(experimentName, projectRoot, configPath);
    if doc.None? {
      return Err(FileNotFoundError(path));
    }
    var loaded := doc.value;
    if !(loaded.VNone? || loaded.VDict?) {
      return Err(AttributeError("get"));
    }
    var d := if loaded.VNone? then map[] else loaded.d;
    var client := map["name" := Lookup(d, "name", VStr(experimentName)),
                      "description" := Lookup(d, "description", VStr(""))];
    var guard := GuardedRead(d, "model_pool", "instances");
    if guard.Err? {
      return Err(TypeError);
    }
    if guard.value.Some? {
      var first := FirstModel(guard.value.value);
      if first.Err? {
        return Err(first.error);
      }
      if first.value.Some? {
        client := client["model" := VDict(first.value.value)];
      }
    }
    if "batching" in d {
      var batching := d["batching"];
      if !batching.VDict? {
        return Err(AttributeError("get"));
      }
      client := client["batching" := VDict(BatchingOf(batching.d))];
    }
    if "experiment" in d {
      client := client["experiment" := d["experiment"]];
    }
    return Ok(client);
  }

  /** A pool instance's precision reaches the client as flags: "fp16",
      also when the instance names none, sets `mps.fp16`; "fp32" clears
      it; "int8" marks the model quantized. */
  lemma PrecisionFlags(instance: Dict)
    ensures var m := ModelOf(instance);
      ("quantization" !in instance || instance["quantization"] == VStr("fp16") ==>
         "mps" in m && m["mps"] == VDict(map["fp16" := VBool(true)])) &&
      ("quantization" in instance && instance["quantization"] == VStr("fp32") ==>
         "mps" in m && m["mps"] == VDict(map["fp16" := VBool(false)])) &&
      ("quantization" in instance && instance["quantization"] == VStr("int8") ==>
         "quantized" in m && m["quantized"] == VBool(true) && "mps" !in m)
  {
  }

  /** The client loader reads the converted document back as one model
      instance carrying the first pool instance's name, device and
      backend; a key the instance leaves out falls back on the same
      default on both sides. The precision travels only as the flags: the
      instance's `quantization` is read back as the client default
      "fp16". */
  lemma ClientReadsFirstInstance(experimentName: string, cfg: Dict, rest: seq<Value>, instance: Dict)
    requires "model_pool" in cfg && cfg["model_pool"].VDict?
    requires "instances" in cfg["model_pool"].d
    requires cfg["model_pool"].d["instances"] == VList([VDict(instance)] + rest)
    requires "batching" !in cfg || cfg["batching"].VDict?
    ensures var r := Converted(experimentName, VDict(cfg));
      r.Ok? && ModelsConfigLoader.InstancesAsWritten(r.value).Ok? &&
      (var es := ModelsConfigLoader.InstancesAsWritten(r.value).value;
       |es| == 1 &&
       es[0].name == Lookup(instance, "name", VStr(ModelsConfigLoader.DefaultModelName)) &&
       es[0].device == Lookup(instance, "device", VStr("mps")) &&
       es[0].backend == Lookup(instance, "backend", VStr("mps")) &&
       es[0].quantization == VStr("fp16"))
  {
    var m := ModelOf(instance);
    assert FirstModel(cfg["model_pool"].d["instances"]) == Ok(Some(m));
    assert PoolModel(cfg) == Ok(Some(m));
    ConvertedModel(experimentName, cfg, m);
    ReadsModelBlock(Converted(experimentName, VDict(cfg)).value, m);
  }

  /** A configuration whose pool gives a model block converts to a
      dictionary holding that block. */
  lemma ConvertedModel(experimentName: string, cfg: Dict, m: Dict)
    requires PoolModel(cfg) == Ok(Some(m))
    requires "batching" !in cfg || cfg["batching"].VDict?
    ensures var r := Converted(experimentName, VDict(cfg));
      r.Ok? && "model" in r.value && r.value["model"] == VDict(m) &&
      r.value.Keys <= {"name", "description", "model", "batching", "experiment"}
  {
  }

  /** A client document whose only model section is a `model` block is
      read as that one block. */
  lemma ReadsModelBlock(data: Dict, m: Dict)
    requires "model" in data && data["model"] == VDict(m)
    requires data.Keys <= {"name", "description", "model", "batching", "experiment"}
    ensures ModelsConfigLoader.InstancesAsWritten(data).Ok?
    ensures var es := ModelsConfigLoader.InstancesAsWritten(data).value;
      |es| == 1 &&
      es[0].name == Lookup(m, "name", VStr(ModelsConfigLoader.DefaultModelName)) &&
      es[0].device == Lookup(m, "device", VStr("mps")) &&
      es[0].backend == Lookup(m, "backend", VStr("mps")) &&
      es[0].quantization == Lookup(m, "quantization", VStr("fp16"))
  {
    assert "model_pool" !in data && "models" !in data;
    assert ModelsConfigLoader.SourceOf(data) == ModelsConfigLoader.Single(VDict(m));
    var e := ModelsConfigLoader.EntryOf(VDict(m), false);
    assert ModelsConfigLoader.Pick(e.value, ModelsConfigLoader.Name) == Lookup(m, "name", VStr(ModelsConfigLoader.DefaultModelName));
    assert ModelsConfigLoader.Pick(e.value, ModelsConfigLoader.Device) == Lookup(m, "device", VStr("mps"));
    assert ModelsConfigLoader.Pick(e.value, ModelsConfigLoader.Backend) == Lookup(m, "backend", VStr("mps"));
    assert ModelsConfigLoader.Pick(e.value, ModelsConfigLoader.Quantization) == Lookup(m, "quantization", VStr("fp16"));
  }

  /** The batching settings keep their values under the client's names;
      a missing setting takes the converter's default. */
  lemma BatchingRenamed(experimentName: string, cfg: Dict, b: Dict)
    requires "batching" in cfg && cfg["batching"] == VDict(b)
    requires "model_pool" !in cfg
    ensures var r := Converted(experimentName, VDict(cfg));
      r.Ok? && "batching" in r.value && r.value["batching"] == VDict(BatchingOf(b)) &&
      ("length_aware" in b ==> BatchingOf(b)["length_aware_batching"] == b["length_aware"])
  {
  }
}
