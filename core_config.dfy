/** The inference server's typed configuration
    (`ml_inference_server/core/config.py`): the model pool, batching,
    network, experiment and screenshot sections with their field bounds,
    the legacy single-model section, and the conversion of a legacy model
    into a one-instance pool. Pydantic's validation is modelled by the
    `Make...` functions, which refuse what a field constraint refuses. */
module CoreConfig {
  import opened Wrappers

  /** The backends `ModelInstanceConfig.backend` admits. */
  datatype Backend = Pytorch | Mps | Mlx | Onnx | Compiled

  /** The backend a name stands for, if it is one of the admitted names. */
  function ParseBackend(s: string): (b: Option<Backend>)
    ensures b.Some? <==> s in {"pytorch", "mps", "mlx", "onnx", "compiled"}
    ensures b.Some? ==> BackendName(b.value) == s
  {
    if s == "pytorch" then Some(Pytorch)
    else if s == "mps" then Some(Mps)
    else if s == "mlx" then Some(Mlx)
    else if s == "onnx" then Some(Onnx)
    else if s == "compiled" then Some(Compiled)
    else None
  }

  function BackendName(b: Backend): string
  {
    match b
    case Pytorch => "pytorch"
    case Mps => "mps"
    case Mlx => "mlx"
    case Onnx => "onnx"
    case Compiled => "compiled"
  }

  /** `ModelInstanceConfig`. */
  datatype ModelInstanceConfig = ModelInstanceConfig(
    name: string, device: string, backend: Backend, useFp16: bool, compileModel: bool,
    quantizationBits: int, onnxOptimize: bool, onnxUseCoreml: bool, compileMode: string)

  /** An instance with every option at its default. */
  function DefaultInstance(name: string): (c: ModelInstanceConfig)
    ensures c.name == name && c.device == "mps" && c.backend == Mps && c.useFp16 && !c.compileModel
    ensures c.quantizationBits == 16 && c.onnxOptimize && c.onnxUseCoreml && c.compileMode == "reduce-overhead"
  {
    ModelInstanceConfig(name, "mps", Mps, true, false, 16, true, true, "reduce-overhead")
  }

  /** The strategies `ModelPoolConfig.routing_strategy` admits. */
  datatype PoolRouting = RoundRobinRouting | LeastBusyRouting

  function PoolRoutingName(r: PoolRouting): string
  {
    match r
    case RoundRobinRouting => "round_robin"
    case LeastBusyRouting => "least_busy"
  }

  /** `ModelPoolConfig`. */
  datatype ModelPoolConfig = ModelPoolConfig(instances: seq<ModelInstanceConfig>, routingStrategy: PoolRouting)

  /** `BatchingConfig`. */
  datatype BatchingConfig = BatchingConfig(enabled: bool, maxBatchSize: int, timeoutMs: real, lengthAwareBatching: bool)

  /** `ServerNetworkConfig`. */
  datatype ServerNetworkConfig = ServerNetworkConfig(host: string, port: int, httpPort: int, grpcWorkers: int)

  /** `ExperimentConfig`. */
  datatype ExperimentConfig = ExperimentConfig(
    batchSizes: seq<int>, concurrencyLevels: seq<int>, benchmarkRequests: int, warmupIterations: int)

  /** `ScreenshotConfig`. */
  datatype ScreenshotConfig = ScreenshotConfig(enabled: bool, outputDir: string)

  /** The message of a refused field value. */
  const Invalid := "validation error"

  /** A port number: 1 to 65535. */
  predicate IsPort(p: int)
  {
    1 <= p <= 65535
  }

  /** `BatchingConfig(...)`: the batch size must be at least 1 and the
      timeout non-negative. */
  function MakeBatching(enabled: bool, maxBatchSize: int, timeoutMs: real, lengthAware: bool): (r: Result<BatchingConfig>)
    ensures r.Ok? <==> maxBatchSize >= 1 && timeoutMs >= 0.0
    ensures r.Ok? ==> r.value == BatchingConfig(enabled, maxBatchSize, timeoutMs, lengthAware)
    ensures r.Err? ==> r.error.ValueError?
  {
    if maxBatchSize >= 1 && timeoutMs >= 0.0 then Ok(BatchingConfig(enabled, maxBatchSize, timeoutMs, lengthAware))
    else Err(ValueError(Invalid))
  }

  /** `ServerNetworkConfig(...)`: both ports in 1..65535 and at least one
      gRPC worker. */
  function MakeNetwork(host: string, port: int, httpPort: int, grpcWorkers: int): (r: Result<ServerNetworkConfig>)
    ensures r.Ok? <==> IsPort(port) && IsPort(httpPort) && grpcWorkers >= 1
    ensures r.Ok? ==> r.value == ServerNetworkConfig(host, port, httpPort, grpcWorkers)
    ensures r.Err? ==> r.error.ValueError?
  {
    if IsPort(port) && IsPort(httpPort) && grpcWorkers >= 1 then Ok(ServerNetworkConfig(host, port, httpPort, grpcWorkers))
    else Err(ValueError(Invalid))
  }

  /** `ExperimentConfig(...)`: at least one benchmark request and no
      negative warmup count. */
  function MakeExperiment(batchSizes: seq<int>, concurrencyLevels: seq<int>, benchmarkRequests: int,
                          warmupIterations: int): (r: Result<ExperimentConfig>)
    ensures r.Ok? <==> benchmarkRequests >= 1 && warmupIterations >= 0
    ensures r.Ok? ==> r.value == ExperimentConfig(batchSizes, concurrencyLevels, benchmarkRequests, warmupIterations)
    ensures r.Err? ==> r.error.ValueError?
  {
    if benchmarkRequests >= 1 && warmupIterations >= 0 then
      Ok(ExperimentConfig(batchSizes, concurrencyLevels, benchmarkRequests, warmupIterations))
    else Err(ValueError(Invalid))
  }

  /** The defaults of the four sections, which satisfy their bounds. */
  const DefaultBatching := BatchingConfig(false, 8, 100.0, false)
  const DefaultNetwork := ServerNetworkConfig("0.0.0.0", 50051, 8080, 10)
  const DefaultExperiment := ExperimentConfig([1, 8, 16, 32], [1], 100, 10)
  const DefaultScreenshot := ScreenshotConfig(false, "docs/experiments/screenshots")

  lemma DefaultsWithinBounds()
    ensures MakeBatching(false, 8, 100.0, false) == Ok(DefaultBatching)
    ensures MakeNetwork("0.0.0.0", 50051, 8080, 10) == Ok(DefaultNetwork)
    ensures MakeExperiment([1, 8, 16, 32], [1], 100, 10) == Ok(DefaultExperiment)
  {
  }

  /** The legacy backend sections, reduced to the keys the conversion
      reads; an absent key is None. */
  datatype MpsOptions = MpsOptions(fp16: Option<bool>, compile: Option<bool>)
  datatype MlxOptions = MlxOptions(bits: Option<int>)
  datatype OnnxOptions = OnnxOptions(optimize: Option<bool>, useGpu: Option<bool>)
  datatype CompiledOptions = CompiledOptions(mode: Option<string>, fp16: Option<bool>)

  /** `LegacyModelConfig`. Its backend is free text. */
  datatype LegacyModelConfig = LegacyModelConfig(
    name: string, device: string, backend: string, quantized: bool, quantizationMode: string,
    mps: MpsOptions, mlx: MlxOptions, onnx: OnnxOptions, compiled: CompiledOptions)

  /** `LegacyModelConfig(name=...)` with every other field at its default. */
  function DefaultLegacy(name: string): LegacyModelConfig
  {
    LegacyModelConfig(name, "mps", "pytorch", false, "fp16", MpsOptions(None, None), MlxOptions(None),
      OnnxOptions(None, None), CompiledOptions(None, None))
  }

  /** The model the validator installs when neither a pool nor a model is
      configured. */
  const DefaultModelName := "cross-encoder/ms-marco-MiniLM-L-6-v2"

  /** `ServerConfig`. */
  datatype ServerConfig = ServerConfig(
    modelPool: Option<ModelPoolConfig>, model: Option<LegacyModelConfig>, batching: BatchingConfig,
    server: ServerNetworkConfig, experiment: ExperimentConfig, screenshot: ScreenshotConfig)

  /** `ensure_model_config()`: with neither a pool nor a model, the default
      legacy model is installed; otherwise nothing changes. Either way a
      pool or a model is configured afterwards. */
  function EnsureModelConfig(c: ServerConfig): (r: ServerConfig)
    ensures r.modelPool.Some? || r.model.Some?
    ensures c.modelPool.Some? || c.model.Some? ==> r == c
    ensures c.modelPool.None? && c.model.None? ==> r == c.(model := Some(DefaultLegacy(DefaultModelName)))
  {
    if c.modelPool.None? && c.model.None? then c.(model := Some(DefaultLegacy(DefaultModelName))) else c
  }

  /** `_convert_legacy_to_instance(legacy)`: name, device and backend are
      copied; the options come from the backend's own section, an absent
      key taking the option's default; a pytorch or any other backend
      keeps every default. A backend outside the admitted names fails
      validation of the instance. */
  function ConvertLegacy(legacy: LegacyModelConfig): (r: Result<ModelInstanceConfig>)
    ensures r.Err? <==> ParseBackend(legacy.backend).None?
    ensures r.Err? ==> r.error.ValueError?
    ensures r.Ok? ==> (r.value.name == legacy.name && r.value.device == legacy.device &&
      BackendName(r.value.backend) == legacy.backend)
    ensures r.Ok? && legacy.backend == "mps" ==>
      r.value.useFp16 == legacy.mps.fp16.GetOr(true) && r.value.compileModel == legacy.mps.compile.GetOr(false)
    ensures r.Ok? && legacy.backend == "mlx" ==> r.value.quantizationBits == legacy.mlx.bits.GetOr(16)
    ensures r.Ok? && legacy.backend == "onnx" ==>
      r.value.onnxOptimize == legacy.onnx.optimize.GetOr(true) && r.value.onnxUseCoreml == legacy.onnx.useGpu.GetOr(true)
    ensures r.Ok? && legacy.backend == "compiled" ==>
      r.value.compileMode == legacy.compiled.mode.GetOr("reduce-overhead") && r.value.useFp16 == legacy.compiled.fp16.GetOr(true)
    ensures r.Ok? && legacy.backend == "pytorch" ==>
      r.value == DefaultInstance(legacy.name).(device := legacy.device, backend := Pytorch)
  {
    var useFp16 :=
      if legacy.backend == "mps" then legacy.mps.fp16.GetOr(true)
      else if legacy.backend == "compiled" then legacy.compiled.fp16.GetOr(true)
      else true;
    var compileModel := if legacy.backend == "mps" then legacy.mps.compile.GetOr(false) else false;
    var bits := if legacy.backend == "mlx" then legacy.mlx.bits.GetOr(16) else 16;
    var optimize := if legacy.backend == "onnx" then legacy.onnx.optimize.GetOr(true) else true;
    var coreml := if legacy.backend == "onnx" then legacy.onnx.useGpu.GetOr(true) else true;
    var mode := if legacy.backend == "compiled" then legacy.compiled.mode.GetOr("reduce-overhead") else "reduce-overhead";
    match ParseBackend(legacy.backend)
    case None => Err(ValueError(Invalid))
    case Some(b) =>
      Ok(ModelInstanceConfig(legacy.name, legacy.device, b, useFp16, compileModel, bits, optimize, coreml, mode))
  }

  /** `get_model_pool_config()`: the configured pool, or else a pool of the
      converted legacy model with round-robin routing; with neither, a
      ValueError. */
  function GetModelPoolConfig(c: ServerConfig): (r: Result<ModelPoolConfig>)
    ensures c.modelPool.Some? ==> r == Ok(c.modelPool.value)
    ensures c.modelPool.None? && c.model.Some? && ConvertLegacy(c.model.value).Ok? ==>
      r == Ok(ModelPoolConfig([ConvertLegacy(c.model.value).value], RoundRobinRouting))
    ensures c.modelPool.None? && c.model.Some? && ConvertLegacy(c.model.value).Err? ==>
      r == Err(ConvertLegacy(c.model.value).error)
    ensures c.modelPool.None? && c.model.None? ==> r == Err(ValueError("No model configuration found"))
  {
    if c.modelPool.Some? then Ok(c.modelPool.value)
    else if c.model.Some? then
      match ConvertLegacy(c.model.value)
      case Ok(inst) => Ok(ModelPoolConfig([inst], RoundRobinRouting))
      case Err(e) => Err(e)
    else Err(ValueError("No model configuration found"))
  }

  /** Once validated, a configuration always yields a pool, unless its
      legacy model names a backend outside the admitted ones; with no
      model configured at all, the pool is the single default model on
      pytorch. */
  lemma ValidatedConfigHasPool(c: ServerConfig)
    ensures var v := EnsureModelConfig(c);
      GetModelPoolConfig(v).Err? <==> v.modelPool.None? && ParseBackend(v.model.value.backend).None?
    ensures c.modelPool.None? && c.model.None? ==>
      GetModelPoolConfig(EnsureModelConfig(c)) ==
        Ok(ModelPoolConfig([DefaultInstance(DefaultModelName).(backend := Pytorch)], RoundRobinRouting))
  {
  }
}
