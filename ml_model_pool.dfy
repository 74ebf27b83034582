/** The in-process model pool of the inference server
    (`ml_inference_server/server/model_pool.py`): it loads one backend per
    configured instance and hands out backends through its router. A
    backend is its instance configuration; its live busy flag and pending
    count belong to the backend itself and are read through the `loads`
    parameter, position by position. Loading a model, warming it up and
    running inference are calls into the backends and are not modelled. */
module MlModelPool {
  import opened Wrappers
  import opened Routing
  import CC = CoreConfig

  const NotLoadedMessage := "ModelPool not loaded. Call load_all() first."
  const EmptyPoolMessage := "No backends available in pool"

  /** The router strategy of a pool configuration's strategy name. */
  function PoolStrategy(r: CC.PoolRouting): Strategy
  {
    match r
    case RoundRobinRouting => RoundRobin
    case LeastBusyRouting => LeastBusy
  }

  /** `create_router(config.routing_strategy)` never fails: both names a
      pool configuration admits are router names. */
  lemma PoolStrategyParses(r: CC.PoolRouting)
    ensures ParseStrategy(CC.PoolRoutingName(r)) == Ok(PoolStrategy(r))
  {
  }

  /** `sum(1 for b in backends if b.is_busy)`. */
  function BusyCount(loads: seq<Load>): nat
  {
    if loads == [] then 0
    else BusyCount(loads[..|loads| - 1]) + (if loads[|loads| - 1].isBusy then 1 else 0)
  }

  /** `sum(b.pending_requests for b in backends)`. */
  function TotalPending(loads: seq<Load>): int
  {
    if loads == [] then 0 else TotalPending(loads[..|loads| - 1]) + loads[|loads| - 1].pendingRequests
  }

  /** The busy backends and the ones the routers see as available
      partition the pool. */
  lemma {:induction false} BusyCountComplementsAvailable(loads: seq<Load>)
    ensures BusyCount(loads) + |Available(loads)| == |loads|
  {
    if loads != [] {
      BusyCountComplementsAvailable(loads[..|loads| - 1]);
    }
  }

  /** No backend has anything pending exactly when the total is 0, for
      non-negative counts. */
  lemma {:induction false} TotalPendingZero(loads: seq<Load>)
    requires forall i :: 0 <= i < |loads| ==> loads[i].pendingRequests >= 0
    ensures TotalPending(loads) >= 0
    ensures TotalPending(loads) == 0 <==> forall i :: 0 <= i < |loads| ==> loads[i].pendingRequests == 0
  {
    if loads != [] {
      TotalPendingZero(loads[..|loads| - 1]);
      assert forall i :: 0 <= i < |loads| - 1 ==> loads[..|loads| - 1][i] == loads[i];
    }
  }

  /** `get_pool_info()`. The `instances` entries stand for the backends'
      own `get_model_info()`. */
  datatype PoolInfo = PoolInfo(
    numInstances: nat, routingStrategy: string, isLoaded: bool, instances: seq<CC.ModelInstanceConfig>,
    busyCount: nat, totalPending: int)

  /** The `model` section of a legacy dictionary, as far as
      `from_legacy_config` reads it; an absent key is None. */
  datatype LegacyModelSection = LegacyModelSection(
    name: Option<string>, device: Option<string>, backend: Option<string>, mpsFp16: Option<bool>)

  /** `from_legacy_config(config)`'s pool configuration: exactly one
      instance, routed round robin, whose name, device, backend and fp16
      flag come from the section or default to the MiniLM cross-encoder on
      "mps"; every other option keeps its default. A backend name outside
      the admitted ones fails validation. */
  function FromLegacyConfig(model: Option<LegacyModelSection>): (r: Result<CC.ModelPoolConfig>)
    ensures var m := model.GetOr(LegacyModelSection(None, None, None, None));
      r.Err? <==> m.backend.Some? && CC.ParseBackend(m.backend.value).None?
    ensures r.Err? ==> r.error.ValueError?
    ensures var m := model.GetOr(LegacyModelSection(None, None, None, None));
      r.Ok? ==> (r.value.routingStrategy == CC.RoundRobinRouting && |r.value.instances| == 1 &&
        var inst := r.value.instances[0];
        inst.name == m.name.GetOr(CC.DefaultModelName) && inst.device == m.device.GetOr("mps") &&
        CC.BackendName(inst.backend) == m.backend.GetOr("mps") && inst.useFp16 == m.mpsFp16.GetOr(true) &&
        inst == CC.DefaultInstance(inst.name).(device := inst.device, backend := inst.backend,
          useFp16 := inst.useFp16))
  {
    var m := model.GetOr(LegacyModelSection(None, None, None, None));
    match CC.ParseBackend(m.backend.GetOr("mps"))
    case None => Err(ValueError(CC.Invalid))
    case Some(b) =>
      var inst := CC.DefaultInstance(m.name.GetOr(CC.DefaultModelName))
        .(device := m.device.GetOr("mps"), backend := b, useFp16 := m.mpsFp16.GetOr(true));
      Ok(CC.ModelPoolConfig([inst], CC.RoundRobinRouting))
  }

  /** `ModelPool`. */
  class ModelPool {
    const config: CC.ModelPoolConfig
    const router: Router
    var backends: seq<CC.ModelInstanceConfig>
    var isLoaded: bool

    /** `ModelPool(config, routing_strategy)`: the given router, or else a
        fresh one for the configured strategy; no backend loaded yet. */
    constructor (config: CC.ModelPoolConfig, custom: Option<Router>)
      ensures this.config == config && backends == [] && !isLoaded
      ensures custom.Some? ==> router == custom.value
      ensures custom.None? ==> (fresh(router) && router.strategy == PoolStrategy(config.routingStrategy) &&
        router.index == 0 && router.lastSelected == 0)
    {
      this.config := config;
      if custom.Some? {
        router := custom.value;
      } else {
        PoolStrategyParses(config.routingStrategy);
        router := new Router(ParseStrategy(CC.PoolRoutingName(config.routingStrategy)).value);
      }
      backends := [];
      isLoaded := false;
    }

    /** `load_all()`: every configured instance is loaded, in order, after
        any already loaded, and the pool counts as loaded. */
    method LoadAll()
      modifies this`backends, this`isLoaded
      ensures backends == old(backends) + config.instances && isLoaded
    {
      for i := 0 to |config.instances|
        invariant backends == old(backends) + config.instances[..i]
      {
        backends := backends + [config.instances[i]];
      }
      isLoaded := true;
    }

    /** `acquire_backend()`, with `loads` the live state of the loaded
        backends: RuntimeError before loading, ValueError for an empty
        pool, else the router's pick with its position. The backends are
        distinct objects, so `backends.index(backend)` is that position. */
    method AcquireBackend(loads: seq<Load>) returns (r: Result<nat>)
      requires |loads| == |backends|
      modifies router`index, router`lastSelected
      ensures !isLoaded ==> (r == Err(RuntimeError(NotLoadedMessage)) &&
        router.index == old(router.index) && router.lastSelected == old(router.lastSelected))
      ensures isLoaded && backends == [] ==> (r == Err(ValueError(EmptyPoolMessage)) &&
        router.index == old(router.index) && router.lastSelected == old(router.lastSelected))
      ensures isLoaded && backends != [] ==>
        r == Ok(Pick(router.strategy, loads, old(router.index), old(router.lastSelected)))
      ensures r.Ok? ==> r.value < |backends|
    {
      if !isLoaded {
        return Err(RuntimeError(NotLoadedMessage));
      }
      if backends == [] {
        return Err(ValueError(EmptyPoolMessage));
      }
      r := router.SelectBackend(loads);
    }

    /** `release_backend(idx)`: nothing to do, since a backend tracks its
        own busy state. */
    method ReleaseBackend(idx: int)
    {
    }

    /** `get_pool_info()`, with `loads` the live state of the backends. */
    function GetPoolInfo(loads: seq<Load>): (info: PoolInfo)
      requires |loads| == |backends|
      reads this
      ensures info.numInstances == |backends| && info.isLoaded == isLoaded && info.instances == backends
      ensures info.routingStrategy == CC.PoolRoutingName(config.routingStrategy)
      ensures info.busyCount == |backends| - |Available(loads)|
      ensures info.totalPending == TotalPending(loads)
    {
      BusyCountComplementsAvailable(loads);
      PoolInfo(|backends|, CC.PoolRoutingName(config.routingStrategy), isLoaded, backends, BusyCount(loads),
        TotalPending(loads))
    }

    /** `reset_router()`. */
    method ResetRouter()
      modifies router`index, router`lastSelected
      ensures router.strategy == RoundRobin ==> router.index == 0 && router.lastSelected == old(router.lastSelected)
      ensures router.strategy == SmartIdle ==> router.lastSelected == 0 && router.index == old(router.index)
      ensures router.strategy !in {RoundRobin, SmartIdle} ==>
        router.index == old(router.index) && router.lastSelected == old(router.lastSelected)
    {
      router.Reset();
    }
  }
}
