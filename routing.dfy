/** The routing strategies of the model pool
    (`ml_inference_server/server/routing.py`): given the backends' current
    load, each strategy picks the backend that handles the next request.
    A backend is represented by its position in the list, and a router
    sees of it only its busy flag and its pending-request count. The five
    strategy classes are one `Router` class here, tagged by its strategy;
    only round robin and smart idle keep state. The lock is not modelled. */
module Routing {
  import opened Wrappers

  /** What a router reads of a backend: `is_busy` and `pending_requests`. */
  datatype Load = Load(isBusy: bool, pendingRequests: int)

  datatype Strategy = RoundRobin | LeastBusy | FirstAvailable | FirstIdle | SmartIdle

  function StrategyName(s: Strategy): string
  {
    match s
    case RoundRobin => "round_robin"
    case LeastBusy => "least_busy"
    case FirstAvailable => "first_available"
    case FirstIdle => "first_idle"
    case SmartIdle => "smart_idle"
  }

  const NoBackends := "No backends available for routing"

  function UnknownStrategyMessage(name: string): string
  {
    "Unknown routing strategy: " + name +
    ". Available: ['round_robin', 'least_busy', 'first_available', 'first_idle', 'smart_idle']"
  }

  /** The strategy `create_router(name)` instantiates: one of the five
      names, anything else a ValueError. */
  function ParseStrategy(name: string): (r: Result<Strategy>)
    ensures r.Ok? <==> name in {"round_robin", "least_busy", "first_available", "first_idle", "smart_idle"}
    ensures r.Ok? ==> StrategyName(r.value) == name
    ensures r.Err? ==> r.error == ValueError(UnknownStrategyMessage(name))
  {
    if name == "round_robin" then Ok(RoundRobin)
    else if name == "least_busy" then Ok(LeastBusy)
    else if name == "first_available" then Ok(FirstAvailable)
    else if name == "first_idle" then Ok(FirstIdle)
    else if name == "smart_idle" then Ok(SmartIdle)
    else Err(ValueError(UnknownStrategyMessage(name)))
  }

  /** Every name a strategy prints is one `create_router` accepts. */
  lemma ParseStrategyName(s: Strategy)
    ensures ParseStrategy(StrategyName(s)) == Ok(s)
  {
  }

  /** `[b for b in backends if not b.is_busy]`, as positions: the idle
      backends, each once, in list order. */
  function Available(loads: seq<Load>): (r: seq<nat>)
    ensures forall k :: 0 <= k < |r| ==> r[k] < |loads| && !loads[r[k]].isBusy
    ensures forall i :: 0 <= i < |loads| && !loads[i].isBusy ==> i in r
    ensures forall k, l :: 0 <= k < l < |r| ==> r[k] < r[l]
  {
    if loads == [] then []
    else
      var rest := Available(loads[..|loads| - 1]);
      if loads[|loads| - 1].isBusy then rest else rest + [|loads| - 1]
  }

  /** `i` is a backend with the fewest pending requests, and no earlier
      backend has as few. */
  ghost predicate IsLeastPending(loads: seq<Load>, i: nat)
  {
    i < |loads| &&
    (forall j :: 0 <= j < |loads| ==> loads[i].pendingRequests <= loads[j].pendingRequests) &&
    (forall j :: 0 <= j < i ==> loads[i].pendingRequests < loads[j].pendingRequests)
  }

  /** `min(backends, key=lambda b: b.pending_requests)`: Python's `min`
      keeps the first of equal keys. */
  function LeastPending(loads: seq<Load>): (r: nat)
    requires loads != []
    ensures IsLeastPending(loads, r)
  {
    if |loads| == 1 then 0
    else
      var m := LeastPending(loads[..|loads| - 1]);
      if loads[|loads| - 1].pendingRequests < loads[m].pendingRequests then |loads| - 1 else m
  }

  /** The first idle backend, if there is one. */
  function FirstIdleIndex(loads: seq<Load>): (r: Option<nat>)
    ensures r.None? <==> forall i :: 0 <= i < |loads| ==> loads[i].isBusy
    ensures r.Some? ==> (r.value < |loads| && !loads[r.value].isBusy &&
      forall j :: 0 <= j < r.value ==> loads[j].isBusy)
  {
    if loads == [] then None
    else if !loads[0].isBusy then Some(0)
    else
      match FirstIdleIndex(loads[1..])
      case None => None
      case Some(k) => Some(k + 1)
  }

  /** `LeastBusyRouter.select_backend`. */
  function SelectLeastBusy(loads: seq<Load>): (r: Result<nat>)
    ensures loads == [] <==> r == Err(ValueError(NoBackends))
    ensures r.Ok? ==> IsLeastPending(loads, r.value)
  {
    if loads == [] then Err(ValueError(NoBackends)) else Ok(LeastPending(loads))
  }

  /** `FirstAvailableRouter.select_backend`: the first idle backend, or
      the first backend when all are busy. */
  function SelectFirstAvailable(loads: seq<Load>): (r: Result<nat>)
    ensures loads == [] <==> r == Err(ValueError(NoBackends))
    ensures r.Ok? ==> r.value < |loads|
    ensures r.Ok? && (exists i :: 0 <= i < |loads| && !loads[i].isBusy) ==>
      (!loads[r.value].isBusy && forall j :: 0 <= j < r.value ==> loads[j].isBusy)
    ensures r.Ok? && (forall i :: 0 <= i < |loads| ==> loads[i].isBusy) ==> r.value == 0
  {
    if loads == [] then Err(ValueError(NoBackends))
    else Ok(FirstIdleIndex(loads).GetOr(0))
  }

  /** `FirstIdleRouter.select_backend`: the first idle backend, or the
      least-pending one when all are busy. */
  function SelectFirstIdle(loads: seq<Load>): (r: Result<nat>)
    ensures loads == [] <==> r == Err(ValueError(NoBackends))
    ensures r.Ok? && (exists i :: 0 <= i < |loads| && !loads[i].isBusy) ==>
      (r.value < |loads| && !loads[r.value].isBusy && forall j :: 0 <= j < r.value ==> loads[j].isBusy)
    ensures r.Ok? && (forall i :: 0 <= i < |loads| ==> loads[i].isBusy) ==> IsLeastPending(loads, r.value)
  {
    if loads == [] then Err(ValueError(NoBackends))
    else
      match FirstIdleIndex(loads)
      case Some(i) => Ok(i)
      case None => Ok(LeastPending(loads))
  }

  /** Round robin's pick for counter value `index`: the next idle backend
      in turn, or the next backend in turn when all are busy. */
  function RoundRobinPick(loads: seq<Load>, index: nat): (r: nat)
    requires loads != []
    ensures r < |loads|
    ensures (exists i :: 0 <= i < |loads| && !loads[i].isBusy) ==> !loads[r].isBusy
  {
    var av := Available(loads);
    if av != [] then av[index % |av|]
    else
      assert forall i :: 0 <= i < |loads| ==> loads[i].isBusy;
      index % |loads|
  }

  lemma {:induction false} MulAtLeast(d: int, m: int)
    requires d >= 1 && m > 0
    ensures d * m >= m
  {
    if d > 1 {
      MulAtLeast(d - 1, m);
      assert d * m == (d - 1) * m + m;
    }
  }

  /** Euclidean division is unique: a quotient and a remainder in
      [0, m) are `x / m` and `x % m`. */
  lemma ModUnique(x: int, q: int, r: int, m: int)
    requires m > 0 && x == q * m + r && 0 <= r < m
    ensures x % m == r
  {
    var d := q - x / m;
    assert d * m == x % m - r;
    if d >= 1 {
      MulAtLeast(d, m);
    } else if d <= -1 {
      MulAtLeast(-d, m);
    }
  }

  /** Some offset in [0, m) from `start` lands on `pos` modulo m. */
  lemma OffsetTo(start: nat, pos: nat, m: nat) returns (off: nat)
    requires pos < m
    ensures off < m && (start + off) % m == pos
  {
    var q, rem := start / m, start % m;
    assert start == q * m + rem;
    if rem <= pos {
      off := pos - rem;
      ModUnique(start + off, q, pos, m);
    } else {
      off := pos + m - rem;
      assert start + off == (q + 1) * m + pos;
      ModUnique(start + off, q + 1, pos, m);
    }
  }

  /** Round robin is fair: over any run of as many calls as there are
      idle backends, with the load unchanged, every idle backend is picked. */
  lemma RoundRobinVisitsEveryIdle(loads: seq<Load>, start: nat, i: nat)
    requires i < |loads| && !loads[i].isBusy
    ensures exists j :: start <= j < start + |Available(loads)| && RoundRobinPick(loads, j) == i
  {
    var av := Available(loads);
    var pos :| 0 <= pos < |av| && av[pos] == i;
    var off := OffsetTo(start, pos, |av|);
    assert RoundRobinPick(loads, start + off) == i;
  }

  /** The position `off` steps after `start` in a cyclic list of `n`. */
  function Slot(n: nat, start: nat, off: nat): (r: nat)
    requires n > 0
    ensures r < n
  {
    (start + off) % n
  }

  /** Smart idle's scan from position `start`: the first idle backend at
      offset `from` or later, taken cyclically. */
  function ScanFrom(loads: seq<Load>, start: nat, from: nat): (r: Option<nat>)
    requires loads != []
    ensures r.Some? ==> r.value < |loads| && !loads[r.value].isBusy
    ensures r.Some? ==> exists off :: (from <= off < |loads| && r.value == Slot(|loads|, start, off) &&
      forall o :: from <= o < off ==> loads[Slot(|loads|, start, o)].isBusy)
    ensures r.None? ==> forall o :: from <= o < |loads| ==> loads[Slot(|loads|, start, o)].isBusy
    decreases |loads| - from
  {
    if from >= |loads| then None
    else if !loads[Slot(|loads|, start, from)].isBusy then Some(Slot(|loads|, start, from))
    else ScanFrom(loads, start, from + 1)
  }

  /** The cyclic scan misses no idle backend: it fails only when all are
      busy. */
  lemma ScanFindsIdle(loads: seq<Load>, start: nat, i: nat)
    requires i < |loads| && !loads[i].isBusy
    ensures ScanFrom(loads, start, 0).Some?
  {
    var off := OffsetTo(start, i, |loads|);
    assert Slot(|loads|, start, off) == i;
  }

  /** Smart idle's pick when `lastSelected` is `last`. */
  function SmartIdlePick(loads: seq<Load>, last: nat): (r: nat)
    requires loads != []
    ensures r < |loads|
  {
    match ScanFrom(loads, last, 0)
    case Some(i) => i
    case None => LeastPending(loads)
  }

  /** Smart idle takes an idle backend whenever there is one, and the
      least-pending one otherwise. */
  lemma SmartIdlePrefersIdle(loads: seq<Load>, last: nat)
    requires loads != []
    ensures (exists i :: 0 <= i < |loads| && !loads[i].isBusy) ==> !loads[SmartIdlePick(loads, last)].isBusy
    ensures (forall i :: 0 <= i < |loads| ==> loads[i].isBusy) ==> IsLeastPending(loads, SmartIdlePick(loads, last))
  {
    if exists i :: 0 <= i < |loads| && !loads[i].isBusy {
      var i :| 0 <= i < |loads| && !loads[i].isBusy;
      ScanFindsIdle(loads, last, i);
    }
  }

  /** With every backend idle, smart idle rotates: it picks `last mod n`,
      so the next call starts at the backend after it. */
  lemma SmartIdleRotates(loads: seq<Load>, last: nat)
    requires loads != [] && forall i :: 0 <= i < |loads| ==> !loads[i].isBusy
    ensures SmartIdlePick(loads, last) == last % |loads|
  {
    assert Slot(|loads|, last, 0) == last % |loads|;
  }

  /** The backend a strategy picks from a non-empty list, given round
      robin's counter and smart idle's starting position. */
  function Pick(strategy: Strategy, loads: seq<Load>, index: nat, last: nat): (r: nat)
    requires loads != []
    ensures r < |loads|
  {
    match strategy
    case RoundRobin => RoundRobinPick(loads, index)
    case LeastBusy => LeastPending(loads)
    case FirstAvailable => FirstIdleIndex(loads).GetOr(0)
    case FirstIdle => (match FirstIdleIndex(loads) case Some(i) => i case None => LeastPending(loads))
    case SmartIdle => SmartIdlePick(loads, last)
  }

  /** Every strategy but least-busy sends work to an idle backend whenever
      there is one; least-busy always picks the earliest backend with the
      fewest pending requests, and so does first-idle when all are busy. */
  lemma PickPrefersIdle(strategy: Strategy, loads: seq<Load>, index: nat, last: nat)
    requires loads != []
    ensures strategy != LeastBusy && (exists i :: 0 <= i < |loads| && !loads[i].isBusy) ==>
      !loads[Pick(strategy, loads, index, last)].isBusy
    ensures strategy == LeastBusy ==> IsLeastPending(loads, Pick(strategy, loads, index, last))
    ensures strategy == FirstIdle && (forall i :: 0 <= i < |loads| ==> loads[i].isBusy) ==>
      IsLeastPending(loads, Pick(strategy, loads, index, last))
  {
    if strategy == SmartIdle {
      SmartIdlePrefersIdle(loads, last);
    }
  }

  /** A routing strategy object (`create_router(name)` or one of the five
      classes). `index` is round robin's counter and `lastSelected` smart
      idle's starting position; the other strategies keep no state. */
  class Router {
    const strategy: Strategy
    var index: nat
    var lastSelected: nat

    constructor (strategy: Strategy)
      ensures this.strategy == strategy && index == 0 && lastSelected == 0
    {
      this.strategy := strategy;
      index := 0;
      lastSelected := 0;
    }

    /** `RoundRobinRouter.select_backend`: the pick of the current counter,
        which then goes up by one. */
    method SelectRoundRobin(loads: seq<Load>) returns (r: nat)
      requires loads != []
      modifies this`index
      ensures r == RoundRobinPick(loads, old(index)) && index == old(index) + 1
    {
      var available := Available(loads);
      if available != [] {
        r := available[index % |available|];
      } else {
        r := index % |loads|;
      }
      index := index + 1;
    }

    /** `SmartIdleRouter.select_backend`: scan cyclically from
        `lastSelected` for an idle backend, else take the least-pending one;
        the next scan starts after the one picked. */
    method SelectSmartIdle(loads: seq<Load>) returns (r: nat)
      requires loads != []
      modifies this`lastSelected
      ensures r == SmartIdlePick(loads, old(lastSelected)) && lastSelected == (r + 1) % |loads|
    {
      var n := |loads|;
      if Available(loads) != [] {
        for offset := 0 to n
          invariant lastSelected == old(lastSelected)
          invariant ScanFrom(loads, lastSelected, 0) == ScanFrom(loads, lastSelected, offset)
        {
          var idx := Slot(n, lastSelected, offset);
          if !loads[idx].isBusy {
            lastSelected := (idx + 1) % n;
            return idx;
          }
        }
      }
      assert ScanFrom(loads, old(lastSelected), 0).None? by {
        if Available(loads) == [] {
          forall o | 0 <= o < n ensures loads[Slot(n, old(lastSelected), o)].isBusy {
            var i := Slot(n, old(lastSelected), o);
            assert !loads[i].isBusy ==> i in Available(loads);
          }
        }
      }
      r := LeastPending(loads);
      lastSelected := (r + 1) % n;
    }

    /** `select_backend(backends)`: a ValueError for an empty list, else
        the strategy's pick, which is a position in the list. */
    method SelectBackend(loads: seq<Load>) returns (r: Result<nat>)
      modifies this`index, this`lastSelected
      ensures loads == [] ==> (r == Err(ValueError(NoBackends)) && index == old(index) &&
        lastSelected == old(lastSelected))
      ensures loads != [] ==> r == Ok(Pick(strategy, loads, old(index), old(lastSelected)))
      ensures strategy == RoundRobin && loads != [] ==>
        (r.value == RoundRobinPick(loads, old(index)) && index == old(index) + 1 &&
         lastSelected == old(lastSelected))
      ensures strategy == SmartIdle && loads != [] ==>
        (r.value == SmartIdlePick(loads, old(lastSelected)) && lastSelected == (r.value + 1) % |loads| &&
         index == old(index))
      ensures strategy == LeastBusy ==> (r == SelectLeastBusy(loads) && index == old(index) &&
        lastSelected == old(lastSelected))
      ensures strategy == FirstAvailable ==> (r == SelectFirstAvailable(loads) && index == old(index) &&
        lastSelected == old(lastSelected))
      ensures strategy == FirstIdle ==> (r == SelectFirstIdle(loads) && index == old(index) &&
        lastSelected == old(lastSelected))
    {
      if loads == [] {
        return Err(ValueError(NoBackends));
      }
      match strategy {
        case RoundRobin =>
          var i := SelectRoundRobin(loads);
          r := Ok(i);
        case SmartIdle =>
          var i := SelectSmartIdle(loads);
          r := Ok(i);
        case LeastBusy =>
          r := SelectLeastBusy(loads);
        case FirstAvailable =>
          r := SelectFirstAvailable(loads);
        case FirstIdle =>
          r := SelectFirstIdle(loads);
      }
    }

    /** `reset()`: round robin's counter and smart idle's position go back
        to 0; the stateless strategies keep nothing to reset. */
    method Reset()
      modifies this`index, this`lastSelected
      ensures strategy == RoundRobin ==> index == 0 && lastSelected == old(lastSelected)
      ensures strategy == SmartIdle ==> lastSelected == 0 && index == old(index)
      ensures strategy !in {RoundRobin, SmartIdle} ==> index == old(index) && lastSelected == old(lastSelected)
    {
      if strategy == RoundRobin {
        index := 0;
      } else if strategy == SmartIdle {
        lastSelected := 0;
      }
    }
  }

  /** `create_router(name)`: a fresh router of the named strategy. */
  method CreateRouter(name: string) returns (r: Result<Router>)
    ensures r.Err? <==> ParseStrategy(name).Err?
    ensures r.Err? ==> r.error == ValueError(UnknownStrategyMessage(name))
    ensures r.Ok? ==> (fresh(r.value) && r.value.strategy == ParseStrategy(name).value &&
      r.value.index == 0 && r.value.lastSelected == 0)
  {
    match ParseStrategy(name) {
      case Err(e) =>
        r := Err(e);
      case Ok(s) =>
        var router := new Router(s);
        r := Ok(router);
    }
  }
}
