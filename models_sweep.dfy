/** Parameter sweeps of the client-side configuration
    (`src/models/sweep.py`): a configuration whose `model.backend`,
    `batching.timeout_ms` or `batching.max_batch_size` holds a list stands
    for one configuration per combination of those lists, and each
    combination gets a descriptive name. Configurations are values here,
    so the deep copy of each expansion and the untouched input come for
    free. */
module ModelsSweep {
  import opened Wrappers
  import opened Text
  import opened ConfigValue
  import opened Combinations

  /** A swept field: its dotted path and the list of values it takes. */
  datatype Param = Param(path: seq<string>, values: seq<Value>)

  const BackendPath: seq<string> := ["model", "backend"]

  /** `config[section][key]` when `section in config and key in
      config[section]`. */
  function Field(config: Dict, section: string, key: string): (r: Option<Value>)
    ensures r.Some? <==> section in config && Has(config[section], key)
    ensures r.Some? ==> At(VDict(config), [section, key]) == r
  {
    if section in config && Has(config[section], key) then
      assert [section, key][1..] == [key] && [key][1..] == [];
      assert At(config[section], [key]) == At(config[section].d[key], []);
      Some(config[section].d[key])
    else None
  }

  /** Whenever the guarded read does not raise, it reads what `Field`
      reads. */
  lemma FieldIsGuardedRead(config: Dict, section: string, key: string)
    ensures GuardedRead(config, section, key).Ok? ==> GuardedRead(config, section, key) == Ok(Field(config, section, key))
  {
  }

  /** One of the three guards `expand_sweep_config` and `get_sweep_name`
      evaluate raises `TypeError`: `model` or `batching` holds a value
      that cannot be searched for its key. */
  predicate GuardsRaise(config: Dict)
  {
    GuardedRead(config, "model", "backend").Err? ||
    GuardedRead(config, "batching", "timeout_ms").Err? ||
    GuardedRead(config, "batching", "max_batch_size").Err?
  }

  /** The field at `section.key` as a sweep parameter, when it is a list. */
  function ListParam(config: Dict, section: string, key: string): (ps: seq<Param>)
    ensures |ps| <= 1
    ensures ps != [] <==> Field(config, section, key).Some? && Field(config, section, key).value.VList?
    ensures ps != [] ==> ps[0].path == [section, key] && Field(config, section, key) == Some(VList(ps[0].values))
    ensures ps != [] ==> Navigable(VDict(config), ps[0].path)
  {
    match Field(config, section, key)
    case Some(VList(items)) => [Param([section, key], items)]
    case _ => []
  }

  /** The swept fields in the order the source checks them. */
  function SweepParams(config: Dict): (ps: seq<Param>)
    ensures Sweepable(config, ps)
  {
    var backend := ListParam(config, "model", "backend");
    var timeout := ListParam(config, "batching", "timeout_ms");
    var maxBatch := ListParam(config, "batching", "max_batch_size");
    PathsPart("model", "backend", "batching", "timeout_ms");
    PathsPart("model", "backend", "batching", "max_batch_size");
    PathsPart("batching", "timeout_ms", "batching", "max_batch_size");
    AppendSweepable(config, backend, timeout);
    AppendSweepable(config, backend + timeout, maxBatch);
    backend + timeout + maxBatch
  }

  /** A parameter on a navigable path that parts from every earlier one
      keeps the list sweepable. */
  lemma AppendSweepable(config: Dict, ps: seq<Param>, extra: seq<Param>)
    requires |extra| <= 1 && Sweepable(config, ps) && Sweepable(config, extra)
    requires extra != [] ==> forall k :: 0 <= k < |ps| ==>
      Diverge(ps[k].path, extra[0].path) && Diverge(extra[0].path, ps[k].path)
    ensures Sweepable(config, ps + extra)
  {
    if extra == [] {
      assert ps + extra == ps;
    }
  }

  /** Two two-segment paths that differ somewhere part, in either order. */
  lemma PathsPart(a: string, b: string, c: string, d: string)
    requires a != c || b != d
    ensures Diverge([a, b], [c, d]) && Diverge([c, d], [a, b])
  {
    assert [a, b][1..] == [b] && [c, d][1..] == [d];
  }

  /** The lists of values, one per swept field. */
  function ValuesOf(ps: seq<Param>): (vs: seq<seq<Value>>)
    ensures |vs| == |ps| && forall k :: 0 <= k < |ps| ==> vs[k] == ps[k].values
  {
    seq(|ps|, k requires 0 <= k < |ps| => ps[k].values)
  }

  /** Every swept path lies along dictionaries of the configuration and
      any two swept paths part somewhere. */
  ghost predicate Sweepable(config: Dict, ps: seq<Param>)
  {
    (forall k :: 0 <= k < |ps| ==> |ps[k].path| > 0 && Navigable(VDict(config), ps[k].path)) &&
    (forall a, b :: 0 <= a < |ps| && 0 <= b < |ps| && a != b ==> Diverge(ps[a].path, ps[b].path))
  }

  /** Path `q` parts from every swept path. */
  ghost predicate ApartFrom(ps: seq<Param>, q: seq<string>)
  {
    forall k :: 0 <= k < |ps| ==> Diverge(ps[k].path, q)
  }

  /** `c` is `config` with swept field `k` set to `combo[k]`: each swept
      path reads its value of the combination, and every path apart from
      them all reads as in `config`. */
  ghost predicate Applied(config: Dict, ps: seq<Param>, combo: seq<Value>, c: Dict)
  {
    |combo| == |ps| &&
    (forall k :: 0 <= k < |ps| ==> At(VDict(c), ps[k].path) == Some(combo[k])) &&
    (forall q :: ApartFrom(ps, q) ==> At(VDict(c), q) == At(VDict(config), q))
  }

  /** The inner loop of `expand_sweep_config`: one combination written
      into a copy of the configuration, field after field. */
  method Apply(config: Dict, ps: seq<Param>, combo: seq<Value>) returns (c: Dict)
    requires |combo| == |ps| && Sweepable(config, ps)
    ensures Applied(config, ps, combo, c)
  {
    var cur := VDict(config);
    for j := 0 to |ps|
      invariant cur.VDict?
      invariant forall k :: 0 <= k < j ==> At(cur, ps[k].path) == Some(combo[k])
      invariant forall k :: j <= k < |ps| ==> |ps[k].path| > 0 && Navigable(cur, ps[k].path)
      invariant forall q :: ApartFrom(ps[..j], q) ==> At(cur, q) == At(VDict(config), q)
    {
      var p := ps[j].path;
      SetInReadsBack(cur, p, combo[j]);
      forall k | j < k < |ps|
        ensures Navigable(SetIn(cur, p, combo[j]).value, ps[k].path)
      {
        SetInKeepsNavigable(cur, p, combo[j], ps[k].path);
      }
      forall q | ApartFrom(ps[..j + 1], q)
        ensures ApartFrom(ps[..j], q) && Diverge(p, q)
      {
        assert ps[..j + 1][j] == ps[j];
        forall k | 0 <= k < j
          ensures Diverge(ps[..j][k].path, q)
        {
          assert ps[..j + 1][k] == ps[..j][k];
        }
      }
      cur := SetIn(cur, p, combo[j]).value;
    }
    assert ps[..|ps|] == ps;
    c := cur.d;
  }

  /** `expand_sweep_config(config)`: `TypeError` when a guard raises;
      without a swept field the configuration alone; otherwise one
      configuration per combination of the swept lists, in
      `itertools.product` order, each with the swept fields set to its
      combination and every other path unchanged. */
  method ExpandSweep(config: Dict) returns (r: Result<seq<Dict>>)
    ensures r.Err? <==> GuardsRaise(config)
    ensures r.Err? ==> r == Err(TypeError)
    ensures r.Ok? && SweepParams(config) == [] ==> r.value == [config]
    ensures r.Ok? && SweepParams(config) != [] ==>
      |r.value| == |Product(ValuesOf(SweepParams(config)))| == Count(ValuesOf(SweepParams(config))) &&
      forall i :: 0 <= i < |r.value| ==>
        Applied(config, SweepParams(config), Product(ValuesOf(SweepParams(config)))[i], r.value[i])
  {
    if GuardsRaise(config) {
      return Err(TypeError);
    }
    var ps := SweepParams(config);
    if ps == [] {
      return Ok([config]);
    }
    var combos := Product(ValuesOf(ps));
    ProductSize(ValuesOf(ps));
    var expanded := [];
    for i := 0 to |combos|
      invariant |expanded| == i
      invariant forall k :: 0 <= k < i ==> Applied(config, ps, combos[k], expanded[k])
    {
      ProductPicks(ValuesOf(ps), combos[i]);
      var c := Apply(config, ps, combos[i]);
      expanded := expanded + [c];
    }
    return Ok(expanded);
  }

  /** The name part of `timeout_ms` when it is a number (`bool` counts as
      an `int` in Python): its integer part followed by "ms". */
  function TimeoutPart(v: Value): (r: seq<string>)
    ensures v.VInt? ==> r == [IntToString(v.i) + "ms"]
    ensures v.VReal? ==> r == [IntToString(Truncate(v.r)) + "ms"]
    ensures !(v.VInt? || v.VReal? || v.VBool?) ==> r == []
  {
    match IntOf(v)
    case Ok(n) => if v.VInt? || v.VReal? || v.VBool? then [IntToString(n) + "ms"] else []
    case Err(_) => []
  }

  /** The name part of `max_batch_size` when it is an `int`: "batch" and
      its `str()`, which for a `bool` is "True" or "False". */
  function BatchPart(v: Value): (r: seq<string>)
    ensures v.VInt? ==> r == ["batch" + IntToString(v.i)]
    ensures !(v.VInt? || v.VBool?) ==> r == []
  {
    match v
    case VInt(i) => ["batch" + IntToString(i)]
    case VBool(b) => ["batch" + (if b then "True" else "False")]
    case _ => []
  }

  /** The name parts after the base name. */
  function NameParts(config: Dict): (parts: seq<string>)
    ensures |parts| <= 3
  {
    (match Field(config, "model", "backend") case Some(VStr(s)) => [s] case _ => []) +
    (match Field(config, "batching", "timeout_ms") case Some(v) => TimeoutPart(v) case None => []) +
    (match Field(config, "batching", "max_batch_size") case Some(v) => BatchPart(v) case None => [])
  }

  /** `get_sweep_name(config, base_name)`: `TypeError` when a guard
      raises, otherwise the base name and the parts joined with "_". */
  function SweepName(config: Dict, base: string): (r: Result<string>)
    ensures r.Err? <==> GuardsRaise(config)
    ensures r.Err? ==> r == Err(TypeError)
    ensures r.Ok? && NameParts(config) == [] ==> r.value == base
  {
    if GuardsRaise(config) then Err(TypeError) else Ok(Join([base] + NameParts(config), "_"))
  }

  /** A `model` section of `None`, or a string naming its key, cannot be
      searched: the name fails with `TypeError`, as the expansion does. */
  lemma UnsearchableModelRaises(base: string)
    ensures SweepName(map["model" := VNone], base) == Err(TypeError)
    ensures SweepName(map["model" := VStr("backend")], base) == Err(TypeError)
    ensures GuardsRaise(map["batching" := VInt(8)])
  {
    assert OccursAt("backend", "backend", 0);
  }

  /** A name splits back at "_" into the base name and the parts, when none
      of them contains "_". */
  lemma SweepNameSplits(config: Dict, base: string)
    requires Free(base, '_') && forall i :: 0 <= i < |NameParts(config)| ==> Free(NameParts(config)[i], '_')
    ensures SweepName(config, base).Ok? ==> Split(SweepName(config, base).value, '_') == [base] + NameParts(config)
  {
    var parts := [base] + NameParts(config);
    assert forall i :: 0 <= i < |parts| ==> Free(parts[i], '_') by {
      forall i | 0 <= i < |parts|
        ensures Free(parts[i], '_')
      {
        if i > 0 { assert parts[i] == NameParts(config)[i - 1]; }
      }
    }
    SplitJoin(parts, '_');
  }

  /** A string backend is the first part of the name, so the expansions of
      a backend sweep are named after their backends. */
  lemma NameLeadsWithBackend(config: Dict, s: string)
    requires At(VDict(config), BackendPath) == Some(VStr(s))
    ensures NameParts(config) != [] && NameParts(config)[0] == s
  {
    assert "model" in config && config["model"].VDict? && "backend" in config["model"].d;
  }

  /** Integer timeouts name as "<n>ms" and integer batch sizes as
      "batch<n>": the numbers read back from the name. */
  lemma NumericPartsRead(t: int, n: nat)
    ensures TimeoutPart(VInt(t)) == [IntToString(t) + "ms"]
    ensures BatchPart(VInt(n)) == ["batch" + NatToString(n)]
    ensures ParseDigits(BatchPart(VInt(n))[0][5..]) == n
  {
    var b := BatchPart(VInt(n))[0];
    assert b[5..] == NatToString(n);
    ParseNatToString(n);
  }
}
