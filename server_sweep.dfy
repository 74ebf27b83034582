/** Parameter sweeps of the server configuration (`src/server/utils/sweep.py`).
    Eight fields may hold a list of values, three of them inside the first
    model instance (`model_pool.instances.0.*`). The configuration is
    expanded into one copy per combination. Each copy has the fields set
    along dotted paths whose digit segments index lists. A swept
    `model.quantization_mode` also sets `model.quantized` and
    `model.mps.fp16`. Configurations are values here, so every expansion
    is a fresh copy and the input is never changed. */
module ServerSweep {
  import opened Wrappers
  import opened Text
  import opened ConfigValue
  import opened Combinations
  import ModelsSweep

  /** `while len(target) <= part_idx: target.append({})`. */
  function Padded(items: seq<Value>, idx: nat): (r: seq<Value>)
    ensures |r| == (if |items| <= idx then idx + 1 else |items|)
    ensures forall k :: 0 <= k < |items| ==> r[k] == items[k]
    ensures forall k :: |items| <= k < |r| ==> r[k] == VDict(map[])
  {
    if |items| <= idx then items + seq(idx + 1 - |items|, _ => VDict(map[])) else items
  }

  /** The assignment of the last path segment: into a dictionary; into the
      first element of a list (a `{}` is added to an empty list, and a
      first element that is not a dictionary is replaced by a one-entry
      dictionary); anything else is left alone. */
  function SetFinal(v: Value, key: string, x: Value): (r: Value)
    ensures v.VDict? ==> r.VDict? && r.d == v.d[key := x]
    ensures v.VList? ==> (r.VList? && |r.items| == (if v.items == [] then 1 else |v.items|) &&
      r.items[0].VDict? && key in r.items[0].d && r.items[0].d[key] == x &&
      r.items[1..] == (if v.items == [] then [] else v.items[1..]))
    ensures !(v.VDict? || v.VList?) ==> r == v
  {
    match v
    case VDict(d) => VDict(d[key := x])
    case VList(items) =>
      var full := if items == [] then [VDict(map[])] else items;
      if full[0].VDict? then VList(full[0 := VDict(full[0].d[key := x])])
      else VList(full[0 := VDict(map[key := x])])
    case _ => v
  }

  /** The message of the ValueError raised for a digit segment that meets
      something other than a list. */
  function NotAListMessage(idx: nat, v: Value): string
  {
    "Expected list at index " + NatToString(idx) + ", got " + TypeName(v)
  }

  /** The navigation of `expand_sweep_config` for one field, followed by
      the final assignment. A digit segment needs a list, padded with `{}`
      up to the index; any other segment needs a dictionary, in which a
      missing key is created as `[]` when a digit segment follows it
      (and is not the last segment), otherwise as `{}`. */
  function SetAt(v: Value, p: seq<string>, x: Value): (r: Result<Value>)
    requires |p| > 0
    ensures |p| == 1 ==> r == Ok(SetFinal(v, p[0], x))
    ensures |p| > 1 && IsIndex(p[0]) && !v.VList? ==>
      r == Err(ValueError(NotAListMessage(ParseDigits(p[0]), v)))
    ensures |p| > 1 && !IsIndex(p[0]) && !v.VDict? ==> r == Err(TypeError)
    ensures r.Err? ==> r.error == TypeError || r.error.ValueError?
    ensures r.Ok? && |p| > 1 && IsIndex(p[0]) ==>
      r.value.VList? && |r.value.items| == |Padded(v.items, ParseDigits(p[0]))|
    ensures r.Ok? && |p| > 1 && !IsIndex(p[0]) ==>
      r.value.VDict? && r.value.d.Keys == v.d.Keys + {p[0]}
    decreases |p|
  {
    if |p| == 1 then Ok(SetFinal(v, p[0], x))
    else if IsIndex(p[0]) then
      var idx := ParseDigits(p[0]);
      if !v.VList? then Err(ValueError(NotAListMessage(idx, v)))
      else
        var items := Padded(v.items, idx);
        match SetAt(items[idx], p[1..], x)
        case Err(e) => Err(e)
        case Ok(c) => Ok(VList(items[idx := c]))
    else if !v.VDict? then Err(TypeError)
    else
      var child :=
        if p[0] in v.d then v.d[p[0]]
        else if |p| > 2 && IsIndex(p[1]) then VList([])
        else VDict(map[]);
      match SetAt(child, p[1..], x)
      case Err(e) => Err(e)
      case Ok(c) => Ok(VDict(v.d[p[0] := c]))
  }

  /** A missing key is created as a list when a digit segment follows it
      (and is not the last segment), and as a dictionary otherwise. */
  lemma SetAtCreates(d: Dict, p: seq<string>, x: Value)
    requires |p| > 1 && !IsIndex(p[0]) && p[0] !in d && SetAt(VDict(d), p, x).Ok?
    ensures var made := SetAt(VDict(d), p, x).value.d[p[0]];
      (made.VList? <==> |p| > 2 && IsIndex(p[1])) &&
      (made.VList? ==> |made.items| == ParseDigits(p[1]) + 1)
  {
    var child := if |p| > 2 && IsIndex(p[1]) then VList([]) else VDict(map[]);
    assert SetAt(VDict(d), p, x).value.d[p[0]] == SetAt(child, p[1..], x).value;
  }

  /** Two segments name the same step: equal, or two digit strings with
      the same value (they index the same list element). */
  predicate SameStep(a: string, b: string)
  {
    a == b || (IsIndex(a) && IsIndex(b) && ParseDigits(a) == ParseDigits(b))
  }

  /** Two paths that part at some step. */
  predicate Apart(p: seq<string>, q: seq<string>)
    decreases |p|
  {
    |p| > 0 && |q| > 0 && (!SameStep(p[0], q[0]) || Apart(p[1..], q[1..]))
  }

  /** Every step of `p` exists: digit segments index a list within its
      length, other segments are keys of a dictionary, and the last
      segment is written into a dictionary. */
  predicate Reachable(v: Value, p: seq<string>)
    requires |p| > 0
    decreases |p|
  {
    if |p| == 1 then v.VDict?
    else if IsIndex(p[0]) then
      v.VList? && ParseDigits(p[0]) < |v.items| && Reachable(v.items[ParseDigits(p[0])], p[1..])
    else v.VDict? && p[0] in v.d && Reachable(v.d[p[0]], p[1..])
  }

  /** Setting a reachable path succeeds, reads back, and leaves every path
      apart from it as it was. */
  lemma {:induction false} SetAtReadsBack(v: Value, p: seq<string>, x: Value)
    requires |p| > 0 && Reachable(v, p)
    ensures SetAt(v, p, x).Ok? && At(SetAt(v, p, x).value, p) == Some(x)
    ensures forall q :: Apart(p, q) ==> At(SetAt(v, p, x).value, q) == At(v, q)
    decreases |p|
  {
    var w := SetAt(v, p, x);
    if |p| == 1 {
      assert w.value == VDict(v.d[p[0] := x]);
      assert At(w.value, p) == At(x, p[1..]);
      forall q | Apart(p, q)
        ensures At(w.value, q) == At(v, q)
      {
        assert !Apart(p[1..], q[1..]);
      }
    } else if IsIndex(p[0]) {
      var idx := ParseDigits(p[0]);
      var child := v.items[idx];
      SetAtReadsBack(child, p[1..], x);
      var c := SetAt(child, p[1..], x).value;
      assert Padded(v.items, idx) == v.items;
      assert w.value == VList(v.items[idx := c]);
      forall q | Apart(p, q)
        ensures At(w.value, q) == At(v, q)
      {
        if IsIndex(q[0]) && ParseDigits(q[0]) == idx {
          assert SameStep(p[0], q[0]);
        }
      }
    } else {
      var child := v.d[p[0]];
      SetAtReadsBack(child, p[1..], x);
      var c := SetAt(child, p[1..], x).value;
      assert w.value == VDict(v.d[p[0] := c]);
      forall q | Apart(p, q)
        ensures At(w.value, q) == At(v, q)
      {
      }
    }
  }

  /** Setting one path keeps every path apart from it reachable. */
  lemma {:induction false} SetAtKeepsReachable(v: Value, p: seq<string>, x: Value, q: seq<string>)
    requires |p| > 0 && |q| > 0 && Reachable(v, p) && Reachable(v, q) && Apart(p, q)
    ensures SetAt(v, p, x).Ok? && Reachable(SetAt(v, p, x).value, q)
    decreases |p|
  {
    SetAtReadsBack(v, p, x);
    var w := SetAt(v, p, x).value;
    if |p| == 1 {
      assert w == VDict(v.d[p[0] := x]);
      assert !Apart(p[1..], q[1..]);
    } else if IsIndex(p[0]) {
      var idx := ParseDigits(p[0]);
      assert Padded(v.items, idx) == v.items;
      assert w == VList(v.items[idx := SetAt(v.items[idx], p[1..], x).value]);
      if |q| > 1 && IsIndex(q[0]) && ParseDigits(q[0]) == idx {
        assert SameStep(p[0], q[0]);
        SetAtKeepsReachable(v.items[idx], p[1..], x, q[1..]);
      }
    } else {
      assert w == VDict(v.d[p[0] := SetAt(v.d[p[0]], p[1..], x).value]);
      if |q| > 1 && q[0] == p[0] {
        assert SameStep(p[0], q[0]);
        SetAtKeepsReachable(v.d[p[0]], p[1..], x, q[1..]);
      }
    }
  }

  /** The eight fields a sweep may vary, in the order the source checks
      them. */
  datatype Knob =
    | ModelBackend | QuantizationMode | CompiledMode
    | InstanceBackend | InstanceQuantization | InstanceCompileMode
    | TimeoutMs | MaxBatchSize

  function Rank(k: Knob): nat
  {
    match k
    case ModelBackend => 0
    case QuantizationMode => 1
    case CompiledMode => 2
    case InstanceBackend => 3
    case InstanceQuantization => 4
    case InstanceCompileMode => 5
    case TimeoutMs => 6
    case MaxBatchSize => 7
  }

  /** The key of a field in its section, or in the first model instance. */
  function Key(k: Knob): string
  {
    match k
    case ModelBackend => "backend"
    case QuantizationMode => "quantization_mode"
    case CompiledMode => "mode"
    case InstanceBackend => "backend"
    case InstanceQuantization => "quantization"
    case InstanceCompileMode => "compile_mode"
    case TimeoutMs => "timeout_ms"
    case MaxBatchSize => "max_batch_size"
  }

  /** The dotted path of a field, split at the dots. */
  function PathOf(k: Knob): (p: seq<string>)
    ensures |p| > 1
  {
    match k
    case ModelBackend => ["model", Key(k)]
    case QuantizationMode => ["model", Key(k)]
    case CompiledMode => ["model", "compiled", Key(k)]
    case InstanceBackend => ["model_pool", "instances", "0", Key(k)]
    case InstanceQuantization => ["model_pool", "instances", "0", Key(k)]
    case InstanceCompileMode => ["model_pool", "instances", "0", Key(k)]
    case TimeoutMs => ["batching", Key(k)]
    case MaxBatchSize => ["batching", Key(k)]
  }

  /** The segments of every field path are words, except the instance
      index "0". */
  lemma PathWords(k: Knob)
    ensures forall i :: 0 <= i < |PathOf(k)| && PathOf(k)[i] != "0" ==> !IsIndex(PathOf(k)[i])
    ensures forall i :: 0 <= i < |PathOf(k)| && PathOf(k)[i] == "0" ==> IsIndex(PathOf(k)[i]) && ParseDigits("0") == 0
  {
    var p := PathOf(k);
    forall i | 0 <= i < |p| && p[i] != "0"
      ensures !IsIndex(p[i])
    {
      assert !IsDigit(p[i][0]);
    }
  }

  /** Paths equal up to a segment where they hold different words part. */
  lemma {:induction false} ApartAt(p: seq<string>, q: seq<string>, i: nat)
    requires i < |p| && i < |q| && p[..i] == q[..i] && p[i] != q[i] && !IsIndex(p[i])
    ensures Apart(p, q)
    decreases i
  {
    if i > 0 {
      assert p[1..][..i - 1] == p[..i][1..] && q[1..][..i - 1] == q[..i][1..];
      ApartAt(p[1..], q[1..], i - 1);
    }
  }

  /** The paths of two different fields part. */
  lemma KnobsApart(a: Knob, b: Knob)
    requires a != b
    ensures Apart(PathOf(a), PathOf(b))
  {
    var p, q := PathOf(a), PathOf(b);
    PathWords(a);
    if p[0] != q[0] {
      ApartAt(p, q, 0);
    } else if p[1] != q[1] {
      ApartAt(p, q, 1);
    } else {
      assert p[..3] == q[..3];
      ApartAt(p, q, 3);
    }
  }

  /** A swept field and its list of values. */
  datatype Param = Param(knob: Knob, values: seq<Value>)

  /** `config[section][key]` when `section in config and key in
      config[section]`. */
  function Field(config: Dict, section: string, key: string): Option<Value>
  {
    if section in config && Has(config[section], key) then Some(config[section].d[key]) else None
  }

  /** Whenever the guarded read does not raise, it reads what `Field`
      reads. */
  lemma FieldIsGuardedRead(config: Dict, section: string, key: string)
    ensures GuardedRead(config, section, key).Ok? ==> GuardedRead(config, section, key) == Ok(Field(config, section, key))
  {
  }

  /** One of the guards `expand_sweep_config` and `get_sweep_name`
      evaluate on the configuration raises `TypeError`: `model`,
      `model_pool` or `batching` holds a value that cannot be searched
      for its key. The guards inside `model.compiled` and the first pool
      instance test for a dictionary first and never raise. */
  predicate GuardsRaise(config: Dict)
  {
    GuardedRead(config, "model", "backend").Err? ||
    GuardedRead(config, "model", "quantization_mode").Err? ||
    GuardedRead(config, "model", "compiled").Err? ||
    GuardedRead(config, "model_pool", "instances").Err? ||
    GuardedRead(config, "batching", "timeout_ms").Err? ||
    GuardedRead(config, "batching", "max_batch_size").Err?
  }

  /** A two-segment path of words, present in the configuration. */
  lemma Reach2(config: Dict, s: string, key: string)
    requires !IsIndex(s) && Field(config, s, key).Some?
    ensures Reachable(VDict(config), [s, key])
    ensures At(VDict(config), [s, key]) == Field(config, s, key)
  {
    assert [s, key][1..] == [key] && [key][1..] == [];
    assert At(config[s], [key]) == At(config[s].d[key], []);
  }

  /** A three-segment path of words, present in the configuration. */
  lemma Reach3(config: Dict, s: string, t: string, key: string)
    requires !IsIndex(s) && !IsIndex(t) && Field(config, s, t).Some?
    requires Field(config, s, t).value.VDict? && key in Field(config, s, t).value.d
    ensures Reachable(VDict(config), [s, t, key])
    ensures At(VDict(config), [s, t, key]) == Some(Field(config, s, t).value.d[key])
  {
    var sub := config[s].d[t];
    assert [s, t, key][1..] == [t, key] && [t, key][1..] == [key] && [key][1..] == [];
    assert At(sub, [key]) == At(sub.d[key], []);
  }

  /** `section.list.0.key` with the list non-empty and its first element a
      dictionary holding the key. */
  lemma ReachFirst(config: Dict, s: string, t: string, key: string)
    requires !IsIndex(s) && !IsIndex(t) && Field(config, s, t).Some? && Field(config, s, t).value.VList?
    requires Field(config, s, t).value.items != [] && Field(config, s, t).value.items[0].VDict?
    requires key in Field(config, s, t).value.items[0].d
    ensures Reachable(VDict(config), [s, t, "0", key])
    ensures At(VDict(config), [s, t, "0", key]) == Some(Field(config, s, t).value.items[0].d[key])
  {
    var first := config[s].d[t].items[0];
    assert IsIndex("0") && ParseDigits("0") == 0;
    assert [s, t, "0", key][1..] == [t, "0", key] && [t, "0", key][1..] == ["0", key];
    assert ["0", key][1..] == [key] && [key][1..] == [];
    var list := config[s].d[t];
    assert At(first, [key]) == At(first.d[key], []);
    assert At(list, ["0", key]) == At(first, [key]) && Reachable(list, ["0", key]);
    assert At(config[s], [t, "0", key]) == At(list, ["0", key]) && Reachable(config[s], [t, "0", key]);
  }

  /** The current value of a field, where the source looks for it. */
  function Current(config: Dict, k: Knob): (r: Option<Value>)
    ensures r.Some? ==> Reachable(VDict(config), PathOf(k)) && At(VDict(config), PathOf(k)) == r
  {
    PathWords(k);
    var p := PathOf(k);
    if k.CompiledMode? then
      match Field(config, "model", "compiled")
      case Some(VDict(c)) =>
        if Key(k) in c then Reach3(config, p[0], p[1], Key(k)); Some(c[Key(k)]) else None
      case _ => None
    else if k.InstanceBackend? || k.InstanceQuantization? || k.InstanceCompileMode? then
      match Field(config, "model_pool", "instances")
      case Some(VList(items)) =>
        if items != [] && items[0].VDict? && Key(k) in items[0].d then
          ReachFirst(config, p[0], p[1], Key(k));
          Some(items[0].d[Key(k)])
        else None
      case _ => None
    else
      var f := Field(config, p[0], Key(k));
      if f.Some? then Reach2(config, p[0], Key(k)); f else None
  }

  /** The field as a sweep parameter, when it holds a list. */
  function ListParam(config: Dict, k: Knob): (ps: seq<Param>)
    ensures |ps| <= 1
    ensures ps != [] <==> Current(config, k).Some? && Current(config, k).value.VList?
    ensures ps != [] ==> ps[0].knob == k && Current(config, k) == Some(VList(ps[0].values))
  {
    match Current(config, k)
    case Some(VList(items)) => [Param(k, items)]
    case _ => []
  }

  /** Fields in strictly increasing rank. */
  ghost predicate Ordered(ks: seq<Knob>)
  {
    forall a, b :: 0 <= a < b < |ks| ==> Rank(ks[a]) < Rank(ks[b])
  }

  /** Every swept field holds a list where the source looks for it, and
      the fields come in the source's order, each at most once. */
  ghost predicate Sweepable(config: Dict, ps: seq<Param>)
  {
    (forall j :: 0 <= j < |ps| ==> Current(config, ps[j].knob) == Some(VList(ps[j].values))) &&
    (forall a, b :: 0 <= a < b < |ps| ==> Rank(ps[a].knob) < Rank(ps[b].knob))
  }

  /** The fields of `ks` that hold a list, in the order of `ks`. */
  function Collect(config: Dict, ks: seq<Knob>): (ps: seq<Param>)
    requires Ordered(ks)
    ensures Sweepable(config, ps)
    ensures forall j :: 0 <= j < |ps| ==> ps[j].knob in ks
  {
    if ks == [] then []
    else
      var rest := Collect(config, ks[1..]);
      var head := ListParam(config, ks[0]);
      SweepableCons(config, ks, head, rest);
      head + rest
  }

  /** A field found before fields of higher rank keeps the sweep ordered. */
  lemma SweepableCons(config: Dict, ks: seq<Knob>, head: seq<Param>, rest: seq<Param>)
    requires Ordered(ks) && ks != [] && Sweepable(config, rest)
    requires forall j :: 0 <= j < |rest| ==> rest[j].knob in ks[1..]
    requires |head| <= 1 && (head != [] ==> head[0].knob == ks[0] && Current(config, ks[0]) == Some(VList(head[0].values)))
    ensures Sweepable(config, head + rest)
    ensures forall j :: 0 <= j < |head + rest| ==> (head + rest)[j].knob in ks
  {
    OrderedCons(ks, head, rest);
    var holds := (p: Param) => Current(config, p.knob) == Some(VList(p.values));
    EveryCons(holds, head, rest);
  }

  /** The rank order part of `SweepableCons`. */
  lemma OrderedCons(ks: seq<Knob>, head: seq<Param>, rest: seq<Param>)
    requires Ordered(ks) && ks != []
    requires forall a, b :: 0 <= a < b < |rest| ==> Rank(rest[a].knob) < Rank(rest[b].knob)
    requires forall j :: 0 <= j < |rest| ==> rest[j].knob in ks[1..]
    requires |head| <= 1 && (head != [] ==> head[0].knob == ks[0])
    ensures forall a, b :: 0 <= a < b < |head + rest| ==> Rank((head + rest)[a].knob) < Rank((head + rest)[b].knob)
    ensures forall j :: 0 <= j < |head + rest| ==> (head + rest)[j].knob in ks
  {
    forall j | 0 <= j < |rest|
      ensures Rank(ks[0]) < Rank(rest[j].knob) && rest[j].knob in ks
    {
      var b :| 0 <= b < |ks[1..]| && ks[1..][b] == rest[j].knob;
      assert ks[b + 1] == rest[j].knob;
    }
    var ps := head + rest;
    if head == [] {
      assert ps == rest;
    } else {
      forall j | 1 <= j < |ps|
        ensures ps[j] == rest[j - 1]
      {
      }
    }
  }

  /** A property of every element of two lists holds of every element of
      their concatenation. */
  lemma EveryCons<T>(f: T -> bool, head: seq<T>, rest: seq<T>)
    requires forall j :: 0 <= j < |head| ==> f(head[j])
    requires forall j :: 0 <= j < |rest| ==> f(rest[j])
    ensures forall j :: 0 <= j < |head + rest| ==> f((head + rest)[j])
  {
    forall j | 0 <= j < |head + rest|
      ensures f((head + rest)[j])
    {
      if j >= |head| {
        assert (head + rest)[j] == rest[j - |head|];
      }
    }
  }

  /** The eight fields in the order the source checks them. */
  const AllKnobs: seq<Knob> := [ModelBackend, QuantizationMode, CompiledMode,
    InstanceBackend, InstanceQuantization, InstanceCompileMode, TimeoutMs, MaxBatchSize]

  /** The swept fields, in the source's order. */
  function SweepParams(config: Dict): (ps: seq<Param>)
    ensures Sweepable(config, ps)
  {
    assert forall i :: 0 <= i < |AllKnobs| ==> Rank(AllKnobs[i]) == i;
    Collect(config, AllKnobs)
  }

  function ValuesOf(ps: seq<Param>): (vs: seq<seq<Value>>)
    ensures |vs| == |ps| && forall k :: 0 <= k < |ps| ==> vs[k] == ps[k].values
  {
    seq(|ps|, k requires 0 <= k < |ps| => ps[k].values)
  }

  /** Path `q` parts from every swept field. */
  ghost predicate ApartFrom(ps: seq<Param>, q: seq<string>)
  {
    forall k :: 0 <= k < |ps| ==> Apart(PathOf(ps[k].knob), q)
  }

  /** `c` is `config` with swept fields `0 .. j-1` set from the
      combination: those read back, the others are still reachable, and
      every path apart from the fields set so far is unchanged. */
  ghost predicate SetSoFar(config: Dict, ps: seq<Param>, combo: seq<Value>, j: nat, c: Value)
    requires j <= |ps| == |combo|
  {
    (forall k :: 0 <= k < j ==> At(c, PathOf(ps[k].knob)) == Some(combo[k])) &&
    (forall k :: j <= k < |ps| ==> Reachable(c, PathOf(ps[k].knob))) &&
    (forall q :: ApartFrom(ps[..j], q) ==> At(c, q) == At(VDict(config), q))
  }

  /** `c` is `config` with swept field `k` set to `combo[k]` and every path
      apart from the swept ones unchanged. */
  ghost predicate Applied(config: Dict, ps: seq<Param>, combo: seq<Value>, c: Value)
  {
    |combo| == |ps| &&
    (forall k :: 0 <= k < |ps| ==> At(c, PathOf(ps[k].knob)) == Some(combo[k])) &&
    (forall q :: ApartFrom(ps, q) ==> At(c, q) == At(VDict(config), q))
  }

  /** Setting the next field keeps `SetSoFar`. */
  lemma ApplyStep(config: Dict, ps: seq<Param>, combo: seq<Value>, j: nat, c: Value)
    requires j < |ps| == |combo| && Sweepable(config, ps) && SetSoFar(config, ps, combo, j, c)
    ensures SetAt(c, PathOf(ps[j].knob), combo[j]).Ok?
    ensures SetSoFar(config, ps, combo, j + 1, SetAt(c, PathOf(ps[j].knob), combo[j]).value)
  {
    var p := PathOf(ps[j].knob);
    SetAtReadsBack(c, p, combo[j]);
    var w := SetAt(c, p, combo[j]).value;
    forall k | 0 <= k < |ps| && k != j
      ensures Apart(p, PathOf(ps[k].knob))
    {
      KnobsApart(ps[j].knob, ps[k].knob);
    }
    forall k | j < k < |ps|
      ensures Reachable(w, PathOf(ps[k].knob))
    {
      SetAtKeepsReachable(c, p, combo[j], PathOf(ps[k].knob));
    }
    forall q | ApartFrom(ps[..j + 1], q)
      ensures At(w, q) == At(VDict(config), q)
    {
      assert ps[..j + 1][j] == ps[j];
      forall k | 0 <= k < j
        ensures Apart(PathOf(ps[..j][k].knob), q)
      {
        assert ps[..j + 1][k] == ps[..j][k];
      }
    }
  }

  /** Before any field is set the configuration is as given. */
  lemma ApplyStart(config: Dict, ps: seq<Param>, combo: seq<Value>)
    requires |ps| == |combo| && Sweepable(config, ps)
    ensures SetSoFar(config, ps, combo, 0, VDict(config))
  {
  }

  /** The path loop of `expand_sweep_config` for one combination. */
  method Apply(config: Dict, ps: seq<Param>, combo: seq<Value>) returns (c: Value)
    requires |combo| == |ps| && Sweepable(config, ps)
    ensures Applied(config, ps, combo, c)
  {
    c := VDict(config);
    ApplyStart(config, ps, combo);
    for j := 0 to |ps|
      invariant SetSoFar(config, ps, combo, j, c)
    {
      ApplyStep(config, ps, combo, j, c);
      c := SetAt(c, PathOf(ps[j].knob), combo[j]).value;
    }
    assert ps[..|ps|] == ps;
  }

  /** Two paths that part in this sense also differ as plain keys. */
  lemma {:induction false} ApartDiverge(p: seq<string>, q: seq<string>)
    requires Apart(p, q)
    ensures Diverge(p, q)
    decreases |p|
  {
    if SameStep(p[0], q[0]) {
      ApartDiverge(p[1..], q[1..]);
    }
  }

  const QuantizedPath: seq<string> := ["model", "quantized"]
  const Fp16Path: seq<string> := ["model", "mps", "fp16"]

  /** The paths the quantization side effects write part from every swept
      field and from each other. */
  lemma EffectPathsApart(k: Knob)
    ensures Apart(QuantizedPath, PathOf(k)) && Apart(PathOf(k), QuantizedPath)
    ensures Apart(Fp16Path, PathOf(k)) && Apart(PathOf(k), Fp16Path)
    ensures Apart(Fp16Path, QuantizedPath)
  {
    PathWords(k);
    var p := PathOf(k);
    var qp, fp := QuantizedPath, Fp16Path;
    assert !IsIndex(qp[0]) && !IsIndex(qp[1]) && !IsIndex(fp[1]) by {
      assert !IsDigit(qp[0][0]) && !IsDigit(qp[1][0]) && !IsDigit(fp[1][0]);
    }
    ApartAt(fp, qp, 1);
    if p[0] != "model" {
      ApartAt(p, qp, 0);
      ApartAt(qp, p, 0);
      ApartAt(p, fp, 0);
      ApartAt(fp, p, 0);
    } else {
      assert p[..1] == qp[..1] == fp[..1];
      ApartAt(p, qp, 1);
      ApartAt(qp, p, 1);
      ApartAt(p, fp, 1);
      ApartAt(fp, p, 1);
    }
  }

  /** Where the combination's `model.quantization_mode` sits, if swept. */
  function Position(ps: seq<Param>, k: Knob): (r: Option<nat>)
    ensures r.Some? ==> r.value < |ps| && ps[r.value].knob == k
    ensures r.None? ==> forall j :: 0 <= j < |ps| ==> ps[j].knob != k
  {
    if ps == [] then None
    else if ps[0].knob == k then Some(0)
    else match Position(ps[1..], k)
      case Some(j) => Some(j + 1)
      case None => None
  }

  /** The combination's quantization mode, when that field is swept. */
  function QuantModeOf(ps: seq<Param>, combo: seq<Value>): (r: Option<Value>)
    requires |combo| == |ps|
    ensures r.Some? ==> exists j :: 0 <= j < |ps| && ps[j].knob == QuantizationMode && r == Some(combo[j])
  {
    match Position(ps, QuantizationMode)
    case Some(j) => Some(combo[j])
    case None => None
  }

  /** The three quantization modes that have side effects. */
  predicate KnownMode(qmode: Option<Value>)
  {
    qmode == Some(VStr("int8")) || qmode == Some(VStr("fp16")) || qmode == Some(VStr("fp32"))
  }

  /** The special handling of `quantization_mode`: "int8" sets
      `model.quantized`; "fp16" and "fp32" set `model.mps.fp16` to whether
      the mode is "fp16" and clear `model.quantized`; other modes change
      nothing. */
  function QuantEffects(c: Value, qmode: Option<Value>): (r: Result<Value>)
    ensures !KnownMode(qmode) ==> r == Ok(c)
    ensures r.Err? ==> r == Err(TypeError)
  {
    if qmode == Some(VStr("int8")) then SetIn(c, QuantizedPath, VBool(true))
    else if qmode == Some(VStr("fp16")) || qmode == Some(VStr("fp32")) then
      match SetIn(c, Fp16Path, VBool(qmode == Some(VStr("fp16"))))
      case Err(e) => Err(e)
      case Ok(c1) => SetIn(c1, QuantizedPath, VBool(false))
    else Ok(c)
  }

  /** `model.mps` is present and not a dictionary, so the "fp16" and
      "fp32" side effects cannot write into it. */
  predicate MpsBlocked(config: Dict)
  {
    "model" in config && config["model"].VDict? && "mps" in config["model"].d &&
    !config["model"].d["mps"].VDict?
  }

  /** One expansion: the swept fields hold the combination; a known
      quantization mode has its side effects; every path apart from the
      swept fields (and, for a known mode, from the two paths it writes)
      is unchanged. */
  ghost predicate Expanded(config: Dict, ps: seq<Param>, combo: seq<Value>, c: Value)
  {
    |combo| == |ps| &&
    (forall k :: 0 <= k < |ps| ==> At(c, PathOf(ps[k].knob)) == Some(combo[k])) &&
    var qmode := QuantModeOf(ps, combo);
    (qmode == Some(VStr("int8")) ==> At(c, QuantizedPath) == Some(VBool(true))) &&
    (qmode == Some(VStr("fp16")) || qmode == Some(VStr("fp32")) ==>
      At(c, QuantizedPath) == Some(VBool(false)) &&
      At(c, Fp16Path) == Some(VBool(qmode == Some(VStr("fp16"))))) &&
    (forall q :: ApartFrom(ps, q) && (KnownMode(qmode) ==> Apart(QuantizedPath, q) && Apart(Fp16Path, q)) ==>
      At(c, q) == At(VDict(config), q))
  }

  /** A path read through a word segment goes through a dictionary. */
  lemma AtWord(v: Value, p: seq<string>)
    requires |p| > 0 && !IsIndex(p[0]) && At(v, p).Some?
    ensures v.VDict? && p[0] in v.d
  {
  }

  /** What the side effects rely on once the quantization mode is swept:
      `model` is a dictionary, `model.quantized` can be written, and the
      written paths part from the swept fields and from `model.mps`. */
  lemma EffectsSetup(config: Dict, ps: seq<Param>, combo: seq<Value>, c: Value)
    requires Applied(config, ps, combo, c) && QuantModeOf(ps, combo).Some?
    ensures c.VDict? && "model" in c.d && c.d["model"].VDict?
    ensures Navigable(c, QuantizedPath)
    ensures forall k :: 0 <= k < |ps| ==>
      Diverge(QuantizedPath, PathOf(ps[k].knob)) && Diverge(Fp16Path, PathOf(ps[k].knob))
    ensures Diverge(Fp16Path, QuantizedPath)
    ensures At(c, ["model", "mps"]) == At(VDict(config), ["model", "mps"])
  {
    var qmode := QuantModeOf(ps, combo);
    var j :| 0 <= j < |ps| && ps[j].knob == QuantizationMode && qmode == Some(combo[j]);
    var p := PathOf(ps[j].knob);
    assert p == ["model", "quantization_mode"];
    assert !IsIndex(p[0]) by { assert !IsDigit(p[0][0]); }
    AtWord(c, p);
    assert At(c, p) == At(c.d["model"], ["quantization_mode"]);
    var qp, fp := QuantizedPath, Fp16Path;
    forall k | 0 <= k < |ps|
      ensures Diverge(qp, PathOf(ps[k].knob)) && Diverge(fp, PathOf(ps[k].knob))
    {
      EffectPathsApart(ps[k].knob);
      ApartDiverge(qp, PathOf(ps[k].knob));
      ApartDiverge(fp, PathOf(ps[k].knob));
    }
    EffectPathsApart(ModelBackend);
    ApartDiverge(fp, qp);
    assert ApartFrom(ps, ["model", "mps"]) by {
      forall k | 0 <= k < |ps|
        ensures Apart(PathOf(ps[k].knob), ["model", "mps"])
      {
        MpsApart(ps[k].knob);
      }
    }
  }

  /** With `model` a dictionary and `model.mps` as in an unblocked
      configuration, `model.mps.fp16` can be written. */
  lemma MpsNavigable(config: Dict, c: Value)
    requires c.VDict? && "model" in c.d && c.d["model"].VDict?
    requires At(c, ["model", "mps"]) == At(VDict(config), ["model", "mps"]) && !MpsBlocked(config)
    ensures Navigable(c, Fp16Path)
  {
    var model := c.d["model"];
    assert At(c, ["model", "mps"]) == At(model, ["mps"]);
    if "mps" in model.d {
      assert At(model, ["mps"]) == Some(model.d["mps"]);
      var cm := config["model"];
      assert At(VDict(config), ["model", "mps"]) == At(cm, ["mps"]);
      assert At(cm, ["mps"]) == At(cm.d["mps"], []);
    }
  }

  /** "int8" sets `model.quantized` and nothing else. */
  lemma Int8Expands(config: Dict, ps: seq<Param>, combo: seq<Value>, c: Value)
    requires Applied(config, ps, combo, c) && QuantModeOf(ps, combo) == Some(VStr("int8"))
    ensures QuantEffects(c, QuantModeOf(ps, combo)).Ok?
    ensures Expanded(config, ps, combo, QuantEffects(c, QuantModeOf(ps, combo)).value)
  {
    EffectsSetup(config, ps, combo, c);
    var qp := QuantizedPath;
    SetInReadsBack(c, qp, VBool(true));
    forall q | ApartFrom(ps, q) && Apart(qp, q)
      ensures At(SetIn(c, qp, VBool(true)).value, q) == At(VDict(config), q)
    {
      ApartDiverge(qp, q);
    }
  }

  /** "fp16" and "fp32" set `model.mps.fp16` and clear `model.quantized`,
      and nothing else. */
  lemma FpExpands(config: Dict, ps: seq<Param>, combo: seq<Value>, c: Value)
    requires Applied(config, ps, combo, c) && FpMode(QuantModeOf(ps, combo)) && !MpsBlocked(config)
    ensures QuantEffects(c, QuantModeOf(ps, combo)).Ok?
    ensures Expanded(config, ps, combo, QuantEffects(c, QuantModeOf(ps, combo)).value)
  {
    var qmode := QuantModeOf(ps, combo);
    EffectsSetup(config, ps, combo, c);
    MpsNavigable(config, c);
    var qp, fp := QuantizedPath, Fp16Path;
    var on := VBool(qmode == Some(VStr("fp16")));
    SetInReadsBack(c, fp, on);
    SetInKeepsNavigable(c, fp, on, qp);
    var c1 := SetIn(c, fp, on).value;
    SetInReadsBack(c1, qp, VBool(false));
    forall q | ApartFrom(ps, q) && Apart(qp, q) && Apart(fp, q)
      ensures At(SetIn(c1, qp, VBool(false)).value, q) == At(VDict(config), q)
    {
      ApartDiverge(qp, q);
      ApartDiverge(fp, q);
    }
  }

  /** After the swept fields are set, the side effects succeed unless
      `model.mps` blocks them, and the result is an expansion. */
  lemma EffectsExpand(config: Dict, ps: seq<Param>, combo: seq<Value>, c: Value)
    requires Applied(config, ps, combo, c)
    requires !MpsBlocked(config) || !FpMode(QuantModeOf(ps, combo))
    ensures QuantEffects(c, QuantModeOf(ps, combo)).Ok?
    ensures Expanded(config, ps, combo, QuantEffects(c, QuantModeOf(ps, combo)).value)
  {
    var qmode := QuantModeOf(ps, combo);
    if qmode == Some(VStr("int8")) {
      Int8Expands(config, ps, combo, c);
    } else if FpMode(qmode) {
      FpExpands(config, ps, combo, c);
    }
  }

  /** The two modes that write `model.mps.fp16`. */
  predicate FpMode(qmode: Option<Value>)
  {
    qmode == Some(VStr("fp16")) || qmode == Some(VStr("fp32"))
  }

  /** When `model.mps` is not a dictionary, "fp16" and "fp32" fail with a
      `TypeError`: the value cannot take the item assignment. */
  lemma BlockedFails(config: Dict, ps: seq<Param>, combo: seq<Value>, c: Value)
    requires Applied(config, ps, combo, c) && MpsBlocked(config) && FpMode(QuantModeOf(ps, combo))
    ensures QuantEffects(c, QuantModeOf(ps, combo)) == Err(TypeError)
  {
    EffectsSetup(config, ps, combo, c);
    var model, cm := c.d["model"], config["model"];
    var blocker := cm.d["mps"];
    assert At(VDict(config), ["model", "mps"]) == Some(blocker) by {
      assert At(cm, ["mps"]) == At(blocker, []);
    }
    assert At(c, ["model", "mps"]) == At(model, ["mps"]);
    assert "mps" in model.d && model.d["mps"] == blocker;
    var fp := Fp16Path;
    assert fp[1..] == ["mps", "fp16"] && fp[1..][1..] == ["fp16"];
  }

  /** The side effects fail only on a blocked `model.mps`. */
  lemma EffectsFail(config: Dict, ps: seq<Param>, combo: seq<Value>, c: Value)
    requires Applied(config, ps, combo, c)
    ensures QuantEffects(c, QuantModeOf(ps, combo)).Err? ==>
      MpsBlocked(config) && FpMode(QuantModeOf(ps, combo))
  {
    if !MpsBlocked(config) || !FpMode(QuantModeOf(ps, combo)) {
      EffectsExpand(config, ps, combo, c);
    }
  }

  /** Side effects that succeed leave an expansion. */
  lemma EffectsSucceed(config: Dict, ps: seq<Param>, combo: seq<Value>, c: Value)
    requires Applied(config, ps, combo, c) && QuantEffects(c, QuantModeOf(ps, combo)).Ok?
    ensures Expanded(config, ps, combo, QuantEffects(c, QuantModeOf(ps, combo)).value)
  {
    if MpsBlocked(config) && FpMode(QuantModeOf(ps, combo)) {
      BlockedFails(config, ps, combo, c);
      assert false;
    }
    EffectsExpand(config, ps, combo, c);
  }

  /** `model.mps` parts from every swept field. */
  lemma MpsApart(k: Knob)
    ensures Apart(PathOf(k), ["model", "mps"])
  {
    PathWords(k);
    var p, mps := PathOf(k), ["model", "mps"];
    if p[0] != "model" {
      ApartAt(p, mps, 0);
    } else {
      assert p[..1] == mps[..1];
      ApartAt(p, mps, 1);
    }
  }

  /** `expand_sweep_config(config)`: without a swept field the
      configuration alone; otherwise one expansion per combination, in
      `itertools.product` order. A guard that raises fails the call
      before any expansion; the side effects of "fp16" and "fp32" fail
      only when `model.mps` is not a dictionary. */
  method ExpandSweep(config: Dict) returns (r: Result<seq<Value>>)
    ensures GuardsRaise(config) ==> r.Err?
    ensures !GuardsRaise(config) && SweepParams(config) == [] ==> r == Ok([VDict(config)])
    ensures !GuardsRaise(config) && !MpsBlocked(config) ==> r.Ok?
    ensures r.Err? ==> r == Err(TypeError)
    ensures r.Ok? && SweepParams(config) != [] ==>
      var combos := Product(ValuesOf(SweepParams(config)));
      |r.value| == |combos| == Count(ValuesOf(SweepParams(config))) &&
      forall i :: 0 <= i < |r.value| ==> Expanded(config, SweepParams(config), combos[i], r.value[i])
  {
    if GuardsRaise(config) {
      return Err(TypeError);
    }
    if SweepParams(config) == [] {
      return Ok([VDict(config)]);
    }
    ProductSize(ValuesOf(SweepParams(config)));
    r := ExpandCombinations(config, SweepParams(config));
  }

  /** The loop of `expand_sweep_config` over the combinations of the
      swept fields `ps`. */
  method ExpandCombinations(config: Dict, ps: seq<Param>) returns (r: Result<seq<Value>>)
    requires Sweepable(config, ps)
    ensures !MpsBlocked(config) ==> r.Ok?
    ensures r.Err? ==> r == Err(TypeError)
    ensures r.Ok? ==>
      |r.value| == |Product(ValuesOf(ps))| &&
      forall i :: 0 <= i < |r.value| ==> Expanded(config, ps, Product(ValuesOf(ps))[i], r.value[i])
  {
    var combos := Product(ValuesOf(ps));
    var expanded := [];
    for i := 0 to |combos|
      invariant |expanded| == i
      invariant forall k :: 0 <= k < i ==> Expanded(config, ps, combos[k], expanded[k])
    {
      var done := ExpandOne(config, ps, combos[i]);
      if done.Err? {
        return Err(done.error);
      }
      ExpandedAppend(config, ps, combos, expanded, done.value);
      expanded := expanded + [done.value];
    }
    return Ok(expanded);
  }

  /** Appending the next combination's expansion keeps every expansion
      paired with its own combination. */
  lemma ExpandedAppend(config: Dict, ps: seq<Param>, combos: seq<seq<Value>>, expanded: seq<Value>, c: Value)
    requires |expanded| < |combos|
    requires forall k :: 0 <= k < |expanded| ==> Expanded(config, ps, combos[k], expanded[k])
    requires Expanded(config, ps, combos[|expanded|], c)
    ensures forall k :: 0 <= k < |expanded| + 1 ==> Expanded(config, ps, combos[k], (expanded + [c])[k])
  {
    forall k | 0 <= k < |expanded| + 1
      ensures Expanded(config, ps, combos[k], (expanded + [c])[k])
    {
      if k < |expanded| {
        assert (expanded + [c])[k] == expanded[k];
      }
    }
  }

  /** One combination: the fields set along their paths, then the side
      effects of its quantization mode. */
  method ExpandOne(config: Dict, ps: seq<Param>, combo: seq<Value>) returns (r: Result<Value>)
    requires Sweepable(config, ps) && combo in Product(ValuesOf(ps))
    ensures r.Err? ==> MpsBlocked(config) && r == Err(TypeError)
    ensures r.Ok? ==> Expanded(config, ps, combo, r.value)
  {
    ProductPicks(ValuesOf(ps), combo);
    var c := Apply(config, ps, combo);
    r := QuantEffects(c, QuantModeOf(ps, combo));
    if r.Err? {
      EffectsFail(config, ps, combo, c);
    } else {
      EffectsSucceed(config, ps, combo, c);
    }
  }

  /** The `mode_map` of compile modes to their short names; other modes
      keep their own name. */
  function ShortMode(mode: string): (r: string)
    ensures mode !in {"reduce-overhead", "max-autotune", "default"} ==> r == mode
    ensures mode in {"reduce-overhead", "max-autotune", "default"} ==> |r| <= 3 < |mode|
  {
    if mode == "reduce-overhead" then "ro"
    else if mode == "max-autotune" then "ma"
    else if mode == "default" then "def"
    else mode
  }

  /** The name part a field contributes: strings name themselves, compile
      modes by their short name, the timeout and batch size as in the
      client-side sweep names. */
  function Part(k: Knob, v: Value): (r: seq<string>)
    ensures |r| <= 1
    ensures !(k.TimeoutMs? || k.MaxBatchSize?) && r != [] ==> v.VStr?
  {
    match k
    case TimeoutMs => ModelsSweep.TimeoutPart(v)
    case MaxBatchSize => ModelsSweep.BatchPart(v)
    case CompiledMode => (if v.VStr? then [ShortMode(v.s)] else [])
    case InstanceCompileMode => (if v.VStr? then [ShortMode(v.s)] else [])
    case _ => (if v.VStr? then [v.s] else [])
  }

  /** The parts of the fields `ks`, in order, for those present. */
  function Parts(config: Dict, ks: seq<Knob>): (parts: seq<string>)
    ensures |parts| <= |ks|
  {
    if ks == [] then []
    else
      (match Current(config, ks[0]) case Some(v) => Part(ks[0], v) case None => []) +
      Parts(config, ks[1..])
  }

  /** `get_sweep_name(config, base_name)`: `TypeError` when a guard
      raises, otherwise the base name and the parts of the fields in the
      order the source lists them, joined with "_". */
  function SweepName(config: Dict, base: string): (r: Result<string>)
    ensures r.Err? <==> GuardsRaise(config)
    ensures r.Err? ==> r == Err(TypeError)
    ensures r.Ok? && Parts(config, AllKnobs) == [] ==> r.value == base
  {
    if GuardsRaise(config) then Err(TypeError) else Ok(Join([base] + Parts(config, AllKnobs), "_"))
  }

  /** Every present field's part is in the name. */
  lemma {:induction false} PartInName(config: Dict, ks: seq<Knob>, k: Knob, v: Value)
    requires k in ks && Current(config, k) == Some(v)
    ensures forall x :: x in Part(k, v) ==> x in Parts(config, ks)
  {
    if ks[0] != k {
      PartInName(config, ks[1..], k, v);
    }
  }

  /** A swept compile mode "reduce-overhead", "max-autotune" or "default"
      shows in the name as "ro", "ma" or "def". */
  lemma CompileModeNamed(config: Dict, mode: string)
    requires Current(config, CompiledMode) == Some(VStr(mode))
    ensures ShortMode(mode) in Parts(config, AllKnobs)
    ensures mode == "max-autotune" ==> "ma" in Parts(config, AllKnobs)
  {
    PartInName(config, AllKnobs, CompiledMode, VStr(mode));
  }

  /** The name splits back at "_" into the base name and the parts, when
      none of them contains "_". */
  lemma SweepNameSplits(config: Dict, base: string)
    requires Free(base, '_')
    requires forall i :: 0 <= i < |Parts(config, AllKnobs)| ==> Free(Parts(config, AllKnobs)[i], '_')
    ensures SweepName(config, base).Ok? ==> Split(SweepName(config, base).value, '_') == [base] + Parts(config, AllKnobs)
  {
    var named := Parts(config, AllKnobs);
    var parts := [base] + named;
    forall i | 0 <= i < |parts|
      ensures Free(parts[i], '_')
    {
      if i > 0 { assert parts[i] == named[i - 1]; }
    }
    SplitJoin(parts, '_');
  }
}
