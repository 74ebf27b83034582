/** The values a YAML configuration file loads into (`yaml.safe_load`):
    None, booleans, integers, floats, strings, lists and string-keyed
    dictionaries. Besides the value type this module holds what the three
    configuration loaders and the two sweep expanders share: Python
    truthiness, `dict.get`, `int()` and `float()` of a loaded value, the
    recursive dictionary merge, reading a value at a dotted path and
    writing one at a dotted path of dictionaries. */
module ConfigValue {
  import opened Wrappers
  import opened Text
  import Decimal

  datatype Value =
    | VNone
    | VBool(b: bool)
    | VInt(i: int)
    | VReal(r: real)
    | VStr(s: string)
    | VList(items: seq<Value>)
    | VDict(d: map<string, Value>)

  type Dict = map<string, Value>

  /** Python truthiness: None, False, zero and empty containers are false. */
  predicate Truthy(v: Value)
  {
    match v
    case VNone => false
    case VBool(b) => b
    case VInt(i) => i != 0
    case VReal(r) => r != 0.0
    case VStr(s) => s != ""
    case VList(items) => items != []
    case VDict(d) => d != map[]
  }

  /** `x or y`. */
  function Or(x: Value, y: Value): (r: Value)
    ensures Truthy(x) ==> r == x
    ensures !Truthy(x) ==> r == y
  {
    if Truthy(x) then x else y
  }

  /** `str(type(v))`. */
  function TypeName(v: Value): string
  {
    match v
    case VNone => "<class 'NoneType'>"
    case VBool(_) => "<class 'bool'>"
    case VInt(_) => "<class 'int'>"
    case VReal(_) => "<class 'float'>"
    case VStr(_) => "<class 'str'>"
    case VList(_) => "<class 'list'>"
    case VDict(_) => "<class 'dict'>"
  }

  /** `key in v` for a dictionary. */
  predicate Has(v: Value, key: string)
  {
    v.VDict? && key in v.d
  }

  /** Whether `key in v`, when true followed by `v[key]`, raises
      `TypeError`: `in` cannot search `None`, a `bool` or a number, and a
      string (where `in` finds substrings) or a list (where it finds
      elements) that holds the key cannot be indexed by a string. */
  predicate InRaises(v: Value, key: string)
  {
    match v
    case VDict(_) => false
    case VStr(s) => Contains(s, key)
    case VList(items) => VStr(key) in items
    case _ => true
  }

  /** `section in config and key in config[section]`, followed by
      `config[section][key]` when true: the value read, `None` when the
      guard is false, or the `TypeError` the guard or the read raises. */
  function GuardedRead(config: Dict, section: string, key: string): (r: Result<Option<Value>>)
    ensures r.Err? <==> section in config && InRaises(config[section], key)
    ensures r.Err? ==> r == Err(TypeError)
    ensures r.Ok? ==> (r.value.Some? <==> section in config && Has(config[section], key))
    ensures r.Ok? && r.value.Some? ==> r.value.value == config[section].d[key]
  {
    if section !in config then Ok(None)
    else if InRaises(config[section], key) then Err(TypeError)
    else if config[section].VDict? && key in config[section].d then Ok(Some(config[section].d[key]))
    else Ok(None)
  }

  /** A dictionary section never raises; `None` or a number there always
      does; a string section raises exactly when the key occurs in it, so
      "backend_fp16" raises for "backend" and "fp16" does not. */
  lemma GuardedReadCases(config: Dict, section: string, key: string)
    requires section in config
    ensures config[section].VDict? ==> GuardedRead(config, section, key).Ok?
    ensures (config[section].VNone? || config[section].VInt? || config[section].VReal? ||
      config[section].VBool?) ==> GuardedRead(config, section, key) == Err(TypeError)
    ensures config[section].VStr? ==>
      (GuardedRead(config, section, key).Err? <==> exists k: nat :: OccursAt(config[section].s, key, k))
    ensures GuardedRead(map["model" := VStr("backend_fp16")], "model", "backend") == Err(TypeError)
    ensures GuardedRead(map["model" := VStr("fp16")], "model", "backend") == Ok(None)
  {
    assert OccursAt("backend_fp16", "backend", 0);
    assert !Contains("fp16", "backend");
  }

  /** `v.get(key, default)`: only dictionaries have `get`. */
  function Get(v: Value, key: string, default: Value): (r: Result<Value>)
    ensures !v.VDict? <==> r == Err(AttributeError("get"))
    ensures v.VDict? && key in v.d ==> r == Ok(v.d[key])
    ensures v.VDict? && key !in v.d ==> r == Ok(default)
  {
    if !v.VDict? then Err(AttributeError("get"))
    else if key in v.d then Ok(v.d[key])
    else Ok(default)
  }

  /** `d.get(key, default)` on a dictionary. */
  function Lookup(d: Dict, key: string, default: Value): (r: Value)
    ensures key in d ==> r == d[key]
    ensures key !in d ==> r == default
  {
    if key in d then d[key] else default
  }

  /** A string Python's `str.isdigit` accepts (ASCII digits only here). */
  predicate IsIndex(s: string)
  {
    s != [] && AllDigits(s)
  }

  /** `int(s)` for the spellings `[-]digits`. */
  function ParseInt(s: string): (r: Option<int>)
    ensures IsIndex(s) ==> r == Some(ParseDigits(s))
  {
    if IsIndex(s) then Some(ParseDigits(s))
    else if |s| > 1 && s[0] == '-' && AllDigits(s[1..]) then Some(-(ParseDigits(s[1..]) as int))
    else None
  }

  /** `int(x)` of a float: the fraction is dropped, toward zero. */
  function Truncate(x: real): (r: int)
    ensures x >= 0.0 ==> 0 <= r && r as real <= x < r as real + 1.0
    ensures x < 0.0 ==> r <= 0 && r as real - 1.0 < x <= r as real
  {
    if x >= 0.0 then x.Floor else -((-x).Floor)
  }

  /** `int(v)`: booleans are 0 and 1, floats are truncated, strings are
      parsed; None and containers are not numbers. */
  function IntOf(v: Value): (r: Result<int>)
    ensures v.VInt? ==> r == Ok(v.i)
    ensures v.VBool? ==> r == Ok(if v.b then 1 else 0)
    ensures v.VReal? ==> r == Ok(Truncate(v.r))
    ensures (v.VNone? || v.VList? || v.VDict?) <==> r == Err(TypeError)
  {
    match v
    case VBool(b) => Ok(if b then 1 else 0)
    case VInt(i) => Ok(i)
    case VReal(x) => Ok(Truncate(x))
    case VStr(s) =>
      (match ParseInt(s)
       case Some(i) => Ok(i)
       case None => Err(ValueError("invalid literal for int() with base 10: '" + s + "'")))
    case _ => Err(TypeError)
  }

  /** `float(v)`. */
  function FloatOf(v: Value): (r: Result<real>)
    ensures v.VInt? ==> r == Ok(v.i as real)
    ensures v.VReal? ==> r == Ok(v.r)
    ensures v.VBool? ==> r == Ok(if v.b then 1.0 else 0.0)
    ensures (v.VNone? || v.VList? || v.VDict?) <==> r == Err(TypeError)
  {
    match v
    case VBool(b) => Ok(if b then 1.0 else 0.0)
    case VInt(i) => Ok(i as real)
    case VReal(x) => Ok(x)
    case VStr(s) =>
      (match Decimal.ParseFloat(s)
       case Some(x) => Ok(x)
       case None => Err(ValueError("could not convert string to float: '" + s + "'")))
    case _ => Err(TypeError)
  }

  /** `int(str(i))` gives `i` back. */
  lemma IntOfText(i: int)
    ensures IntOf(VStr(IntToString(i))) == Ok(i)
  {
    if i < 0 {
      var s := IntToString(i);
      assert s[0] == '-' && !IsDigit(s[0]) && s[1..] == NatToString(-i);
      ParseNatToString(-i);
    } else {
      ParseNatToString(i);
    }
  }

  /** The dictionary `_deep_merge(base, override)` returns: every key of
      either side; a key only the base has keeps the base's value; a key
      whose values are dictionaries on both sides holds their merge; any
      other key of the override holds the override's value. */
  function Merged(base: Dict, override: Dict): (r: Dict)
    ensures r.Keys == base.Keys + override.Keys
    decreases VDict(override)
  {
    map k | k in base.Keys + override.Keys ::
      if k !in override then base[k]
      else if k in base && base[k].VDict? && override[k].VDict? then VDict(Merged(base[k].d, override[k].d))
      else override[k]
  }

  /** The dictionary merge of two loaded documents: only a dictionary
      or a list has `copy`, only a dictionary has `items`, and a list
      cannot take string keys. */
  function MergeDocuments(base: Value, exp: Value): (r: Result<Dict>)
    ensures base.VDict? && exp.VDict? <==> r.Ok?
    ensures r.Ok? ==> r.value == Merged(base.d, exp.d)
  {
    if !(base.VDict? || base.VList?) then Err(AttributeError("copy"))
    else if !exp.VDict? then Err(AttributeError("items"))
    else if base.VList? then Err(TypeError)
    else Ok(Merged(base.d, exp.d))
  }

  /** `_deep_merge(base, override)`: a copy of the base into which the
      override's entries are written one key at a time, recursing where
      both sides hold a dictionary. The arguments are values, so neither
      is changed. */
  method DeepMerge(base: Dict, override: Dict) returns (result: Dict)
    ensures result == Merged(base, override)
    decreases VDict(override)
  {
    result := base;
    var todo := override.Keys;
    while todo != {}
      invariant todo <= override.Keys
      invariant result.Keys == base.Keys + (override.Keys - todo)
      invariant forall k :: k in result ==>
        result[k] == (if k in override && k !in todo then Merged(base, override)[k] else base[k])
      decreases todo
    {
      var key :| key in todo;
      var value := override[key];
      if key in result && result[key].VDict? && value.VDict? {
        var sub := DeepMerge(result[key].d, value.d);
        result := result[key := VDict(sub)];
      } else {
        result := result[key := value];
      }
      todo := todo - {key};
    }
  }

  /** The value at a dotted path: a dictionary is indexed by the segment,
      a list by a segment of digits; anything else, or a missing key or
      index, has nothing below it. The empty path is the value itself. */
  function At(v: Value, p: seq<string>): Option<Value>
    decreases |p|
  {
    if p == [] then Some(v)
    else match v
      case VDict(d) => if p[0] in d then At(d[p[0]], p[1..]) else None
      case VList(items) =>
        if IsIndex(p[0]) && ParseDigits(p[0]) < |items| then At(items[ParseDigits(p[0])], p[1..]) else None
      case _ => None
  }

  /** The override says nothing about path `p`: the path stops at a
      missing key, with only dictionaries above it. */
  predicate Absent(o: Dict, p: seq<string>)
    requires |p| > 0
    decreases |p|
  {
    p[0] !in o || (|p| > 1 && o[p[0]].VDict? && Absent(o[p[0]].d, p[1..]))
  }

  /** Every key of `p` is present in `d`, with dictionaries above the last. */
  predicate DictPath(d: Dict, p: seq<string>)
    requires |p| > 0
    decreases |p|
  {
    p[0] in d && (|p| == 1 || (d[p[0]].VDict? && DictPath(d[p[0]].d, p[1..])))
  }

  /** A leaf the override sets is what the merge holds there: experiment
      values override base values. */
  lemma {:induction false} MergeOverrideWins(b: Dict, o: Dict, p: seq<string>, v: Value)
    requires |p| > 0 && At(VDict(o), p) == Some(v) && !v.VDict?
    ensures At(VDict(Merged(b, o)), p) == Some(v)
    decreases |p|
  {
    var k := p[0];
    var m := Merged(b, o);
    if |p| > 1 && k in b && b[k].VDict? && o[k].VDict? {
      assert m[k] == VDict(Merged(b[k].d, o[k].d));
      assert o[k] == VDict(o[k].d);
      MergeOverrideWins(b[k].d, o[k].d, p[1..], v);
    } else {
      assert m[k] == o[k];
    }
  }

  /** A path the override is silent about reads as in the base: the base
      fills the gaps. */
  lemma {:induction false} MergeBaseFills(b: Dict, o: Dict, p: seq<string>)
    requires |p| > 0 && DictPath(b, p) && Absent(o, p)
    ensures At(VDict(Merged(b, o)), p) == At(VDict(b), p)
    decreases |p|
  {
    var k := p[0];
    var m := Merged(b, o);
    if k !in o {
      assert m[k] == b[k];
    } else {
      assert m[k] == VDict(Merged(b[k].d, o[k].d));
      assert b[k] == VDict(b[k].d);
      MergeBaseFills(b[k].d, o[k].d, p[1..]);
    }
  }

  /** Merging a dictionary into itself changes nothing. */
  lemma {:induction false} MergeSelf(d: Dict)
    ensures Merged(d, d) == d
    decreases VDict(d)
  {
    forall k | k in d
      ensures Merged(d, d)[k] == d[k]
    {
      if d[k].VDict? {
        MergeSelf(d[k].d);
      }
    }
  }

  /** Merging the same override a second time changes nothing. */
  lemma {:induction false} MergeIdempotent(b: Dict, o: Dict)
    ensures Merged(Merged(b, o), o) == Merged(b, o)
    decreases VDict(o)
  {
    var m := Merged(b, o);
    forall k | k in m
      ensures Merged(m, o)[k] == m[k]
    {
      if k in o && o[k].VDict? {
        if k in b && b[k].VDict? {
          MergeIdempotent(b[k].d, o[k].d);
        } else {
          MergeSelf(o[k].d);
        }
      }
    }
  }

  /** An empty side contributes nothing. */
  lemma MergeEmpty(d: Dict)
    ensures Merged(d, map[]) == d && Merged(map[], d) == d
  {
  }

  /** The navigation of the model sweep: walk the dictionaries along `p`,
      creating `{}` for a missing key, and set the last key to `x`. A step
      into anything but a dictionary fails as Python's item access does. */
  function SetIn(v: Value, p: seq<string>, x: Value): (r: Result<Value>)
    requires |p| > 0
    ensures r.Ok? ==> r.value.VDict?
    ensures r.Err? ==> r == Err(TypeError)
    decreases |p|
  {
    if !v.VDict? then Err(TypeError)
    else if |p| == 1 then Ok(VDict(v.d[p[0] := x]))
    else
      var child := if p[0] in v.d then v.d[p[0]] else VDict(map[]);
      match SetIn(child, p[1..], x)
      case Err(e) => Err(e)
      case Ok(c) => Ok(VDict(v.d[p[0] := c]))
  }

  /** Nothing along `p` but dictionaries and missing keys. */
  predicate Navigable(v: Value, p: seq<string>)
    requires |p| > 0
    decreases |p|
  {
    v.VDict? && (|p| == 1 || p[0] !in v.d || Navigable(v.d[p[0]], p[1..]))
  }

  /** Two paths that part at some segment. */
  predicate Diverge(p: seq<string>, q: seq<string>)
    decreases |p|
  {
    |p| > 0 && |q| > 0 && (p[0] != q[0] || Diverge(p[1..], q[1..]))
  }

  /** Setting a navigable path succeeds, reads back, and leaves every path
      that parts from it as it was. */
  lemma {:induction false} SetInReadsBack(v: Value, p: seq<string>, x: Value)
    requires |p| > 0 && Navigable(v, p)
    ensures SetIn(v, p, x).Ok? && At(SetIn(v, p, x).value, p) == Some(x)
    ensures forall q :: Diverge(p, q) ==> At(SetIn(v, p, x).value, q) == At(v, q)
    decreases |p|
  {
    if |p| > 1 {
      var child := if p[0] in v.d then v.d[p[0]] else VDict(map[]);
      SetInReadsBack(child, p[1..], x);
      var c := SetIn(child, p[1..], x).value;
      assert SetIn(v, p, x).value == VDict(v.d[p[0] := c]);
      forall q | Diverge(p, q)
        ensures At(SetIn(v, p, x).value, q) == At(v, q)
      {
        if p[0] == q[0] {
          assert Diverge(p[1..], q[1..]);
          if p[0] !in v.d {
            AtEmpty(q[1..]);
            DivergeAbsent(c, p[1..], x, q[1..]);
          }
        }
      }
    } else {
      forall q | Diverge(p, q)
        ensures At(SetIn(v, p, x).value, q) == At(v, q)
      {
        assert !Diverge(p[1..], q[1..]);
      }
    }
  }

  /** Below a fresh `{}` only the empty path holds something. */
  lemma AtEmpty(q: seq<string>)
    ensures q != [] ==> At(VDict(map[]), q) == None
  {
  }

  /** What `SetIn` builds inside a fresh `{}` is invisible from any path that
      parts from the one set. */
  lemma {:induction false} DivergeAbsent(c: Value, p: seq<string>, x: Value, q: seq<string>)
    requires |p| > 0 && SetIn(VDict(map[]), p, x) == Ok(c) && Diverge(p, q)
    ensures At(c, q) == None
    decreases |p|
  {
    if p[0] == q[0] && |p| > 1 {
      var inner := SetIn(VDict(map[]), p[1..], x).value;
      assert c == VDict(map[p[0] := inner]);
      DivergeAbsent(inner, p[1..], x, q[1..]);
    }
  }

  /** Setting one path keeps every path that parts from it navigable. */
  lemma {:induction false} SetInKeepsNavigable(v: Value, p: seq<string>, x: Value, q: seq<string>)
    requires |p| > 0 && |q| > 0 && Navigable(v, p) && Navigable(v, q) && Diverge(p, q)
    ensures SetIn(v, p, x).Ok? && Navigable(SetIn(v, p, x).value, q)
    decreases |p|
  {
    SetInReadsBack(v, p, x);
    if |p| > 1 && p[0] == q[0] {
      var child := if p[0] in v.d then v.d[p[0]] else VDict(map[]);
      assert Diverge(p[1..], q[1..]);
      SetInKeepsNavigable(child, p[1..], x, q[1..]);
    } else if |p| == 1 {
      assert !Diverge(p[1..], q[1..]);
    }
  }
}
