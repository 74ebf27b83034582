/** A Python dictionary as the trackers use it: its entries and the order
    in which its keys were first inserted, which is the order `.values()`
    and `.items()` iterate in. */
module PyDict {

  datatype Dict<K(==), V> = Dict(entries: map<K, V>, order: seq<K>)

  /** Every key is listed once, and exactly the keys are listed. */
  ghost predicate Wellformed<K, V>(d: Dict<K, V>)
  {
    (forall k :: k in d.entries ==> k in d.order) &&
    (forall i :: 0 <= i < |d.order| ==> d.order[i] in d.entries) &&
    (forall i, j :: 0 <= i < j < |d.order| ==> d.order[i] != d.order[j])
  }

  /** `{}`. */
  function Empty<K(==), V>(): (d: Dict<K, V>)
    ensures Wellformed(d) && d.entries == map[] && d.order == []
  {
    Dict(map[], [])
  }

  /** `d[k] = v`: a new key goes to the end of the order, an existing key
      keeps its place. */
  function Put<K(==), V>(d: Dict<K, V>, k: K, v: V): (r: Dict<K, V>)
    requires Wellformed(d)
    ensures Wellformed(r)
    ensures r.entries == d.entries[k := v]
    ensures k in d.entries ==> r.order == d.order
    ensures k !in d.entries ==> r.order == d.order + [k]
  {
    if k in d.entries then Dict(d.entries[k := v], d.order)
    else Dict(d.entries[k := v], d.order + [k])
  }

  /** The keys of `order` other than `k`, in the same order. */
  function Without<K(==, !new)>(order: seq<K>, k: K): (r: seq<K>)
    ensures forall x :: x in r <==> x in order && x != k
    ensures |r| <= |order|
  {
    if order == [] then []
    else
      var rest := Without(order[..|order| - 1], k);
      assert order == order[..|order| - 1] + [order[|order| - 1]];
      if order[|order| - 1] == k then rest else rest + [order[|order| - 1]]
  }

  /** Without(order, k) keeps the keys of `order` distinct when they were. */
  lemma {:induction false} WithoutDistinct<K(!new)>(order: seq<K>, k: K)
    requires forall i, j :: 0 <= i < j < |order| ==> order[i] != order[j]
    ensures forall i, j :: 0 <= i < j < |Without(order, k)| ==> Without(order, k)[i] != Without(order, k)[j]
  {
    if order != [] {
      var init := order[..|order| - 1];
      var last := order[|order| - 1];
      assert forall i, j :: 0 <= i < j < |init| ==> init[i] != init[j] by {
        forall i, j | 0 <= i < j < |init| ensures init[i] != init[j] {
          assert init[i] == order[i] && init[j] == order[j];
        }
      }
      WithoutDistinct(init, k);
      assert last !in init by {
        forall i | 0 <= i < |init| ensures init[i] != last {
          assert init[i] == order[i];
        }
      }
      assert last !in Without(init, k);
    }
  }

  /** `del d[k]` or `d.pop(k, None)`: the key disappears from both the
      entries and the order; an absent key changes nothing. */
  function Remove<K(==, !new), V>(d: Dict<K, V>, k: K): (r: Dict<K, V>)
    requires Wellformed(d)
    ensures Wellformed(r)
    ensures r.entries == d.entries - {k}
    ensures k !in d.entries ==> r == d
  {
    WithoutDistinct(d.order, k);
    if k !in d.entries then d
    else
      var order := Without(d.order, k);
      assert forall i :: 0 <= i < |order| ==> order[i] in order;
      Dict(d.entries - {k}, order)
  }

  /** `[f(v) for v in d.values()]`. */
  function Values<K(==), V, W>(d: Dict<K, V>, f: V -> W): (r: seq<W>)
    requires Wellformed(d)
    ensures |r| == |d.order|
    ensures forall i :: 0 <= i < |d.order| ==> r[i] == f(d.entries[d.order[i]])
  {
    seq(|d.order|, i requires 0 <= i < |d.order| => f(d.entries[d.order[i]]))
  }

  /** Every entry replaced by `f` of itself; the keys and their order stay. */
  function MapValues<K(==, !new), V>(d: Dict<K, V>, f: V -> V): (r: Dict<K, V>)
    requires Wellformed(d)
    ensures Wellformed(r) && r.order == d.order
    ensures forall k :: k in r.entries <==> k in d.entries
    ensures forall k :: k in d.entries ==> r.entries[k] == f(d.entries[k])
  {
    Dict(map k | k in d.entries :: f(d.entries[k]), d.order)
  }
}
