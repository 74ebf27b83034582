/** `np.argsort` and `np.sort` over integer keys: the positions of the
    keys in an order that makes them non-decreasing. numpy's default sort
    is not stable, so a caller may rely on the positions forming a
    permutation and ordering the keys, but not on the order of equal keys;
    the definition here happens to keep equal keys in position order. */
module ArgSort {
  import opened SeqMath

  /** Every position below `n` occurs exactly once. */
  ghost predicate IsPermutation(s: seq<nat>, n: nat)
  {
    |s| == n &&
    (forall x: nat :: x in s <==> x < n) &&
    (forall i, j :: 0 <= i < j < |s| ==> s[i] != s[j])
  }

  /** The positions are valid for `keys` and order them. */
  ghost predicate SortedBy(keys: seq<int>, s: seq<nat>)
  {
    (forall i :: 0 <= i < |s| ==> s[i] < |keys|) &&
    (forall i, j :: 0 <= i < j < |s| ==> keys[s[i]] <= keys[s[j]])
  }

  /** The first place in `s` whose key exceeds `k`. */
  function InsertPos(keys: seq<int>, k: int, s: seq<nat>): (p: nat)
    requires forall j :: 0 <= j < |s| ==> s[j] < |keys|
    ensures p <= |s|
    ensures forall j :: 0 <= j < p ==> keys[s[j]] <= k
    ensures p < |s| ==> keys[s[p]] > k
  {
    if s == [] || keys[s[0]] > k then 0
    else
      var p := InsertPos(keys, k, s[1..]);
      assert forall j :: 1 <= j < p + 1 ==> s[j] == s[1..][j - 1];
      p + 1
  }

  /** Position `i` placed among sorted positions, after every key not
      greater than its own. */
  function InsertByKey(keys: seq<int>, i: nat, s: seq<nat>): (r: seq<nat>)
    requires i < |keys| && SortedBy(keys, s)
    ensures r == s[..InsertPos(keys, keys[i], s)] + [i] + s[InsertPos(keys, keys[i], s)..]
    ensures SortedBy(keys, r) && |r| == |s| + 1
    ensures forall y :: y in r <==> y == i || y in s
  {
    var p := InsertPos(keys, keys[i], s);
    var r := s[..p] + [i] + s[p..];
    InsertSorted(keys, i, s, p, r);
    assert s == s[..p] + s[p..];
    r
  }

  lemma InsertSorted(keys: seq<int>, i: nat, s: seq<nat>, p: nat, r: seq<nat>)
    requires i < |keys| && SortedBy(keys, s)
    requires p == InsertPos(keys, keys[i], s) && r == s[..p] + [i] + s[p..]
    ensures SortedBy(keys, r)
  {
    assert forall j :: 0 <= j < p ==> r[j] == s[j];
    assert r[p] == i;
    assert forall j :: p < j < |r| ==> r[j] == s[j - 1];
    forall a, b | 0 <= a < b < |r| ensures keys[r[a]] <= keys[r[b]] {
      if b < p {
        assert keys[s[a]] <= keys[s[b]];
      } else if b == p {
        assert keys[s[a]] <= keys[i];
      } else {
        assert p < |s| && keys[i] < keys[s[p]] <= keys[s[b - 1]];
        if a < p {
          assert keys[s[a]] <= keys[i];
        } else if a > p {
          assert keys[s[a - 1]] <= keys[s[b - 1]];
        }
      }
    }
  }

  /** Inserting a new position keeps the positions distinct. */
  lemma InsertKeepsDistinct(keys: seq<int>, i: nat, s: seq<nat>)
    requires i < |keys| && SortedBy(keys, s) && i !in s
    requires forall a, b :: 0 <= a < b < |s| ==> s[a] != s[b]
    ensures var r := InsertByKey(keys, i, s); forall a, b :: 0 <= a < b < |r| ==> r[a] != r[b]
  {
    var p := InsertPos(keys, keys[i], s);
    var r := InsertByKey(keys, i, s);
    forall a, b | 0 <= a < b < |r| ensures r[a] != r[b] {
      var a' := if a < p then a else a - 1;
      var b' := if b < p then b else b - 1;
      if a != p && b != p {
        assert r[a] == s[a'] && r[b] == s[b'] && a' < b';
      } else if a == p {
        assert r[b] == s[b'] && s[b'] in s;
      } else {
        assert r[a] == s[a'] && s[a'] in s;
      }
    }
  }

  /** The argsort of the first `n` keys. */
  function ArgSortUpTo(keys: seq<int>, n: nat): (r: seq<nat>)
    requires n <= |keys|
    ensures SortedBy(keys, r) && IsPermutation(r, n)
  {
    if n == 0 then []
    else
      var s := ArgSortUpTo(keys, n - 1);
      InsertKeepsDistinct(keys, n - 1, s);
      InsertByKey(keys, n - 1, s)
  }

  /** `np.argsort(keys)`: a permutation of the positions that puts the
      keys in non-decreasing order. */
  function Argsort(keys: seq<int>): (r: seq<nat>)
    ensures IsPermutation(r, |keys|) && SortedBy(keys, r)
  {
    ArgSortUpTo(keys, |keys|)
  }

  /** `[x[i] for i in perm]`. */
  function Permute<T>(x: seq<T>, perm: seq<nat>): (r: seq<T>)
    requires forall i :: 0 <= i < |perm| ==> perm[i] < |x|
    ensures |r| == |perm| && forall i :: 0 <= i < |perm| ==> r[i] == x[perm[i]]
  {
    seq(|perm|, i requires 0 <= i < |perm| => x[perm[i]])
  }

  /** `np.sort(keys)`: the keys in non-decreasing order. */
  function SortInts(keys: seq<int>): (r: seq<int>)
    ensures |r| == |keys|
    ensures forall i, j :: 0 <= i < j < |r| ==> r[i] <= r[j]
    ensures forall i :: 0 <= i < |r| ==> r[i] in keys
    ensures multiset(r) == multiset(keys)
  {
    var perm := Argsort(keys);
    assert forall i :: 0 <= i < |perm| ==> perm[i] < |keys| by {
      forall i | 0 <= i < |perm| ensures perm[i] < |keys| {
        assert perm[i] in perm;
      }
    }
    PermuteMultiset(keys, perm);
    Permute(keys, perm)
  }

  lemma PermuteAppend<T>(x: seq<T>, s: seq<nat>, t: seq<nat>)
    requires forall i :: 0 <= i < |s| ==> s[i] < |x|
    requires forall i :: 0 <= i < |t| ==> t[i] < |x|
    ensures Permute(x, s + t) == Permute(x, s) + Permute(x, t)
  {
  }

  /** Inserting position `i` into `s` adds its value to the sum. */
  lemma SumPermuteInsert(x: seq<int>, s: seq<nat>, p: nat, i: nat)
    requires p <= |s| && i < |x|
    requires forall j :: 0 <= j < |s| ==> s[j] < |x|
    ensures SumInt(Permute(x, s[..p] + [i] + s[p..])) == SumInt(Permute(x, s)) + x[i]
  {
    var a, b := Permute(x, s[..p]), Permute(x, s[p..]);
    PermuteAppend(x, s[..p] + [i], s[p..]);
    PermuteAppend(x, s[..p], [i]);
    assert s == s[..p] + s[p..];
    PermuteAppend(x, s[..p], s[p..]);
    assert Permute(x, [i]) == [x[i]];
    assert Permute(x, s[..p] + [i] + s[p..]) == a + [x[i]] + b;
    assert Permute(x, s) == a + b;
    SumIntAppend(a + [x[i]], b);
    SumIntAppend(a, [x[i]]);
    SumIntAppend(a, b);
    assert SumInt([x[i]]) == x[i] by {
      assert [x[i]][..0] == [];
    }
  }

  /** Sorting moves the keys without changing their sum. */
  lemma {:induction false} SumArgSortUpTo(keys: seq<int>, n: nat)
    requires n <= |keys|
    ensures SumInt(Permute(keys, ArgSortUpTo(keys, n))) == SumInt(keys[..n])
  {
    if n > 0 {
      var s := ArgSortUpTo(keys, n - 1);
      var p := InsertPos(keys, keys[n - 1], s);
      assert ArgSortUpTo(keys, n) == s[..p] + [n - 1] + s[p..];
      SumArgSortUpTo(keys, n - 1);
      SumInsertStep(keys, n, s, p);
    }
  }

  lemma SumInsertStep(keys: seq<int>, n: nat, s: seq<nat>, p: nat)
    requires 0 < n <= |keys| && p <= |s|
    requires forall j :: 0 <= j < |s| ==> s[j] < |keys|
    requires SumInt(Permute(keys, s)) == SumInt(keys[..n - 1])
    ensures SumInt(Permute(keys, s[..p] + [n - 1] + s[p..])) == SumInt(keys[..n])
  {
    SumPermuteInsert(keys, s, p, n - 1);
    var pre := keys[..n];
    assert pre[..n - 1] == keys[..n - 1] && pre[n - 1] == keys[n - 1];
  }

  lemma SumSortInts(keys: seq<int>)
    ensures SumInt(SortInts(keys)) == SumInt(keys)
  {
    SumArgSortUpTo(keys, |keys|);
    assert keys[..|keys|] == keys;
  }

  /** Dropping the largest position from a permutation leaves a
      permutation of the smaller ones. */
  lemma DropLargest(perm: seq<nat>, n: nat, k: nat, rest: seq<nat>)
    requires IsPermutation(perm, n + 1) && k < |perm| && perm[k] == n
    requires rest == perm[..k] + perm[k + 1..]
    ensures IsPermutation(rest, n) && forall i :: 0 <= i < |rest| ==> rest[i] < n
  {
    forall y: nat ensures y in rest <==> y < n {
      if y in rest {
        var m :| 0 <= m < |rest| && rest[m] == y;
        var m' := if m < k then m else m + 1;
        assert perm[m'] == y && m' != k && perm[m'] in perm;
      }
      if y < n {
        assert y in perm;
        var m :| 0 <= m < |perm| && perm[m] == y;
        assert m != k;
        var m' := if m < k then m else m - 1;
        assert rest[m'] == y && rest[m'] in rest;
      }
    }
    forall a, b | 0 <= a < b < |rest| ensures rest[a] != rest[b] {
      var a' := if a < k then a else a + 1;
      var b' := if b < k then b else b + 1;
      assert rest[a] == perm[a'] && rest[b] == perm[b'];
    }
    assert forall i :: 0 <= i < |rest| ==> rest[i] in rest;
  }

  /** Taking position `k` out of the positions takes its element out of
      the permuted sequence. */
  lemma PermuteWithout<T>(x: seq<T>, perm: seq<nat>, k: nat, rest: seq<nat>)
    requires k < |perm| && forall i :: 0 <= i < |perm| ==> perm[i] < |x|
    requires rest == perm[..k] + perm[k + 1..]
    ensures forall i :: 0 <= i < |rest| ==> rest[i] < |x|
    ensures multiset(Permute(x, perm)) == multiset(Permute(x, rest)) + multiset{x[perm[k]]}
  {
    var a, b := Permute(x, perm[..k]), Permute(x, perm[k + 1..]);
    assert perm == perm[..k] + [perm[k]] + perm[k + 1..];
    PermuteAppend(x, perm[..k] + [perm[k]], perm[k + 1..]);
    PermuteAppend(x, perm[..k], [perm[k]]);
    PermuteAppend(x, perm[..k], perm[k + 1..]);
    assert Permute(x, [perm[k]]) == [x[perm[k]]];
    assert Permute(x, perm) == a + [x[perm[k]]] + b;
    assert Permute(x, rest) == a + b;
  }

  /** A permutation of the positions moves the elements without adding
      or losing any. */
  lemma {:induction false} PermuteMultiset<T>(x: seq<T>, perm: seq<nat>)
    requires IsPermutation(perm, |x|) && forall i :: 0 <= i < |perm| ==> perm[i] < |x|
    ensures multiset(Permute(x, perm)) == multiset(x)
  {
    if x != [] {
      var n := |x| - 1;
      assert n in perm;
      var k :| 0 <= k < |perm| && perm[k] == n;
      var rest := perm[..k] + perm[k + 1..];
      DropLargest(perm, n, k, rest);
      PermuteMultiset(x[..n], rest);
      PermuteWithout(x, perm, k, rest);
      assert Permute(x[..n], rest) == Permute(x, rest);
      assert x == x[..n] + [x[n]];
    }
  }
}
