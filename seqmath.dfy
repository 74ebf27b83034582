/** Arithmetic over sequences of samples: sums, means, bounded deques and
    Python slicing. Latencies, percentages and rates are `real`, so that
    "the parts add up to 100" is an exact statement. */
module SeqMath {

  /** Sum of a sequence, folded from the left as `sum()` and `reduce` do. */
  function Sum(s: seq<real>): real
  {
    if s == [] then 0.0 else Sum(s[..|s| - 1]) + s[|s| - 1]
  }

  function SumInt(s: seq<int>): int
  {
    if s == [] then 0 else SumInt(s[..|s| - 1]) + s[|s| - 1]
  }

  /** Arithmetic mean of a non-empty sequence (numpy `mean`). */
  function Mean(s: seq<real>): real
    requires |s| > 0
  {
    Sum(s) / (|s| as real)
  }

  function Min(s: seq<real>): real
    requires |s| > 0
  {
    if |s| == 1 then s[0] else
      var m := Min(s[..|s| - 1]);
      if s[|s| - 1] < m then s[|s| - 1] else m
  }

  function Max(s: seq<real>): real
    requires |s| > 0
  {
    if |s| == 1 then s[0] else
      var m := Max(s[..|s| - 1]);
      if s[|s| - 1] > m then s[|s| - 1] else m
  }

  /** Every element multiplied by `k`. */
  function Scale(s: seq<real>, k: real): (r: seq<real>)
    ensures |r| == |s|
    ensures forall i :: 0 <= i < |s| ==> r[i] == s[i] * k
  {
    if s == [] then [] else Scale(s[..|s| - 1], k) + [s[|s| - 1] * k]
  }

  lemma {:induction false} SumAppend(s: seq<real>, t: seq<real>)
    ensures Sum(s + t) == Sum(s) + Sum(t)
  {
    if t == [] {
      assert s + t == s;
    } else {
      assert (s + t)[..|s + t| - 1] == s + t[..|t| - 1];
      SumAppend(s, t[..|t| - 1]);
    }
  }

  /** The largest element of a non-empty sequence (numpy `max`). */
  function MaxInt(s: seq<int>): (m: int)
    requires |s| > 0
    ensures forall i :: 0 <= i < |s| ==> s[i] <= m
    ensures m in s
  {
    if |s| == 1 then s[0] else
      var m := MaxInt(s[..|s| - 1]);
      assert forall i :: 0 <= i < |s| - 1 ==> s[..|s| - 1][i] == s[i];
      if s[|s| - 1] > m then s[|s| - 1] else m
  }

  /** Elements bounded by `m` sum to at most `|s| * m`. */
  lemma {:induction false} SumIntAtMost(s: seq<int>, m: int)
    requires forall i :: 0 <= i < |s| ==> s[i] <= m
    ensures SumInt(s) <= |s| * m
  {
    if s != [] {
      var init := s[..|s| - 1];
      assert forall i :: 0 <= i < |init| ==> init[i] == s[i];
      SumIntAtMost(init, m);
      assert |s| * m == |init| * m + m;
    }
  }

  lemma {:induction false} SumIntAppend(s: seq<int>, t: seq<int>)
    ensures SumInt(s + t) == SumInt(s) + SumInt(t)
  {
    if t == [] {
      assert s + t == s;
    } else {
      assert (s + t)[..|s + t| - 1] == s + t[..|t| - 1];
      SumIntAppend(s, t[..|t| - 1]);
    }
  }

  lemma {:induction false} SumScale(s: seq<real>, k: real)
    ensures Sum(Scale(s, k)) == Sum(s) * k
  {
    if s != [] {
      assert Scale(s, k)[..|s| - 1] == Scale(s[..|s| - 1], k);
      SumScale(s[..|s| - 1], k);
    }
  }

  /** Scaling every sample scales the mean. */
  lemma MeanScale(s: seq<real>, k: real)
    requires |s| > 0
    ensures Mean(Scale(s, k)) == Mean(s) * k
  {
    SumScale(s, k);
    DivScale(Sum(Scale(s, k)), Sum(s), k, |s| as real);
  }

  lemma DivScale(b: real, a: real, k: real, n: real)
    requires n > 0.0 && b == a * k
    ensures b / n == a / n * k
  {
    var m := a / n;
    assert m * n == a;
    assert (m * k) * n == a * k;
  }

  /** Non-negative samples have a non-negative mean. */
  lemma MeanNonNegative(s: seq<real>)
    requires |s| > 0
    requires forall i :: 0 <= i < |s| ==> s[i] >= 0.0
    ensures Mean(s) >= 0.0
  {
    SumNonNegative(s);
    LowerBoundDiv(0.0, Sum(s), |s| as real);
  }

  /** Normalising by the total makes the parts add up to exactly 100. */
  lemma NormalisedSumIs100(s: seq<real>)
    requires Sum(s) != 0.0
    ensures Sum(Scale(s, 100.0 / Sum(s))) == 100.0
  {
    SumScale(s, 100.0 / Sum(s));
  }

  lemma {:induction false} SumNonNegative(s: seq<real>)
    requires forall i :: 0 <= i < |s| ==> s[i] >= 0.0
    ensures Sum(s) >= 0.0
  {
    if s != [] { SumNonNegative(s[..|s| - 1]); }
  }

  lemma MinMaxBound(s: seq<real>)
    requires |s| > 0
    ensures forall i :: 0 <= i < |s| ==> Min(s) <= s[i] <= Max(s)
    ensures Min(s) * (|s| as real) <= Sum(s) <= Max(s) * (|s| as real)
  {
    MinMaxElements(s);
    SumWithin(s, Min(s), Max(s));
  }

  lemma {:induction false} MinMaxElements(s: seq<real>)
    requires |s| > 0
    ensures forall i :: 0 <= i < |s| ==> Min(s) <= s[i] <= Max(s)
  {
    if |s| > 1 {
      MinMaxElements(s[..|s| - 1]);
      assert forall i :: 0 <= i < |s| - 1 ==> s[i] == s[..|s| - 1][i];
    }
  }

  /** The mean lies between the minimum and the maximum. */
  lemma MeanBetweenMinMax(s: seq<real>)
    requires |s| > 0
    ensures Min(s) <= Mean(s) <= Max(s)
  {
    MinMaxBound(s);
    var n := |s| as real;
    LowerBoundDiv(Min(s), Sum(s), n);
    UpperBoundDiv(Max(s), Sum(s), n);
  }

  /** Values that all lie in [lo, hi] have their mean in [lo, hi]. */
  lemma MeanWithin(s: seq<real>, lo: real, hi: real)
    requires |s| > 0
    requires forall i :: 0 <= i < |s| ==> lo <= s[i] <= hi
    ensures lo <= Mean(s) <= hi
  {
    SumWithin(s, lo, hi);
    LowerBoundDiv(lo, Sum(s), |s| as real);
    UpperBoundDiv(hi, Sum(s), |s| as real);
  }

  lemma {:induction false} SumWithin(s: seq<real>, lo: real, hi: real)
    requires forall i :: 0 <= i < |s| ==> lo <= s[i] <= hi
    ensures lo * (|s| as real) <= Sum(s) <= hi * (|s| as real)
  {
    if s != [] {
      var init := s[..|s| - 1];
      assert forall i :: 0 <= i < |init| ==> init[i] == s[i];
      SumWithin(init, lo, hi);
      assert Sum(s) == Sum(init) + s[|s| - 1];
      BoundStep(lo, hi, |init| as real, |s| as real, Sum(init), s[|s| - 1]);
    }
  }

  /** One more value within [lo, hi] keeps a sum of `n` such values within
      bounds. */
  lemma BoundStep(lo: real, hi: real, n: real, n1: real, a: real, x: real)
    requires n1 == n + 1.0
    requires lo * n <= a <= hi * n && lo <= x <= hi
    ensures lo * n1 <= a + x <= hi * n1
  {
    assert lo * n1 == lo * n + lo;
    assert hi * n1 == hi * n + hi;
  }

  lemma LowerBoundDiv(a: real, b: real, n: real)
    requires n > 0.0 && a * n <= b
    ensures a <= b / n
  {
    assert b / n * n == b;
  }

  lemma UpperBoundDiv(a: real, b: real, n: real)
    requires n > 0.0 && b <= a * n
    ensures b / n <= a
  {
    assert b / n * n == b;
  }

  /** The last `cap` elements of `s`: what a `deque(maxlen=cap)` keeps. */
  function Bounded<T>(s: seq<T>, cap: nat): (r: seq<T>)
    ensures |r| <= cap && |r| <= |s|
  {
    if |s| <= cap then s else s[|s| - cap..]
  }

  /** `deque.append(x)` on a deque with `maxlen=cap`: the oldest entry is
      dropped once the deque is full. */
  function Push<T>(s: seq<T>, x: T, cap: nat): (r: seq<T>)
    ensures |r| <= cap
  {
    Bounded(s + [x], cap)
  }

  lemma PushKeepsNewest<T>(s: seq<T>, x: T, cap: nat)
    requires cap > 0 && |s| <= cap
    ensures |Push(s, x, cap)| == if |s| < cap then |s| + 1 else cap
    ensures Push(s, x, cap)[|Push(s, x, cap)| - 1] == x
    ensures |s| < cap ==> Push(s, x, cap) == s + [x]
    ensures |s| == cap ==> Push(s, x, cap) == s[1..] + [x]
  {
  }

  /** Python slicing `s[a:b]` for non-negative bounds: out-of-range bounds
      are clamped instead of raising. */
  function PySlice<T>(s: seq<T>, a: nat, b: nat): (r: seq<T>)
    ensures |r| <= |s|
    ensures a <= b <= |s| ==> r == s[a..b]
    ensures |r| == (if b <= a || |s| <= a then 0 else if b <= |s| then b - a else |s| - a)
  {
    var lo := if a < |s| then a else |s|;
    var hi := if b < |s| then b else |s|;
    if hi <= lo then [] else s[lo..hi]
  }

  /** Whatever the bounds, entry `i` of the slice is entry `a + i` of `s`. */
  lemma PySliceEntries<T>(s: seq<T>, a: nat, b: nat)
    ensures forall i :: 0 <= i < |PySlice(s, a, b)| ==> PySlice(s, a, b)[i] == s[a + i]
  {
  }

  /** numpy's `percentile(a, q)` is not modelled: callers receive it as a
      parameter. */
  type Percentile = (seq<real>, real) -> real

  /** The values of the `(time, value)` samples taken at most `window`
      seconds before `now`, oldest first. */
  function Recent(samples: seq<(real, real)>, now: real, window: real): (r: seq<real>)
    ensures |r| <= |samples|
  {
    if samples == [] then []
    else
      var last := samples[|samples| - 1];
      Recent(samples[..|samples| - 1], now, window) + (if now - last.0 <= window then [last.1] else [])
  }

  /** Exactly the samples inside the window contribute, each once. */
  lemma {:induction false} RecentSum(samples: seq<(real, real)>, now: real, window: real)
    ensures Sum(Recent(samples, now, window)) == WindowTotal(samples, now, window)
    ensures (forall i :: 0 <= i < |samples| ==> now - samples[i].0 > window) ==> Recent(samples, now, window) == []
  {
    if samples != [] {
      var init := samples[..|samples| - 1];
      var last := samples[|samples| - 1];
      RecentSum(init, now, window);
      SumAppend(Recent(init, now, window), if now - last.0 <= window then [last.1] else []);
      assert Sum([last.1]) == last.1 by { assert [last.1][..0] == []; }
      assert forall i :: 0 <= i < |init| ==> init[i] == samples[i];
    }
  }

  /** The sum of the values of the samples inside the window. */
  function WindowTotal(samples: seq<(real, real)>, now: real, window: real): real
  {
    if samples == [] then 0.0
    else
      var last := samples[|samples| - 1];
      WindowTotal(samples[..|samples| - 1], now, window) + (if now - last.0 <= window then last.1 else 0.0)
  }

  /** `s[-1]`, or `d` when `s` is empty. */
  function LastOr<T>(s: seq<T>, d: T): T
  {
    if s == [] then d else s[|s| - 1]
  }

  /** Every sample's value is positive. */
  predicate PositiveValues(samples: seq<(real, real)>)
  {
    forall i :: 0 <= i < |samples| ==> samples[i].1 > 0.0
  }

  /** Filtering by time keeps values positive. */
  lemma {:induction false} RecentPositive(samples: seq<(real, real)>, now: real, window: real)
    requires PositiveValues(samples)
    ensures forall i :: 0 <= i < |Recent(samples, now, window)| ==> Recent(samples, now, window)[i] > 0.0
  {
    if samples != [] {
      var init := samples[..|samples| - 1];
      assert PositiveValues(init) by {
        forall i | 0 <= i < |init| ensures init[i].1 > 0.0 { assert init[i] == samples[i]; }
      }
      RecentPositive(init, now, window);
    }
  }

  /** A bounded push of a positive sample keeps every value positive. */
  lemma PushPositive(samples: seq<(real, real)>, x: (real, real), cap: nat)
    requires PositiveValues(samples) && x.1 > 0.0
    ensures PositiveValues(Push(samples, x, cap))
  {
    var all := samples + [x];
    assert PositiveValues(all) by {
      forall i | 0 <= i < |all| ensures all[i].1 > 0.0 {
        if i < |samples| { assert all[i] == samples[i]; }
      }
    }
    var r := Push(samples, x, cap);
    forall i | 0 <= i < |r| ensures r[i].1 > 0.0 {
      assert r[i] == all[i + (|all| - |r|)];
    }
  }
}
