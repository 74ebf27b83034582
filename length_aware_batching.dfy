/** Length-aware batching (`ml_inference_server/utils/length_aware_batching.py`):
    pairs are ordered by an estimate of their token length so that a batch
    holds pairs of similar length, and the scores computed in that order
    are put back into the caller's order afterwards. The estimate divides
    a character count by `chars_per_token`, which raises ZeroDivisionError
    for a rate of 0; that error is modelled. */
module LengthAwareBatching {
  import opened Wrappers
  import opened SeqMath
  import opened ArgSort
  import Decimal

  /** A (query, document) pair. */
  type Pair = (string, string)

  /** Python `int(x)` of a float: truncation toward zero. */
  function Trunc(x: real): (t: int)
    ensures x >= 0.0 ==> t as real <= x < t as real + 1.0
    ensures x < 0.0 ==> t as real - 1.0 < x <= t as real
  {
    if x >= 0.0 then x.Floor else -((-x).Floor)
  }

  /** `estimate_token_length(text, chars_per_token)`: at least one token;
      dividing by a rate of 0 raises. */
  function EstimateTokenLength(text: string, cpt: real): (r: Result<nat>)
    ensures r.Err? <==> cpt == 0.0
    ensures r.Err? ==> r.error == ZeroDivisionError
    ensures r.Ok? ==> r.value >= 1
  {
    if cpt == 0.0 then Err(ZeroDivisionError)
    else
      var t := Trunc(|text| as real / cpt);
      Ok(if t > 1 then t else 1)
  }

  /** For a positive rate the estimate is the whole number of
      `chars_per_token` blocks in the text, or 1 when there is less than
      one block; a negative rate always gives 1. */
  lemma EstimateTokenLengthIs(text: string, cpt: real)
    requires cpt != 0.0
    ensures var n := EstimateTokenLength(text, cpt).value;
      (cpt < 0.0 ==> n == 1) &&
      (cpt > 0.0 ==> (
        (n as real <= |text| as real / cpt < n as real + 1.0) ||
        (n == 1 && |text| as real / cpt < 1.0)))
  {
    var x := |text| as real / cpt;
    if cpt < 0.0 {
      assert x * cpt == |text| as real;
      assert x <= 0.0;
    }
  }

  lemma DivMonotone(x: real, y: real, c: real)
    requires c > 0.0 && x <= y
    ensures x / c <= y / c
  {
    assert x / c * c == x;
    LowerBoundDiv(x / c, y, c);
  }

  /** A longer text never gets a smaller estimate. */
  lemma EstimateMonotone(a: string, b: string, cpt: real)
    requires cpt > 0.0 && |a| <= |b|
    ensures EstimateTokenLength(a, cpt).value <= EstimateTokenLength(b, cpt).value
  {
    DivMonotone(|a| as real, |b| as real, cpt);
  }

  /** `estimate_pair_length(query, doc, chars_per_token)`: the two texts'
      estimates plus the three special tokens [CLS], [SEP], [SEP]. */
  function EstimatePairLength(query: string, doc: string, cpt: real): (r: Result<nat>)
    ensures r.Err? <==> cpt == 0.0
    ensures r.Err? ==> r.error == ZeroDivisionError
    ensures r.Ok? ==> (r.value >= 5 &&
      r.value == EstimateTokenLength(query, cpt).value + EstimateTokenLength(doc, cpt).value + 3)
  {
    if cpt == 0.0 then Err(ZeroDivisionError)
    else Ok(EstimateTokenLength(query, cpt).value + EstimateTokenLength(doc, cpt).value + 3)
  }

  /** The pair estimates, position by position. */
  function Lengths(pairs: seq<Pair>, cpt: real): (r: seq<int>)
    requires cpt != 0.0 || pairs == []
    ensures |r| == |pairs|
    ensures forall i :: 0 <= i < |pairs| ==> r[i] == EstimatePairLength(pairs[i].0, pairs[i].1, cpt).value
  {
    seq(|pairs|, i requires 0 <= i < |pairs| => EstimatePairLength(pairs[i].0, pairs[i].1, cpt).value)
  }

  /** The result of `sort_pairs_by_length`. */
  datatype SortedPairs = SortedPairs(pairs: seq<Pair>, indices: seq<nat>, unsort: seq<nat>)

  /** `indices` is a permutation that orders `lengths`, `pairs` lists the pairs in that order and `unsort` is the
      inverse permutation. */
  ghost predicate SortsBy(lengths: seq<int>, pairs: seq<Pair>, s: SortedPairs)
    requires |lengths| == |pairs|
  {
    var n := |pairs|;
    IsPermutation(s.indices, n) && SortedBy(lengths, s.indices) &&
    |s.pairs| == n && (forall i :: 0 <= i < n ==> s.pairs[i] == pairs[s.indices[i]]) &&
    |s.unsort| == n &&
    (forall i :: 0 <= i < n ==> s.unsort[s.indices[i]] == i) &&
    (forall j :: 0 <= j < n ==> s.unsort[j] < n && s.indices[s.unsort[j]] == j)
  }

  /** A table that undoes every step of a permutation also redoes it: every
      position has a place in the sorted order. */
  lemma InverseBothWays(perm: seq<nat>, inv: seq<nat>, n: nat)
    requires IsPermutation(perm, n) && |inv| == n
    requires forall i :: 0 <= i < n ==> perm[i] < n && inv[perm[i]] == i
    ensures forall j :: 0 <= j < n ==> inv[j] < n && perm[inv[j]] == j
  {
    forall j | 0 <= j < n ensures inv[j] < n && perm[inv[j]] == j {
      assert j in perm;
      var k :| 0 <= k < n && perm[k] == j;
      assert inv[perm[k]] == k;
    }
  }

  /** `sort_pairs_by_length(pairs, chars_per_token)`. */
  method SortPairsByLength(pairs: seq<Pair>, cpt: real) returns (r: Result<SortedPairs>)
    ensures r.Err? <==> cpt == 0.0 && pairs != []
    ensures r.Err? ==> r.error == ZeroDivisionError
    ensures r.Ok? ==> (cpt != 0.0 || pairs == []) && SortsBy(Lengths(pairs, cpt), pairs, r.value)
    ensures r.Ok? ==> r.value.indices == Argsort(Lengths(pairs, cpt))
  {
    if cpt == 0.0 && pairs != [] {
      return Err(ZeroDivisionError);
    }
    var lengths := Lengths(pairs, cpt);
    var sortedIndices := Argsort(lengths);
    var sortedPairs := Permute(pairs, sortedIndices);
    var unsort: seq<nat> := seq(|pairs|, _ => 0);
    for newIdx := 0 to |sortedIndices|
      invariant |unsort| == |pairs|
      invariant forall k :: 0 <= k < newIdx ==> unsort[sortedIndices[k]] == k
    {
      unsort := unsort[sortedIndices[newIdx] := newIdx];
    }
    InverseBothWays(sortedIndices, unsort, |pairs|);
    return Ok(SortedPairs(sortedPairs, sortedIndices, unsort));
  }

  /** The estimates read along the sorted pairs never decrease. */
  lemma SortedPairsNonDecreasing(pairs: seq<Pair>, cpt: real, s: SortedPairs)
    requires cpt != 0.0 || pairs == []
    requires SortsBy(Lengths(pairs, cpt), pairs, s)
    ensures forall i, j :: 0 <= i < j < |s.pairs| ==>
      EstimatePairLength(s.pairs[i].0, s.pairs[i].1, cpt).value <=
      EstimatePairLength(s.pairs[j].0, s.pairs[j].1, cpt).value
  {
    var lengths := Lengths(pairs, cpt);
    forall i, j | 0 <= i < j < |s.pairs|
      ensures EstimatePairLength(s.pairs[i].0, s.pairs[i].1, cpt).value <=
        EstimatePairLength(s.pairs[j].0, s.pairs[j].1, cpt).value
    {
      assert s.pairs[i] == pairs[s.indices[i]] && s.pairs[j] == pairs[s.indices[j]];
      assert lengths[s.indices[i]] <= lengths[s.indices[j]];
    }
  }

  /** `unsort_scores(scores)`: `scores[unsort_indices]`; numpy raises
      IndexError for a position past the end of `scores`. */
  function UnsortScores<T>(scores: seq<T>, unsort: seq<nat>): (r: Result<seq<T>>)
    ensures r.Err? <==> exists i :: 0 <= i < |unsort| && unsort[i] >= |scores|
    ensures r.Err? ==> r.error == IndexError
    ensures r.Ok? ==> |r.value| == |unsort| && forall i :: 0 <= i < |unsort| ==> r.value[i] == scores[unsort[i]]
  {
    if forall i :: 0 <= i < |unsort| ==> unsort[i] < |scores| then Ok(Permute(scores, unsort))
    else Err(IndexError)
  }

  /** Scores produced in the sorted order come back in the caller's
      order: the score at position j belongs to `pairs[j]`. */
  lemma UnsortRestoresOrder<T>(lengths: seq<int>, pairs: seq<Pair>, s: SortedPairs, scores: seq<T>)
    requires |lengths| == |pairs| && SortsBy(lengths, pairs, s) && |scores| == |pairs|
    ensures UnsortScores(Permute(scores, s.indices), s.unsort) == Ok(scores)
  {
    var sorted := Permute(scores, s.indices);
    assert forall i :: 0 <= i < |s.unsort| ==> s.unsort[i] < |sorted|;
    var r := UnsortScores(sorted, s.unsort);
    assert |r.value| == |scores|;
    forall j | 0 <= j < |scores| ensures r.value[j] == scores[j] {
      assert r.value[j] == sorted[s.unsort[j]] == scores[s.indices[s.unsort[j]]];
    }
    assert r.value == scores;
  }

  /** `bucket_pairs_by_length`'s boundaries when none are given. */
  const DefaultBoundaries: seq<int> := [64, 128, 256, 384]

  /** The first bucket whose boundary is at least `length`, or the extra
      last bucket when there is none. */
  function BucketOf(length: int, boundaries: seq<int>): (k: nat)
    ensures k <= |boundaries|
    ensures forall i :: 0 <= i < k ==> length > boundaries[i]
    ensures k < |boundaries| ==> length <= boundaries[k]
  {
    if boundaries == [] || length <= boundaries[0] then 0
    else
      var k := BucketOf(length, boundaries[1..]);
      assert forall i :: 1 <= i < k + 1 ==> boundaries[i] == boundaries[1..][i - 1];
      k + 1
  }

  /** The entries bucket `k` holds once the first `m` pairs are placed:
      the `(index, pair)` of each of them whose estimate falls in it, in
      index order. */
  function BucketContents(lengths: seq<int>, pairs: seq<Pair>, boundaries: seq<int>, k: nat, m: nat): seq<(nat, Pair)>
    requires m <= |lengths| == |pairs|
  {
    if m == 0 then []
    else
      BucketContents(lengths, pairs, boundaries, k, m - 1) +
      (if BucketOf(lengths[m - 1], boundaries) == k then [(m - 1, pairs[m - 1])] else [])
  }

  /** An entry is in bucket `k` exactly when it is one of the placed pairs
      with its own index and its estimate selects bucket `k`; so every
      index lands in exactly one bucket. */
  lemma {:induction false} BucketMembership(
    lengths: seq<int>, pairs: seq<Pair>, boundaries: seq<int>, k: nat, m: nat, i: nat, p: Pair)
    requires m <= |lengths| == |pairs|
    ensures (i, p) in BucketContents(lengths, pairs, boundaries, k, m) <==>
      i < m && p == pairs[i] && BucketOf(lengths[i], boundaries) == k
  {
    if m > 0 {
      BucketMembership(lengths, pairs, boundaries, k, m - 1, i, p);
    }
  }

  /** Every entry of a bucket has an index below `m`. */
  lemma {:induction false} BucketIndicesBelow(
    lengths: seq<int>, pairs: seq<Pair>, boundaries: seq<int>, k: nat, m: nat)
    requires m <= |lengths| == |pairs|
    ensures forall e :: e in BucketContents(lengths, pairs, boundaries, k, m) ==> e.0 < m
  {
    forall e | e in BucketContents(lengths, pairs, boundaries, k, m) ensures e.0 < m {
      BucketMembership(lengths, pairs, boundaries, k, m, e.0, e.1);
    }
  }

  ghost predicate Ascending(b: seq<(nat, Pair)>)
  {
    forall a, c :: 0 <= a < c < |b| ==> b[a].0 < b[c].0
  }

  /** Within a bucket the original indices ascend. */
  lemma {:induction false} BucketAscending(
    lengths: seq<int>, pairs: seq<Pair>, boundaries: seq<int>, k: nat, m: nat)
    requires m <= |lengths| == |pairs|
    ensures Ascending(BucketContents(lengths, pairs, boundaries, k, m))
  {
    if m > 0 {
      var prev := BucketContents(lengths, pairs, boundaries, k, m - 1);
      BucketAscending(lengths, pairs, boundaries, k, m - 1);
      BucketIndicesBelow(lengths, pairs, boundaries, k, m - 1);
      var b := BucketContents(lengths, pairs, boundaries, k, m);
      if BucketOf(lengths[m - 1], boundaries) == k {
        assert b == prev + [(m - 1, pairs[m - 1])];
      } else {
        assert b == prev;
      }
      forall a, c | 0 <= a < c < |b| ensures b[a].0 < b[c].0 {
        assert b[a] == prev[a];
        if c >= |prev| {
          assert prev[a] in prev;
          assert prev[a].0 < m - 1;
          assert b[c].0 == m - 1;
        } else {
          assert b[c] == prev[c];
        }
      }
    }
  }

  /** The search for a pair's bucket: the first boundary not below its
      length, else the extra last bucket. */
  method FindBucket(length: int, boundaries: seq<int>) returns (bucketIdx: nat)
    ensures bucketIdx == BucketOf(length, boundaries)
  {
    bucketIdx := |boundaries|;
    var i := 0;
    while i < |boundaries|
      invariant 0 <= i <= |boundaries| && bucketIdx == |boundaries|
      invariant forall j :: 0 <= j < i ==> length > boundaries[j]
    {
      if length <= boundaries[i] {
        bucketIdx := i;
        break;
      }
      i := i + 1;
    }
  }

  /** Placing pair `m` extends its own bucket and leaves the others alone. */
  lemma PlaceNext(lengths: seq<int>, pairs: seq<Pair>, boundaries: seq<int>, m: nat)
    requires m < |lengths| == |pairs|
    ensures forall k: nat :: (
      BucketContents(lengths, pairs, boundaries, k, m + 1) ==
        if k == BucketOf(lengths[m], boundaries) then BucketContents(lengths, pairs, boundaries, k, m) + [(m, pairs[m])]
        else BucketContents(lengths, pairs, boundaries, k, m))
  {
  }

  /** `bucket_pairs_by_length(pairs, bucket_boundaries, chars_per_token)`:
      one bucket per boundary plus one for longer pairs, each holding its
      `(index, pair)` entries in index order. */
  method BucketPairsByLength(pairs: seq<Pair>, boundaries: Option<seq<int>>, cpt: real)
    returns (r: Result<seq<seq<(nat, Pair)>>>)
    ensures r.Err? <==> cpt == 0.0 && pairs != []
    ensures r.Err? ==> r.error == ZeroDivisionError
    ensures r.Ok? ==> (var b := boundaries.GetOr(DefaultBoundaries);
      |r.value| == |b| + 1 &&
      forall k :: 0 <= k <= |b| ==> r.value[k] == BucketContents(Lengths(pairs, cpt), pairs, b, k, |pairs|))
  {
    if cpt == 0.0 && pairs != [] {
      return Err(ZeroDivisionError);
    }
    var b := if boundaries.None? then DefaultBoundaries else boundaries.value;
    var buckets: seq<seq<(nat, Pair)>> := seq(|b| + 1, _ => []);
    ghost var lengths := Lengths(pairs, cpt);
    for idx := 0 to |pairs|
      invariant |buckets| == |b| + 1
      invariant forall k :: 0 <= k <= |b| ==> buckets[k] == BucketContents(lengths, pairs, b, k, idx)
    {
      var length := EstimatePairLength(pairs[idx].0, pairs[idx].1, cpt).value;
      var bucketIdx := FindBucket(length, b);
      assert length == lengths[idx];
      PlaceNext(lengths, pairs, b, idx);
      buckets := buckets[bucketIdx := buckets[bucketIdx] + [(idx, pairs[idx])]];
    }
    return Ok(buckets);
  }

  /** One batch of `iter_batches`: pairs and their original indices. */
  datatype Batch = Batch(pairs: seq<Pair>, indices: seq<nat>)

  /** The batches `iter_batches` yields from offset `i` on: slices of
      `batch_size` consecutive sorted pairs and indices, the last one
      shorter when the count is not a multiple. */
  function BatchesFrom(sp: seq<Pair>, si: seq<nat>, size: nat, i: nat): (r: seq<Batch>)
    requires |sp| == |si| && size > 0
    ensures forall k :: 0 <= k < |r| ==> 0 < |r[k].pairs| <= size && |r[k].indices| == |r[k].pairs|
    decreases |sp| - i
  {
    if i >= |sp| then []
    else [Batch(PySlice(sp, i, i + size), PySlice(si, i, i + size))] + BatchesFrom(sp, si, size, i + size)
  }

  function FlattenPairs(bs: seq<Batch>): seq<Pair>
  {
    if bs == [] then [] else bs[0].pairs + FlattenPairs(bs[1..])
  }

  function FlattenIndices(bs: seq<Batch>): seq<nat>
  {
    if bs == [] then [] else bs[0].indices + FlattenIndices(bs[1..])
  }

  /** Joined back together, the batches from offset `i` are exactly the
      sorted pairs and indices from `i` on. */
  lemma {:induction false} BatchesCover(sp: seq<Pair>, si: seq<nat>, size: nat, i: nat)
    requires |sp| == |si| && size > 0 && i <= |sp|
    ensures FlattenPairs(BatchesFrom(sp, si, size, i)) == sp[i..]
    ensures FlattenIndices(BatchesFrom(sp, si, size, i)) == si[i..]
    decreases |sp| - i
  {
    if i < |sp| {
      var j := if i + size < |sp| then i + size else |sp|;
      var bs := BatchesFrom(sp, si, size, i);
      BatchesCover(sp, si, size, j);
      if i + size >= |sp| {
        assert BatchesFrom(sp, si, size, i + size) == [];
        assert sp[j..] == [] && si[j..] == [];
      }
      assert bs[1..] == BatchesFrom(sp, si, size, i + size);
      assert sp[i..] == sp[i..j] + sp[j..];
      assert si[i..] == si[i..j] + si[j..];
    }
  }

  /** A batch's indices point into `pairs` and its pairs are the ones they
      point to. */
  ghost predicate Aligned(pairs: seq<Pair>, b: Batch)
  {
    (forall t :: 0 <= t < |b.indices| ==> b.indices[t] < |pairs|) &&
    b.pairs == Permute(pairs, b.indices)
  }

  /** When the sorted pairs are the pairs read through the sorted indices,
      every batch's pairs are the pairs read through that batch's indices. */
  lemma {:induction false} BatchesAligned(pairs: seq<Pair>, sp: seq<Pair>, si: seq<nat>, size: nat, i: nat)
    requires |sp| == |si| && size > 0
    requires forall t :: 0 <= t < |si| ==> si[t] < |pairs| && sp[t] == pairs[si[t]]
    ensures forall b <- BatchesFrom(sp, si, size, i) :: Aligned(pairs, b)
    decreases |sp| - i
  {
    if i < |sp| {
      var bs := BatchesFrom(sp, si, size, i);
      var rest := BatchesFrom(sp, si, size, i + size);
      BatchesAligned(pairs, sp, si, size, i + size);
      SliceFrom(sp, i, size);
      SliceFrom(si, i, size);
      var first := bs[0];
      assert forall t :: 0 <= t < |first.indices| ==> first.indices[t] == si[i + t] && first.pairs[t] == sp[i + t];
      assert first.pairs == Permute(pairs, first.indices);
      assert bs == [first] + rest;
    }
  }

  /** The state `LengthAwareBatcher(pairs, chars_per_token)` computes once;
      its fields are not changed afterwards. */
  datatype Batcher = Batcher(pairs: seq<Pair>, charsPerToken: real, sorted: SortedPairs, estimatedLengths: seq<int>)

  ghost predicate ValidBatcher(b: Batcher)
  {
    (b.charsPerToken != 0.0 || b.pairs == []) &&
    b.estimatedLengths == Lengths(b.pairs, b.charsPerToken) &&
    SortsBy(b.estimatedLengths, b.pairs, b.sorted)
  }

  /** `LengthAwareBatcher(pairs, chars_per_token)`. */
  method NewBatcher(pairs: seq<Pair>, cpt: real) returns (r: Result<Batcher>)
    ensures r.Err? <==> cpt == 0.0 && pairs != []
    ensures r.Err? ==> r.error == ZeroDivisionError
    ensures r.Ok? ==> ValidBatcher(r.value) && r.value.pairs == pairs && r.value.charsPerToken == cpt
  {
    var s := SortPairsByLength(pairs, cpt);
    if s.Err? {
      return Err(s.error);
    }
    return Ok(Batcher(pairs, cpt, s.value, Lengths(pairs, cpt)));
  }

  /** `iter_batches(batch_size)`. `range` rejects a step of 0 with
      ValueError when the generator is first advanced; a negative step
      yields nothing. */
  function IterBatches(b: Batcher, batchSize: int): (r: Result<seq<Batch>>)
    requires ValidBatcher(b)
    ensures r.Err? <==> batchSize == 0
    ensures r.Err? ==> r.error.ValueError?
    ensures batchSize < 0 ==> r == Ok([])
    ensures batchSize > 0 ==> (r.Ok? &&
      FlattenPairs(r.value) == b.sorted.pairs && FlattenIndices(r.value) == b.sorted.indices &&
      forall batch <- r.value :: 0 < |batch.pairs| <= batchSize && Aligned(b.pairs, batch))
  {
    if batchSize == 0 then Err(ValueError("range() arg 3 must not be zero"))
    else if batchSize < 0 then Ok([])
    else
      var s := b.sorted;
      BatchesCover(s.pairs, s.indices, batchSize, 0);
      BatchesAligned(b.pairs, s.pairs, s.indices, batchSize, 0);
      Ok(BatchesFrom(s.pairs, s.indices, batchSize, 0))
  }

  /** One side of the padding comparison. */
  datatype PaddingStats = PaddingStats(totalTokens: int, realTokens: int, paddingTokens: int, paddingPct: real)

  /** `estimate_padding_reduction`'s dictionary: only `reduction_pct` when
      there are no pairs. */
  datatype PaddingReport =
    | ReductionOnly(reductionPct: real)
    | Report(random: PaddingStats, lengthAware: PaddingStats, reductionPct: real, tokensSaved: int)

  /** A share of a positive whole, in percent rounded to one decimal, lies
      between 0 and 100. */
  lemma PercentWithin(part: int, total: int)
    requires 0 <= part <= total && total > 0
    ensures 0.0 <= Decimal.Rounded(part as real / total as real * 100.0, 1) <= 100.0
  {
    LowerBoundDiv(0.0, part as real, total as real);
    UpperBoundDiv(1.0, part as real, total as real);
    Decimal.RoundedAtMost(part as real / total as real * 100.0, 100, 1);
  }

  /** The padding of `total` slots holding `used` real tokens, with the share
      of padding in percent rounded to one decimal (0 for no slots). */
  function Stats(total: int, used: int): (s: PaddingStats)
    ensures s.totalTokens == total && s.realTokens == used && s.paddingTokens + used == total
    ensures 0 <= used <= total ==> 0.0 <= s.paddingPct <= 100.0
  {
    var pct := if total > 0 then Decimal.Rounded((total - used) as real / total as real * 100.0, 1) else 0.0;
    assert 0 <= used <= total ==> 0.0 <= pct <= 100.0 by {
      if 0 <= used <= total && total > 0 {
        PercentWithin(total - used, total);
      }
    }
    PaddingStats(total, used, total - used, pct)
  }

  /** The padding saved, in percent of the padding of random batching and
      rounded to one decimal; 0 when random batching pads nothing. Saving
      part of the padding gives a share between 0 and 100. */
  function ReductionPct(randomPadding: int, awarePadding: int): (pct: real)
    ensures 0 <= awarePadding <= randomPadding ==> 0.0 <= pct <= 100.0
  {
    var pct := if randomPadding > 0 then Decimal.Rounded((randomPadding - awarePadding) as real / randomPadding as real * 100.0, 1)
      else 0.0;
    assert 0 <= awarePadding <= randomPadding ==> 0.0 <= pct <= 100.0 by {
      if 0 <= awarePadding <= randomPadding && randomPadding > 0 {
        PercentWithin(randomPadding - awarePadding, randomPadding);
      }
    }
    pct
  }

  /** Slots the length-aware batches from offset `i` on take: each batch is
      padded to its own longest entry. */
  function PaddedFrom(s: seq<int>, size: nat, i: nat): int
    requires size > 0
    decreases |s| - i
  {
    if i >= |s| then 0
    else
      var batch := PySlice(s, i, i + size);
      |batch| * MaxInt(batch) + PaddedFrom(s, size, i + size)
  }

  /** Python slicing at a non-negative offset, as a plain sub-sequence. */
  lemma SliceFrom<T>(s: seq<T>, i: nat, size: nat)
    requires i < |s| && size > 0
    ensures var j := if i + size < |s| then i + size else |s|;
      PySlice(s, i, i + size) == s[i..j] && |PySlice(s, i, i + size)| > 0
  {
  }

  lemma {:induction false} MulMonotone(a: nat, b: int, c: int)
    requires b <= c
    ensures a * b <= a * c
  {
    if a > 0 {
      MulMonotone(a - 1, b, c);
      assert a * b == (a - 1) * b + b && a * c == (a - 1) * c + c;
    }
  }

  /** One batch padded to its longest entry takes at least its real tokens
      and at most what padding it to any common bound `m` takes. */
  lemma BatchPadding(batch: seq<int>, m: int)
    requires |batch| > 0
    requires forall t :: 0 <= t < |batch| ==> batch[t] <= m
    ensures SumInt(batch) <= |batch| * MaxInt(batch) <= |batch| * m
  {
    var top := MaxInt(batch);
    assert top <= m by {
      var t :| 0 <= t < |batch| && batch[t] == top;
    }
    SumIntAtMost(batch, top);
    MulMonotone(|batch|, top, m);
  }

  /** The step `estimate_padding_reduction` takes at offset `i`: the batch
      extends the prefix already counted, and its padded size is what the
      batches from `i` take beyond those after it. */
  lemma PaddedStep(s: seq<int>, size: nat, i: nat, j: nat, batch: seq<int>)
    requires size > 0 && i < |s|
    requires j == (if i + size < |s| then i + size else |s|) && batch == PySlice(s, i, i + size)
    ensures |batch| > 0 && batch == s[i..j] && s[..j] == s[..i] + batch && s[i..] == batch + s[j..]
    ensures SumInt(s[..j]) == SumInt(s[..i]) + SumInt(batch)
    ensures PaddedFrom(s, size, i) == |batch| * MaxInt(batch) + PaddedFrom(s, size, j)
  {
    SliceFrom(s, i, size);
    assert s[..j] == s[..i] + batch;
    SumIntAppend(s[..i], batch);
    if i + size >= |s| {
      assert PaddedFrom(s, size, i + size) == 0 && PaddedFrom(s, size, j) == 0;
    }
  }

  lemma Distribute(a: nat, b: nat, c: nat, m: int)
    requires a + b == c
    ensures c * m == a * m + b * m
  {
  }

  /** Padding each batch to its own longest entry takes at least the real
      tokens. */
  lemma {:induction false} PaddedFromAtLeast(s: seq<int>, size: nat, i: nat)
    requires size > 0 && i <= |s|
    ensures SumInt(s[i..]) <= PaddedFrom(s, size, i)
    decreases |s| - i
  {
    if i < |s| {
      var j := if i + size < |s| then i + size else |s|;
      var batch := PySlice(s, i, i + size);
      PaddedStep(s, size, i, j, batch);
      PaddedFromAtLeast(s, size, j);
      BatchPadding(batch, MaxInt(batch));
      SumIntAppend(batch, s[j..]);
    }
  }

  /** ... and at most what padding everything to a common bound `m`
      takes. */
  lemma {:induction false} PaddedFromAtMost(s: seq<int>, size: nat, i: nat, m: int, rest: nat)
    requires size > 0 && i <= |s| && rest == |s| - i
    requires forall t :: 0 <= t < |s| ==> s[t] <= m
    ensures PaddedFrom(s, size, i) <= rest * m
    decreases rest
  {
    if i < |s| {
      var j := if i + size < |s| then i + size else |s|;
      var restJ := |s| - j;
      var batch := PySlice(s, i, i + size);
      var top := PaddedUnfold(s, size, i);
      PaddedFromAtMost(s, size, j, m, restJ);
      SliceAtMost(s, i, size, m);
      UpperStep(PaddedFrom(s, size, i), PaddedFrom(s, size, j), |batch|, top, restJ, rest, m);
    } else {
      Distribute(0, 0, rest, m);
    }
  }

  /** The first batch from offset `i` on and what it adds. */
  lemma PaddedUnfold(s: seq<int>, size: nat, i: nat) returns (top: int)
    requires size > 0 && i < |s|
    ensures var batch := PySlice(s, i, i + size);
      var j := if i + size < |s| then i + size else |s|;
      |batch| == j - i && top == MaxInt(batch) &&
      PaddedFrom(s, size, i) == |batch| * top + PaddedFrom(s, size, j)
  {
    var batch := PySlice(s, i, i + size);
    SliceFrom(s, i, size);
    top := MaxInt(batch);
    if i + size >= |s| {
      assert PaddedFrom(s, size, i + size) == 0 && PaddedFrom(s, size, |s|) == 0;
    }
  }

  /** A batch of entries bounded by `m` has its longest bounded by `m`. */
  lemma SliceAtMost(s: seq<int>, i: nat, size: nat, m: int)
    requires size > 0 && i < |s|
    requires forall t :: 0 <= t < |s| ==> s[t] <= m
    ensures MaxInt(PySlice(s, i, i + size)) <= m
  {
    var batch := PySlice(s, i, i + size);
    SliceFrom(s, i, size);
    assert forall t :: 0 <= t < |batch| ==> batch[t] == s[i + t];
    var top := MaxInt(batch);
    var t :| 0 <= t < |batch| && batch[t] == top;
  }

  /** The arithmetic of one step of `PaddedFromAtMost`. */
  lemma UpperStep(pi: int, pj: int, a: nat, top: int, b: nat, c: nat, m: int)
    requires pi == a * top + pj && top <= m && pj <= b * m && a + b == c
    ensures pi <= c * m
  {
    MulMonotone(a, top, m);
    Distribute(a, b, c, m);
  }

  /** What `estimate_padding_reduction` compares: the sorted estimates cut
      into batches need at least the real tokens and at most the slots of
      padding every pair to the global longest. */
  lemma AwareWithinRandom(lengths: seq<int>, size: nat)
    requires |lengths| > 0 && size > 0
    ensures var sorted := SortInts(lengths);
      SumInt(lengths) <= PaddedFrom(sorted, size, 0) <= |lengths| * MaxInt(lengths)
  {
    var sorted := SortInts(lengths);
    var m := MaxInt(lengths);
    forall t | 0 <= t < |sorted| ensures sorted[t] <= m {
      assert sorted[t] in lengths;
    }
    SumSortInts(lengths);
    PaddedFromAtLeast(sorted, size, 0);
    PaddedFromAtMost(sorted, size, 0, m, |sorted|);
    assert sorted[0..] == sorted;
  }

  /** The real tokens the loop of `estimate_padding_reduction` has counted
      once it reaches offset `i`: those of the entries before `i`. */
  ghost predicate RealSoFar(s: seq<int>, i: nat, realTokens: int)
  {
    (i <= |s| ==> realTokens == SumInt(s[..i])) &&
    (i > |s| ==> realTokens == SumInt(s))
  }

  /** The slots it has counted: those of the batches before `i`. */
  ghost predicate SlotsSoFar(s: seq<int>, size: nat, i: nat, total: int)
    requires size > 0
  {
    total + PaddedFrom(s, size, i) == PaddedFrom(s, size, 0)
  }

  lemma RealStep(s: seq<int>, size: nat, i: nat, realTokens: int, next: int)
    requires size > 0 && i < |s| && RealSoFar(s, i, realTokens)
    requires next == realTokens + SumInt(PySlice(s, i, i + size))
    ensures RealSoFar(s, i + size, next)
  {
    var j := if i + size < |s| then i + size else |s|;
    PaddedStep(s, size, i, j, PySlice(s, i, i + size));
    if i + size >= |s| {
      assert s[..j] == s;
    }
  }

  lemma SlotsStep(s: seq<int>, size: nat, i: nat, total: int, next: int)
    requires size > 0 && i < |s| && SlotsSoFar(s, size, i, total)
    requires next == total + |PySlice(s, i, i + size)| * MaxInt(PySlice(s, i, i + size))
    ensures SlotsSoFar(s, size, i + size, next)
  {
    var top := PaddedUnfold(s, size, i);
    if i + size >= |s| {
      assert PaddedFrom(s, size, i + size) == 0;
    }
  }

  /** The loop of `estimate_padding_reduction`: the sorted estimates are
      cut into batches of `size`, each batch counting its length times its
      longest entry as slots and its sum as real tokens. */
  method AwareTotals(sorted: seq<int>, size: nat) returns (total: int, realTokens: int)
    requires size > 0
    ensures total == PaddedFrom(sorted, size, 0) && realTokens == SumInt(sorted)
  {
    var n := |sorted|;
    total, realTokens := 0, 0;
    var i: nat := 0;
    while i < n
      invariant RealSoFar(sorted, i, realTokens)
      invariant SlotsSoFar(sorted, size, i, total)
      decreases n - i
    {
      var next := i + size;
      total, realTokens := CountBatch(sorted, size, i, next, total, realTokens);
      i := next;
    }
    LoopDone(sorted, size, i, total, realTokens);
  }

  /** The body of that loop: the batch at offset `i` adds its length times
      its longest entry to the slots and its sum to the real tokens. */
  method CountBatch(sorted: seq<int>, size: nat, i: nat, next: nat, total: int, realTokens: int)
    returns (total': int, realTokens': int)
    requires size > 0 && i < |sorted| && next == i + size
    requires RealSoFar(sorted, i, realTokens) && SlotsSoFar(sorted, size, i, total)
    ensures RealSoFar(sorted, next, realTokens') && SlotsSoFar(sorted, size, next, total')
  {
    var batch := PySlice(sorted, i, i + size);
    total', realTokens' := total + |batch| * MaxInt(batch), realTokens + SumInt(batch);
    RealStep(sorted, size, i, realTokens, realTokens');
    SlotsStep(sorted, size, i, total, total');
  }

  /** Once the offset passes the end, the loop has counted everything. */
  lemma LoopDone(s: seq<int>, size: nat, i: nat, total: int, realTokens: int)
    requires size > 0 && i >= |s| && RealSoFar(s, i, realTokens) && SlotsSoFar(s, size, i, total)
    ensures total == PaddedFrom(s, size, 0) && realTokens == SumInt(s)
  {
    if i == |s| {
      assert s[..i] == s;
    }
  }

  /** `estimate_padding_reduction(batch_size)`: every pair padded to the
      global longest estimate against the sorted estimates cut into
      batches, each padded to its own longest. A batch size of 0 makes
      `range` raise ValueError; a negative one gives no batches. */
  method EstimatePaddingReduction(b: Batcher, batchSize: int) returns (r: Result<PaddingReport>)
    requires |b.estimatedLengths| == |b.pairs|
    ensures r.Err? <==> batchSize == 0 && b.pairs != []
    ensures r.Err? ==> r.error.ValueError?
    ensures b.pairs == [] ==> r == Ok(ReductionOnly(0.0))
    ensures r.Ok? && b.pairs != [] ==> (r.value.Report? &&
      var lengths := b.estimatedLengths;
      var rand := r.value.random;
      var aware := r.value.lengthAware;
      rand == Stats(|lengths| * MaxInt(lengths), SumInt(lengths)) &&
      (batchSize > 0 ==> aware == Stats(PaddedFrom(SortInts(lengths), batchSize, 0), SumInt(lengths))) &&
      (batchSize < 0 ==> aware == Stats(0, 0)) &&
      0 <= aware.paddingTokens <= rand.paddingTokens &&
      r.value.tokensSaved == rand.paddingTokens - aware.paddingTokens &&
      r.value.reductionPct == ReductionPct(rand.paddingTokens, aware.paddingTokens) &&
      0.0 <= r.value.reductionPct <= 100.0)
  {
    var lengths := b.estimatedLengths;
    var n := |lengths|;
    if n == 0 {
      return Ok(ReductionOnly(0.0));
    }
    var globalMax := MaxInt(lengths);
    var randomTotal := n * globalMax;
    var randomReal := SumInt(lengths);
    SumIntAtMost(lengths, globalMax);
    var randomPadding := randomTotal - randomReal;
    var sortedLengths := SortInts(lengths);
    if batchSize == 0 {
      return Err(ValueError("range() arg 3 must not be zero"));
    }
    var awareTotal, awareReal := 0, 0;
    if batchSize > 0 {
      awareTotal, awareReal := AwareTotals(sortedLengths, batchSize);
      SumSortInts(lengths);
      AwareWithinRandom(lengths, batchSize);
    }
    var awarePadding := awareTotal - awareReal;
    var random, lengthAware := Stats(randomTotal, randomReal), Stats(awareTotal, awareReal);
    assert random.paddingTokens == randomPadding && lengthAware.paddingTokens == awarePadding;
    return Ok(Report(random, lengthAware, ReductionPct(random.paddingTokens, lengthAware.paddingTokens),
      randomPadding - awarePadding));
  }

  /** `reorder_pairs_for_efficient_batching(pairs, batch_size,
      chars_per_token)`: the batcher's sorted pairs and their original
      indices, so that `reordered[i]` is `pairs[indices[i]]`. Building the
      padding report first means a batch size of 0 raises for non-empty
      input. The log line is not modelled. */
  method ReorderPairsForEfficientBatching(pairs: seq<Pair>, batchSize: int, cpt: real)
    returns (r: Result<(seq<Pair>, seq<nat>)>)
    ensures r.Err? <==> pairs != [] && (cpt == 0.0 || batchSize == 0)
    ensures r.Err? ==> (if cpt == 0.0 then r.error == ZeroDivisionError else r.error.ValueError?)
    ensures r.Ok? ==> ((cpt != 0.0 || pairs == []) &&
      IsPermutation(r.value.1, |pairs|) && SortedBy(Lengths(pairs, cpt), r.value.1) &&
      |r.value.0| == |pairs| && forall i :: 0 <= i < |pairs| ==> r.value.0[i] == pairs[r.value.1[i]])
  {
    var b := NewBatcher(pairs, cpt);
    if b.Err? {
      return Err(b.error);
    }
    var stats := EstimatePaddingReduction(b.value, batchSize);
    if stats.Err? {
      return Err(stats.error);
    }
    return Ok((b.value.sorted.pairs, b.value.sorted.indices));
  }
}
