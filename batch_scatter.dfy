/** The batching step the server's schedulers share
    (`src/server/scheduler.py`, `src/server/services/scheduler_service.py`,
    `src/server/pipeline/queue_based.py`): the pairs of the batched requests
    are joined into one list, optionally sorted by character length, scored
    in one call, and the scores are handed back as consecutive slices, one
    per request, in arrival order. */
module BatchScatter {
  import opened Wrappers
  import opened ArgSort
  import opened SeqMath
  import opened ServerDto

  /** The groups joined one after the other (`list.extend` in a loop). */
  function Concat<T>(groups: seq<seq<T>>): (r: seq<T>)
  {
    if groups == [] then [] else Concat(groups[..|groups| - 1]) + groups[|groups| - 1]
  }

  /** Where group `i` starts in the joined list: the length of the groups
      before it. */
  function Offset<T>(groups: seq<seq<T>>, i: nat): nat
    requires i <= |groups|
  {
    |Concat(groups[..i])|
  }

  lemma {:induction false} ConcatStep<T>(groups: seq<seq<T>>, i: nat)
    requires i < |groups|
    ensures Concat(groups[..i + 1]) == Concat(groups[..i]) + groups[i]
    ensures Offset(groups, i + 1) == Offset(groups, i) + |groups[i]|
  {
    assert groups[..i + 1][..i] == groups[..i];
  }

  /** Every prefix of the groups joins to a prefix of the whole. */
  lemma {:induction false} ConcatPrefix<T>(groups: seq<seq<T>>, k: nat)
    requires k <= |groups|
    ensures Concat(groups[..k]) <= Concat(groups)
  {
    if k < |groups| {
      var init := groups[..|groups| - 1];
      ConcatPrefix(init, k);
      assert init[..k] == groups[..k];
    } else {
      assert groups[..k] == groups;
    }
  }

  /** Group `i` sits at its offset in the joined list. */
  lemma {:induction false} GroupAtOffset<T>(groups: seq<seq<T>>, i: nat)
    requires i < |groups|
    ensures Offset(groups, i) + |groups[i]| <= |Concat(groups)|
    ensures Concat(groups)[Offset(groups, i)..Offset(groups, i) + |groups[i]|] == groups[i]
  {
    var o, n := Offset(groups, i), |groups[i]|;
    var whole, pre := Concat(groups), Concat(groups[..i + 1]);
    ConcatStep(groups, i);
    ConcatPrefix(groups, i + 1);
    assert pre[o..o + n] == groups[i];
    assert whole[o..o + n] == pre[o..o + n];
  }

  /** Offsets grow with the position. */
  lemma {:induction false} OffsetWithin<T>(groups: seq<seq<T>>, k: nat)
    requires k <= |groups|
    ensures Offset(groups, k) <= |Concat(groups)|
  {
    ConcatPrefix(groups, k);
  }

  /** `all_pairs = []; for req in batch: all_pairs.extend(req.pairs)`. */
  method GatherPairs(batch: seq<PendingRequest>) returns (all: seq<Pair>)
    ensures all == Concat(PairsOf(batch))
  {
    all := [];
    var groups := PairsOf(batch);
    for i := 0 to |batch|
      invariant all == Concat(groups[..i])
    {
      ConcatStep(groups, i);
      all := all + batch[i].pairs;
    }
    assert groups[..|batch|] == groups;
  }

  /** `len(q) + len(d)`, the sort key of the length-aware mode. */
  function LengthKeys(pairs: seq<Pair>): (r: seq<int>)
    ensures |r| == |pairs| && forall i :: 0 <= i < |pairs| ==> r[i] == |pairs[i].0| + |pairs[i].1|
  {
    seq(|pairs|, i requires 0 <= i < |pairs| => |pairs[i].0| + |pairs[i].1|)
  }

  /** `all_pairs.sort(key=lambda p: len(p[0]) + len(p[1]))`: the same pairs
      in non-decreasing key order. */
  function SortByLength(pairs: seq<Pair>): (r: seq<Pair>)
    ensures |r| == |pairs| && multiset(r) == multiset(pairs)
    ensures forall i, j :: 0 <= i < j < |r| ==> |r[i].0| + |r[i].1| <= |r[j].0| + |r[j].1|
  {
    var keys := LengthKeys(pairs);
    var perm := Argsort(keys);
    PermuteMultiset(pairs, perm);
    var r := Permute(pairs, perm);
    assert forall i, j :: 0 <= i < j < |r| ==> keys[perm[i]] <= keys[perm[j]];
    r
  }

  /** The pairs sent to the backend. */
  function InferenceOrder(lengthAware: bool, pairs: seq<Pair>): (r: seq<Pair>)
    ensures |r| == |pairs| && multiset(r) == multiset(pairs)
    ensures !lengthAware ==> r == pairs
  {
    if lengthAware then SortByLength(pairs) else pairs
  }

  /** `result.scores[idx : idx + n]` for each request, with `idx` the
      running total of the earlier requests' pair counts. */
  function Scatter<T>(scores: seq<real>, groups: seq<seq<T>>): (r: seq<seq<real>>)
    ensures |r| == |groups|
    ensures forall i :: 0 <= i < |groups| ==>
      r[i] == PySlice(scores, Offset(groups, i), Offset(groups, i) + |groups[i]|)
  {
    seq(|groups|, i requires 0 <= i < |groups| => PySlice(scores, Offset(groups, i), Offset(groups, i) + |groups[i]|))
  }

  /** With one score per joined pair, the slices have the requests' sizes
      and join back to the whole score list. */
  lemma {:induction false} ScatterPartitions<T>(scores: seq<real>, groups: seq<seq<T>>)
    requires |scores| == |Concat(groups)|
    ensures forall i :: 0 <= i < |groups| ==> |Scatter(scores, groups)[i]| == |groups[i]|
    ensures Concat(Scatter(scores, groups)) == scores
  {
    var s := Scatter(scores, groups);
    forall i | 0 <= i < |groups| ensures |s[i]| == |groups[i]| {
      GroupAtOffset(groups, i);
    }
    ScatterPrefix(scores, groups, |groups|);
    assert s[..|groups|] == s;
    assert groups[..|groups|] == groups;
  }

  lemma {:induction false} ScatterPrefix<T>(scores: seq<real>, groups: seq<seq<T>>, k: nat)
    requires |scores| == |Concat(groups)| && k <= |groups|
    ensures Offset(groups, k) <= |scores|
    ensures Concat(Scatter(scores, groups)[..k]) == scores[..Offset(groups, k)]
  {
    OffsetWithin(groups, k);
    if k > 0 {
      ScatterPrefix(scores, groups, k - 1);
      ScatterStep(scores, groups, k - 1);
    } else {
      assert Concat(groups[..0]) == [];
    }
  }

  lemma {:induction false} ScatterStep<T>(scores: seq<real>, groups: seq<seq<T>>, i: nat)
    requires |scores| == |Concat(groups)| && i < |groups| && Offset(groups, i) <= |scores|
    requires Concat(Scatter(scores, groups)[..i]) == scores[..Offset(groups, i)]
    ensures Offset(groups, i + 1) <= |scores|
    ensures Concat(Scatter(scores, groups)[..i + 1]) == scores[..Offset(groups, i + 1)]
  {
    var a, b := ScatterAt(scores, groups, i);
    PrefixStep(Scatter(scores, groups), scores, i, a, b);
  }

  /** One more slice, taken right after the prefix the joined slices
      already cover, extends the covered prefix to its end. */
  lemma PrefixStep(s: seq<seq<real>>, scores: seq<real>, i: nat, a: nat, b: nat)
    requires i < |s| && a <= b <= |scores|
    requires Concat(s[..i]) == scores[..a] && s[i] == scores[a..b]
    ensures Concat(s[..i + 1]) == scores[..b]
  {
    ConcatStep(s, i);
    assert scores[..b] == scores[..a] + scores[a..b];
  }

  /** Request `i`'s slice, between its offset and the next one. */
  lemma {:induction false} ScatterAt<T>(scores: seq<real>, groups: seq<seq<T>>, i: nat) returns (a: nat, b: nat)
    requires |scores| == |Concat(groups)| && i < |groups|
    ensures a == Offset(groups, i) && b == Offset(groups, i + 1) && a <= b <= |scores|
    ensures b == a + |groups[i]|
    ensures Scatter(scores, groups)[i] == scores[a..b]
  {
    a, b := Offset(groups, i), Offset(groups, i + 1);
    ConcatStep(groups, i);
    GroupAtOffset(groups, i);
  }

  /** Scores computed in the joined order give each request the scores of
      its own pairs. */
  lemma {:induction false} ScatterInOrder(groups: seq<seq<Pair>>, score: Pair -> real)
    ensures forall i :: 0 <= i < |groups| ==>
      Scatter(ScoreAll(Concat(groups), score), groups)[i] == ScoreAll(groups[i], score)
  {
    var all := Concat(groups);
    var scores := ScoreAll(all, score);
    forall i | 0 <= i < |groups| ensures Scatter(scores, groups)[i] == ScoreAll(groups[i], score) {
      var a, b := ScatterAt(scores, groups, i);
      GroupAtOffset(groups, i);
      ScoreSlice(all, score, a, b);
    }
  }

  /** Scoring a slice gives the slice of the scores. */
  lemma ScoreSlice(all: seq<Pair>, score: Pair -> real, a: nat, b: nat)
    requires a <= b <= |all|
    ensures ScoreAll(all, score)[a..b] == ScoreAll(all[a..b], score)
  {
    var scores := ScoreAll(all, score);
    forall j | 0 <= j < b - a
      ensures scores[a..b][j] == ScoreAll(all[a..b], score)[j]
    {
      assert scores[a..b][j] == scores[a + j] == score(all[a + j]);
    }
  }

  /** What each request of a batch receives, as the schedulers compute it:
      the slices of the scores of the pairs in inference order. */
  function AssignedScores(lengthAware: bool, groups: seq<seq<Pair>>, score: Pair -> real): seq<seq<real>>
  {
    Scatter(ScoreAll(InferenceOrder(lengthAware, Concat(groups)), score), groups)
  }

  /** Without the length-aware sort each request gets its own scores. */
  lemma UnsortedAssignsOwnScores(groups: seq<seq<Pair>>, score: Pair -> real)
    ensures forall i :: 0 <= i < |groups| ==> AssignedScores(false, groups, score)[i] == ScoreAll(groups[i], score)
  {
    ScatterInOrder(groups, score);
  }

  /** With the length-aware sort, a request can receive another request's
      scores: a long pair followed by a short one swap places, and the
      first request is handed the short pair's score. */
  lemma LengthAwareMisassigns(groups: seq<seq<Pair>>, score: Pair -> real)
    requires groups == [[("aaaa", "aaaa")], [("a", "a")]]
    requires forall p :: score(p) == |p.0| as real
    ensures AssignedScores(true, groups, score)[0] == [1.0]
    ensures ScoreAll(groups[0], score) == [4.0]
  {
    var all := JoinTwo(groups);
    ShortPairFirst(all);
    var scores := ScoreAll(InferenceOrder(true, all), score);
    assert Offset(groups, 0) == 0 by { assert groups[..0] == []; }
    assert AssignedScores(true, groups, score)[0] == scores[0..1];
  }

  lemma JoinTwo(groups: seq<seq<Pair>>) returns (all: seq<Pair>)
    requires groups == [[("aaaa", "aaaa")], [("a", "a")]]
    ensures all == Concat(groups) == [("aaaa", "aaaa"), ("a", "a")]
  {
    ConcatStep(groups, 0);
    ConcatStep(groups, 1);
    assert groups[..0] == [] && groups[..2] == groups;
    all := Concat(groups);
  }

  lemma ShortPairFirst(all: seq<Pair>)
    requires all == [("aaaa", "aaaa"), ("a", "a")]
    ensures InferenceOrder(true, all)[0] == ("a", "a")
  {
    var keys := LengthKeys(all);
    assert keys == [8, 2];
    var perm := Argsort(keys);
    assert perm[0] in perm && perm[1] in perm;
    assert perm[0] == 1;
  }

  /** The position of `x` in `s`. */
  function IndexOf(s: seq<nat>, x: nat): (i: nat)
    requires x in s
    ensures i < |s| && s[i] == x
  {
    if s[0] == x then 0 else 1 + IndexOf(s[1..], x)
  }

  /** The inverse of a permutation: where each position went. */
  function Inverse(perm: seq<nat>): (r: seq<nat>)
    requires IsPermutation(perm, |perm|)
    ensures |r| == |perm| && forall j :: 0 <= j < |r| ==> r[j] < |perm| && perm[r[j]] == j
  {
    seq(|perm|, j requires 0 <= j < |perm| => assert j in perm; IndexOf(perm, j))
  }

  /** Scores computed for the permuted pairs, put back through the
      inverse permutation, are the scores of the pairs in their first
      order. */
  lemma RestoreAfterPermute<T>(x: seq<T>, perm: seq<nat>)
    requires IsPermutation(perm, |x|) && forall i :: 0 <= i < |perm| ==> perm[i] < |x|
    ensures Permute(Permute(x, perm), Inverse(perm)) == x
  {
  }

  /** The length-aware sort with the scores put back in joined order
      before they are sliced: the corrected batching step. */
  function AssignedScoresRestored(lengthAware: bool, groups: seq<seq<Pair>>, score: Pair -> real): seq<seq<real>>
  {
    var all := Concat(groups);
    if lengthAware then
      var perm := Argsort(LengthKeys(all));
      var sortedScores := ScoreAll(Permute(all, perm), score);
      Scatter(Permute(sortedScores, Inverse(perm)), groups)
    else Scatter(ScoreAll(all, score), groups)
  }

  /** In both modes the corrected step gives each request its own scores. */
  lemma RestoredAssignsOwnScores(lengthAware: bool, groups: seq<seq<Pair>>, score: Pair -> real)
    ensures |AssignedScoresRestored(lengthAware, groups, score)| == |groups|
    ensures forall i :: 0 <= i < |groups| ==>
      AssignedScoresRestored(lengthAware, groups, score)[i] == ScoreAll(groups[i], score)
  {
    var all := Concat(groups);
    if lengthAware {
      var perm := Argsort(LengthKeys(all));
      assert ScoreAll(Permute(all, perm), score) == Permute(ScoreAll(all, score), perm);
      RestoreAfterPermute(ScoreAll(all, score), perm);
    }
    ScatterInOrder(groups, score);
  }
}
