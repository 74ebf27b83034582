/** The "top three + Other" stage breakdown that the stage-breakdown tests
    (tests/test_stage_breakdown.py) use as the reference display
    computation: drop non-positive components, sort the rest by descending
    percentage (Python's sort is stable, so ties keep their list order),
    keep three, fold the remainder into one "other" amount that skips a
    literal "other" component, and scale by 100 / display total. The page
    itself (DashboardMain) does not rank or bucket. */
module StageBuckets {
  import opened SeqMath

  /** One `(name, pct)` component, with its position in the input list. */
  datatype Component = Component(pos: nat, name: string, pct: real)

  /** The components of a `(name, pct)` list, numbered in list order. */
  function Numbered(entries: seq<(string, real)>): (cs: seq<Component>)
    ensures |cs| == |entries|
    ensures forall i :: 0 <= i < |cs| ==> cs[i] == Component(i, entries[i].0, entries[i].1)
  {
    seq(|entries|, i requires 0 <= i < |entries| => Component(i, entries[i].0, entries[i].1))
  }

  /** Nothing is dropped when every component is positive. */
  lemma {:induction false} AllPositive(cs: seq<Component>)
    requires forall i :: 0 <= i < |cs| ==> cs[i].pct > 0.0
    ensures Positive(cs) == cs
  {
    if cs != [] {
      AllPositive(cs[..|cs| - 1]);
      InitLast(cs);
    }
  }

  lemma InitLast(cs: seq<Component>)
    requires cs != []
    ensures cs[..|cs| - 1] + [cs[|cs| - 1]] == cs
  {
  }

  /** Positions strictly increase along the list. */
  ghost predicate Increasing(cs: seq<Component>)
  {
    forall i, j :: 0 <= i < j < |cs| ==> cs[i].pos < cs[j].pos
  }

  /** `[(name, pct) for name, pct in components if pct > 0]`. */
  function Positive(cs: seq<Component>): (r: seq<Component>)
    ensures forall x :: x in r <==> x in cs && x.pct > 0.0
    ensures Increasing(cs) ==> Increasing(r)
  {
    if cs == [] then []
    else
      var kept := Positive(cs[..|cs| - 1]);
      KeepLast(cs, kept);
      kept + (if cs[|cs| - 1].pct > 0.0 then [cs[|cs| - 1]] else [])
  }

  /** One step of the filter: what is kept of all but the last component,
      followed by the last one when it is positive. */
  lemma KeepLast(cs: seq<Component>, kept: seq<Component>)
    requires cs != []
    requires forall x :: x in kept <==> x in cs[..|cs| - 1] && x.pct > 0.0
    requires Increasing(cs[..|cs| - 1]) ==> Increasing(kept)
    ensures var r := kept + (if cs[|cs| - 1].pct > 0.0 then [cs[|cs| - 1]] else []);
      (forall x :: x in r <==> x in cs && x.pct > 0.0) && (Increasing(cs) ==> Increasing(r))
  {
    var init, last := cs[..|cs| - 1], cs[|cs| - 1];
    assert forall x :: x in init ==> x in cs;
    assert forall x :: x in cs ==> x in init || x == last;
    if Increasing(cs) {
      assert Increasing(init);
      forall x | x in kept
        ensures x.pos < last.pos
      {
        var k :| 0 <= k < |init| && init[k] == x;
      }
    }
  }

  /** `a` is placed before `b` by `sorted(..., key=pct, reverse=True)`:
      the larger percentage first, equal ones in list order. */
  predicate Before(a: Component, b: Component)
  {
    a.pct > b.pct || (a.pct == b.pct && a.pos < b.pos)
  }

  /** Every component is placed before every later one. */
  ghost predicate Ranked(s: seq<Component>)
  {
    forall i, j :: 0 <= i < j < |s| ==> Before(s[i], s[j])
  }

  /** Inserts `x` after every component whose percentage is at least its own. */
  function Insert(s: seq<Component>, x: Component): (r: seq<Component>)
    ensures multiset(r) == multiset(s) + multiset{x}
    ensures |r| == |s| + 1
  {
    if s == [] || s[0].pct < x.pct then [x] + s
    else
      assert s == [s[0]] + s[1..];
      [s[0]] + Insert(s[1..], x)
  }

  /** A component from later in the list goes to its stable place. */
  lemma {:induction false} InsertRanked(s: seq<Component>, x: Component)
    requires Ranked(s)
    requires forall k :: 0 <= k < |s| ==> s[k].pos < x.pos
    ensures Ranked(Insert(s, x))
  {
    var r := Insert(s, x);
    if s == [] || s[0].pct < x.pct {
      forall k | 0 <= k < |s|
        ensures Before(x, s[k])
      {
        if k > 0 { assert Before(s[0], s[k]); }
      }
      assert forall j :: 1 <= j < |r| ==> r[j] == s[j - 1];
    } else {
      var tail := Insert(s[1..], x);
      InsertRanked(s[1..], x);
      assert r == [s[0]] + tail;
      forall j | 0 <= j < |tail|
        ensures Before(s[0], tail[j])
      {
        var y := tail[j];
        assert y in multiset(tail);
        if y != x {
          assert y in multiset(s[1..]);
          var m :| 0 <= m < |s[1..]| && s[1..][m] == y;
          assert Before(s[0], s[m + 1]);
        }
      }
    }
  }

  /** `sorted(components, key=lambda x: x[1], reverse=True)`, built by
      stable insertion in list order. */
  function SortDescending(cs: seq<Component>): (r: seq<Component>)
    ensures multiset(r) == multiset(cs)
    ensures |r| == |cs|
  {
    if cs == [] then []
    else
      assert cs == cs[..|cs| - 1] + [cs[|cs| - 1]];
      Insert(SortDescending(cs[..|cs| - 1]), cs[|cs| - 1])
  }

  /** The sort ranks by descending percentage with ties in list order. */
  lemma {:induction false} SortRanked(cs: seq<Component>)
    requires Increasing(cs)
    ensures Ranked(SortDescending(cs))
  {
    if cs != [] {
      var init, last := cs[..|cs| - 1], cs[|cs| - 1];
      SortRanked(init);
      var s := SortDescending(init);
      forall k | 0 <= k < |s|
        ensures s[k].pos < last.pos
      {
        assert s[k] in multiset(init);
        var m :| 0 <= m < |init| && init[m] == s[k];
      }
      InsertRanked(s, last);
    }
  }

  /** A component no larger than any already placed goes last. */
  lemma {:induction false} InsertLast(s: seq<Component>, x: Component)
    requires forall k :: 0 <= k < |s| ==> s[k].pct >= x.pct
    ensures Insert(s, x) == s + [x]
  {
    if s != [] {
      InsertLast(s[1..], x);
      assert [s[0]] + (s[1..] + [x]) == s + [x];
    }
  }

  /** A list already in non-increasing order is left as it is: equal
      percentages are never swapped. */
  lemma {:induction false} AlreadyRanked(cs: seq<Component>)
    requires forall i, j :: 0 <= i < j < |cs| ==> cs[i].pct >= cs[j].pct
    ensures SortDescending(cs) == cs
  {
    if cs != [] {
      var init := cs[..|cs| - 1];
      AlreadyRanked(init);
      InsertLast(init, cs[|cs| - 1]);
      assert init + [cs[|cs| - 1]] == cs;
    }
  }

  /** The percentages of a list of components. */
  function Pcts(cs: seq<Component>): (r: seq<real>)
    ensures |r| == |cs|
    ensures forall i :: 0 <= i < |cs| ==> r[i] == cs[i].pct
  {
    seq(|cs|, i requires 0 <= i < |cs| => cs[i].pct)
  }

  /** `sum(pct for _, pct in rest if _ != "other")`. */
  function OtherFromRest(rest: seq<Component>): real
  {
    if rest == [] then 0.0
    else
      var last := rest[|rest| - 1];
      OtherFromRest(rest[..|rest| - 1]) + (if last.name != "other" then last.pct else 0.0)
  }

  /** The outcome of the reference computation. */
  datatype Breakdown = Breakdown(sorted: seq<Component>, top: seq<Component>, otherFromRest: real, displayTotal: real)

  /** How many components are shown by name. */
  const Visible: nat := 3

  /** Filter, sort, keep the top three and total what is displayed. */
  function Reduce(entries: seq<(string, real)>): (b: Breakdown)
    ensures |b.top| == (if |b.sorted| < Visible then |b.sorted| else Visible)
    ensures b.top == b.sorted[..|b.top|]
    ensures b.otherFromRest == OtherFromRest(b.sorted[|b.top|..])
    ensures b.displayTotal == Sum(Pcts(b.top)) + b.otherFromRest
  {
    var sorted := SortDescending(Positive(Numbered(entries)));
    var k := if |sorted| < Visible then |sorted| else Visible;
    var top := sorted[..k];
    var other := OtherFromRest(sorted[k..]);
    Breakdown(sorted, top, other, Sum(Pcts(top)) + other)
  }

  /** The displayed parts (the top components, then the folded rest)
      scaled by `100 / display_total`. */
  function Normalised(b: Breakdown): (r: seq<real>)
    requires b.displayTotal != 0.0
    ensures |r| == |b.top| + 1
  {
    Scale(Pcts(b.top) + [b.otherFromRest], 100.0 / b.displayTotal)
  }

  /** The sorted list holds exactly the positive components, each once,
      ranked by descending percentage with ties in list order; the top is
      the first three of them (all of them when there are fewer, by the
      contract of Reduce), and every top component is ranked before every remaining one. */
  lemma ReduceRanks(entries: seq<(string, real)>)
    ensures var b := Reduce(entries);
      multiset(b.sorted) == multiset(Positive(Numbered(entries))) &&
      Ranked(b.sorted) &&
      (forall i, j :: 0 <= i < |b.top| <= j < |b.sorted| ==> Before(b.sorted[i], b.sorted[j]))
  {
    var cs := Numbered(entries);
    SortRanked(Positive(cs));
  }

  /** A component is sorted iff it is an input component with a positive
      percentage. */
  lemma SortedAreThePositives(entries: seq<(string, real)>, c: Component)
    ensures c in Reduce(entries).sorted <==>
      c.pos < |entries| && c == Component(c.pos, entries[c.pos].0, entries[c.pos].1) && c.pct > 0.0
  {
    var cs := Numbered(entries);
    var b := Reduce(entries);
    assert c in b.sorted <==> c in multiset(Positive(cs));
    if c.pos < |entries| && c == Component(c.pos, entries[c.pos].0, entries[c.pos].1) {
      assert cs[c.pos] == c;
    }
  }

  /** Two components with the same percentage are ranked in list order. */
  lemma TiesKeepListOrder(entries: seq<(string, real)>, a: nat, b: nat)
    requires var s := Reduce(entries).sorted;
      a < |s| && b < |s| && s[a].pct == s[b].pct && s[a].pos < s[b].pos
    ensures a < b
  {
    ReduceRanks(entries);
    RankedTies(Reduce(entries).sorted, a, b);
  }

  lemma RankedTies(s: seq<Component>, a: nat, b: nat)
    requires Ranked(s) && a < |s| && b < |s| && s[a].pct == s[b].pct && s[a].pos < s[b].pos
    ensures a < b
  {
    if b < a {
      assert false;
    }
  }

  /** A literal "other" component left out of the top adds nothing. */
  lemma LiteralOtherDiscarded(rest: seq<Component>, c: Component)
    requires c.name == "other"
    ensures OtherFromRest(rest + [c]) == OtherFromRest(rest)
  {
    assert (rest + [c])[..|rest|] == rest;
  }

  /** Every other remaining component is folded in with its percentage. */
  lemma NamedRestFolded(rest: seq<Component>, c: Component)
    requires c.name != "other"
    ensures OtherFromRest(rest + [c]) == OtherFromRest(rest) + c.pct
  {
    assert (rest + [c])[..|rest|] == rest;
  }

  /** Components all positive give a positive total. */
  lemma {:induction false} PositiveSum(s: seq<Component>)
    requires forall i :: 0 <= i < |s| ==> s[i].pct > 0.0
    ensures s != [] ==> Sum(Pcts(s)) > 0.0
    ensures Sum(Pcts(s)) >= 0.0
  {
    if s != [] {
      PositiveSum(s[..|s| - 1]);
      assert Pcts(s) == Pcts(s[..|s| - 1]) + [s[|s| - 1].pct];
      SumAppend(Pcts(s[..|s| - 1]), [s[|s| - 1].pct]);
    }
  }

  /** The folded rest is never negative. */
  lemma {:induction false} OtherNonNegative(rest: seq<Component>)
    requires forall i :: 0 <= i < |rest| ==> rest[i].pct > 0.0
    ensures OtherFromRest(rest) >= 0.0
  {
    if rest != [] {
      OtherNonNegative(rest[..|rest| - 1]);
    }
  }

  /** Every sorted component is positive. */
  lemma SortedPositive(entries: seq<(string, real)>)
    ensures forall i :: 0 <= i < |Reduce(entries).sorted| ==> Reduce(entries).sorted[i].pct > 0.0
  {
    var s := Reduce(entries).sorted;
    forall i | 0 <= i < |s|
      ensures s[i].pct > 0.0
    {
      SortedAreThePositives(entries, s[i]);
    }
  }

  /** Something is sorted exactly when some component is positive. */
  lemma SortedNonEmpty(entries: seq<(string, real)>)
    ensures Reduce(entries).sorted != [] <==> exists i :: 0 <= i < |entries| && entries[i].1 > 0.0
  {
    var s := Reduce(entries).sorted;
    if exists i :: 0 <= i < |entries| && entries[i].1 > 0.0 {
      var i :| 0 <= i < |entries| && entries[i].1 > 0.0;
      SortedAreThePositives(entries, Component(i, entries[i].0, entries[i].1));
    } else if s != [] {
      SortedAreThePositives(entries, s[0]);
    }
  }

  /** The shown parts are positive and the folded rest is not negative. */
  lemma DisplayedParts(entries: seq<(string, real)>)
    ensures var b := Reduce(entries);
      Sum(Pcts(b.top)) >= 0.0 && (b.top != [] ==> Sum(Pcts(b.top)) > 0.0) && b.otherFromRest >= 0.0
  {
    var b := Reduce(entries);
    SortedPositive(entries);
    SplitParts(b.sorted, |b.top|);
  }

  /** Splitting positive components anywhere leaves a non-negative head,
      positive when it is not empty, and a non-negative folded rest. */
  lemma SplitParts(s: seq<Component>, k: nat)
    requires k <= |s| && forall i :: 0 <= i < |s| ==> s[i].pct > 0.0
    ensures Sum(Pcts(s[..k])) >= 0.0 && (k > 0 ==> Sum(Pcts(s[..k])) > 0.0)
    ensures OtherFromRest(s[k..]) >= 0.0
  {
    var top, rest := s[..k], s[k..];
    assert forall i :: 0 <= i < |top| ==> top[i] == s[i];
    PositiveSum(top);
    assert forall i :: 0 <= i < |rest| ==> rest[i] == s[k + i];
    OtherNonNegative(rest);
  }

  /** The display total is positive exactly when some component is, and
      never negative. */
  lemma DisplayTotalSign(entries: seq<(string, real)>)
    ensures Reduce(entries).displayTotal > 0.0 <==> exists i :: 0 <= i < |entries| && entries[i].1 > 0.0
    ensures Reduce(entries).displayTotal >= 0.0
  {
    SortedNonEmpty(entries);
    DisplayedParts(entries);
  }

  /** With a non-zero display total the normalised parts fill exactly 100. */
  lemma DisplayFillsBar(entries: seq<(string, real)>)
    requires Reduce(entries).displayTotal != 0.0
    ensures Sum(Normalised(Reduce(entries))) == 100.0
  {
    var b := Reduce(entries);
    PartsFillBar(Pcts(b.top), b.otherFromRest, b.displayTotal);
  }

  /** The shown parts and the folded rest, scaled by 100 over their
      total, add up to 100. */
  lemma PartsFillBar(top: seq<real>, other: real, total: real)
    requires total == Sum(top) + other && total != 0.0
    ensures Sum(Scale(top + [other], 100.0 / total)) == 100.0
  {
    SumAppend(top, [other]);
    assert Sum([other]) == other by {
      assert [other][..0] == [];
    }
    NormalisedSumIs100(top + [other]);
  }

  /** A literal "other" that ranks below the top three is dropped rather
      than added to the folded rest: with four named components at x and
      "other" at y <= x (say 10, 10, 10, 10 and 5) the rest folds to x,
      not x + y. */
  lemma OtherNotDoubleCounted(a: string, b: string, c: string, d: string, x: real, y: real)
    requires d != "other" && 0.0 < y <= x
    ensures var r := Reduce([(a, x), (b, x), (c, x), (d, x), ("other", y)]);
      r.otherFromRest == x && r.displayTotal == 4.0 * x
  {
    var entries := [(a, x), (b, x), (c, x), (d, x), ("other", y)];
    var cs := Numbered(entries);
    assert forall i :: 0 <= i < 4 ==> cs[i].pct == x;
    assert cs[4].pct == y && cs[4].name == "other" && cs[3].name == d;
    AllPositive(cs);
    AlreadyRanked(cs);
    FoldedRestOfFive(cs, Reduce(entries), x);
  }

  lemma FoldedRestOfFive(cs: seq<Component>, r: Breakdown, x: real)
    requires |cs| == 5 && r.sorted == cs
    requires |r.top| == 3 && r.top == r.sorted[..3]
    requires r.otherFromRest == OtherFromRest(r.sorted[3..])
    requires r.displayTotal == Sum(Pcts(r.top)) + r.otherFromRest
    requires cs[0].pct == x && cs[1].pct == x && cs[2].pct == x && cs[3].pct == x
    requires cs[3].name != "other" && cs[4].name == "other"
    ensures r.otherFromRest == x && r.displayTotal == 4.0 * x
  {
    assert r.sorted[3..] == [cs[3]] + [cs[4]];
    NamedRestFolded([], cs[3]);
    LiteralOtherDiscarded([cs[3]], cs[4]);
    assert Pcts(r.top) == [x, x, x];
    assert [x][..0] == [];
    assert Sum([x]) == x;
    assert [x, x][..1] == [x];
    assert Sum([x, x]) == 2.0 * x;
    assert [x, x, x][..2] == [x, x];
    assert Sum([x, x, x]) == 3.0 * x;
  }
}
