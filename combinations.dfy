/** `itertools.product(*lists)`: every way of picking one element from each
    list, the last list varying fastest. */
module Combinations {

  /** How many combinations there are: the product of the lengths. */
  function Count<T>(lists: seq<seq<T>>): nat
  {
    if lists == [] then 1 else |lists[0]| * Count(lists[1..])
  }

  /** `[x] + t` for every tail `t`, in order. */
  function Prefixed<T>(x: T, tails: seq<seq<T>>): (r: seq<seq<T>>)
    ensures |r| == |tails|
    ensures forall i :: 0 <= i < |r| ==> r[i] == [x] + tails[i]
  {
    seq(|tails|, i requires 0 <= i < |tails| => [x] + tails[i])
  }

  /** Each head in turn, followed by every tail. */
  function Spread<T>(heads: seq<T>, tails: seq<seq<T>>): seq<seq<T>>
  {
    if heads == [] then [] else Prefixed(heads[0], tails) + Spread(heads[1..], tails)
  }

  function Product<T>(lists: seq<seq<T>>): seq<seq<T>>
  {
    if lists == [] then [[]] else Spread(lists[0], Product(lists[1..]))
  }

  lemma {:induction false} SpreadSize<T>(heads: seq<T>, tails: seq<seq<T>>)
    ensures |Spread(heads, tails)| == |heads| * |tails|
  {
    if heads != [] {
      SpreadSize(heads[1..], tails);
      assert |heads| * |tails| == |tails| + |heads[1..]| * |tails|;
    }
  }

  /** Entry `q * |tails| + r` of the spread is head `q` before tail `r`. */
  lemma {:induction false} SpreadAt<T>(heads: seq<T>, tails: seq<seq<T>>, q: nat, r: nat)
    requires q < |heads| && r < |tails|
    ensures q * |tails| + r < |Spread(heads, tails)|
    ensures Spread(heads, tails)[q * |tails| + r] == [heads[q]] + tails[r]
  {
    SpreadSize(heads, tails);
    if q > 0 {
      SpreadAt(heads[1..], tails, q - 1, r);
      assert q * |tails| + r == |tails| + ((q - 1) * |tails| + r);
    }
  }

  lemma {:induction false} SpreadMembers<T>(heads: seq<T>, tails: seq<seq<T>>, e: seq<T>)
    requires e in Spread(heads, tails)
    ensures |e| > 0 && e[0] in heads && e[1..] in tails
  {
    if e !in Prefixed(heads[0], tails) {
      SpreadMembers(heads[1..], tails, e);
    } else {
      var i :| 0 <= i < |tails| && Prefixed(heads[0], tails)[i] == e;
      assert e[1..] == tails[i];
    }
  }

  lemma {:induction false} SpreadHas<T>(heads: seq<T>, tails: seq<seq<T>>, x: T, t: seq<T>)
    requires x in heads && t in tails
    ensures [x] + t in Spread(heads, tails)
  {
    if x != heads[0] {
      SpreadHas(heads[1..], tails, x, t);
    } else {
      var i :| 0 <= i < |tails| && tails[i] == t;
      assert Prefixed(heads[0], tails)[i] == [x] + t;
    }
  }

  /** There are as many combinations as the product of the lengths. */
  lemma {:induction false} ProductSize<T>(lists: seq<seq<T>>)
    ensures |Product(lists)| == Count(lists)
  {
    if lists != [] {
      ProductSize(lists[1..]);
      SpreadSize(lists[0], Product(lists[1..]));
    }
  }

  /** The order of `itertools.product`: combination `q * m + r`, with `m`
      the number of combinations of the other lists, takes element `q` of
      the first list followed by combination `r` of the others. */
  lemma ProductAt<T>(lists: seq<seq<T>>, q: nat, r: nat)
    requires lists != [] && q < |lists[0]| && r < Count(lists[1..])
    ensures |Product(lists[1..])| == Count(lists[1..])
    ensures q * Count(lists[1..]) + r < |Product(lists)|
    ensures Product(lists)[q * Count(lists[1..]) + r] == [lists[0][q]] + Product(lists[1..])[r]
  {
    ProductSize(lists[1..]);
    SpreadAt(lists[0], Product(lists[1..]), q, r);
  }

  /** Every combination picks one element from each list, in list order. */
  ghost predicate Picks<T>(lists: seq<seq<T>>, c: seq<T>)
  {
    |c| == |lists| && forall j :: 0 <= j < |c| ==> c[j] in lists[j]
  }

  lemma {:induction false} ProductPicks<T>(lists: seq<seq<T>>, c: seq<T>)
    requires c in Product(lists)
    ensures Picks(lists, c)
  {
    if lists != [] {
      SpreadMembers(lists[0], Product(lists[1..]), c);
      ProductPicks(lists[1..], c[1..]);
      forall j | 1 <= j < |c|
        ensures c[j] in lists[j]
      {
        assert c[j] == c[1..][j - 1];
      }
    }
  }

  /** Every way of picking is among the combinations. */
  lemma {:induction false} ProductComplete<T>(lists: seq<seq<T>>, c: seq<T>)
    requires Picks(lists, c)
    ensures c in Product(lists)
  {
    if lists != [] {
      assert Picks(lists[1..], c[1..]) by {
        forall j | 0 <= j < |c[1..]|
          ensures c[1..][j] in lists[1..][j]
        {
          assert c[1..][j] == c[j + 1];
        }
      }
      ProductComplete(lists[1..], c[1..]);
      SpreadHas(lists[0], Product(lists[1..]), c[0], c[1..]);
      assert [c[0]] + c[1..] == c;
    }
  }
}
