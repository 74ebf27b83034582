/** The Prometheus range collector of the benchmark client
    (src/client/prometheus_timeseries.py): the timestamp grid, the merge of
    the result sets of one range query, and the alignment of the merged
    series onto the grid. The HTTP request itself is a parameter: each
    query's reply is given as a `Reply` value. */
module PrometheusTimeseries {
  import opened Wrappers
  import opened Text
  import opened Decimal

  // ---------------------------------------------------------------------
  // The timestamp grid

  /** Python `int(x)` on a float: truncation toward zero. */
  function Trunc(x: real): (n: int)
    ensures x >= 0.0 ==> n == x.Floor
    ensures 0.0 <= x ==> n as real <= x < n as real + 1.0
    ensures -1.0 < x < 0.0 ==> n == 0
  {
    if x >= 0.0 then x.Floor else -((-x).Floor)
  }

  /** `_build_timestamps(start, end)`: nothing for a step <= 0, otherwise
      `int((end - start) / step) + 1` points `start + i * step`. */
  function BuildTimestamps(start: real, end: real, step: real): (ts: seq<real>)
    ensures step <= 0.0 ==> ts == []
    ensures forall i :: 0 <= i < |ts| ==> ts[i] == start + i as real * step
    ensures step > 0.0 && end >= start ==> |ts| == ((end - start) / step).Floor + 1
  {
    if step <= 0.0 then []
    else
      var count := Trunc((end - start) / step) + 1;
      if count <= 0 then [] else seq(count, i requires 0 <= i < count => start + i as real * step)
  }

  /** For end >= start the grid starts at `start`, never passes `end`, and
      one more step would. */
  lemma TimestampsCoverRange(start: real, end: real, step: real)
    requires step > 0.0 && end >= start
    ensures BuildTimestamps(start, end, step) != [] && BuildTimestamps(start, end, step)[0] == start
    ensures forall t :: t in BuildTimestamps(start, end, step) ==> start <= t <= end
    ensures end < start + |BuildTimestamps(start, end, step)| as real * step
  {
    var ts := BuildTimestamps(start, end, step);
    var d := end - start;
    var n := (d / step).Floor;
    forall t | t in ts
      ensures start <= t <= end
    {
      var i :| 0 <= i < |ts| && ts[i] == t;
      BelowEnd(d, step, n, i);
    }
    AboveEnd(d, step, n);
  }

  /** The `i`-th step of the grid stays within the range. */
  lemma BelowEnd(d: real, step: real, n: int, i: int)
    requires step > 0.0 && d >= 0.0 && n == (d / step).Floor && 0 <= i <= n
    ensures 0.0 <= i as real * step <= d
  {
    var q := d / step;
    assert q * step == d;
    assert i as real <= q;
  }

  /** One step past the last point of the grid passes the range. */
  lemma AboveEnd(d: real, step: real, n: int)
    requires step > 0.0 && n == (d / step).Floor
    ensures d < (n + 1) as real * step
  {
    var q := d / step;
    assert q * step == d;
    assert q < (n + 1) as real;
  }

  // ---------------------------------------------------------------------
  // Merging the result sets of one range query

  /** A sample's raw value: a number, NaN, or text `float()` rejects. */
  datatype Raw = Num(v: real) | NaN | Unparseable

  type Sample = (real, Raw)

  /** What the range request produced: the request failed (any exception
      or an HTTP error status), or a payload with its `status` and the
      `values` of each result set (absent or null read as empty). */
  datatype Reply = Failed | Payload(status: string, results: seq<seq<Sample>>)

  /** All samples of all result sets, in the order they are read. */
  function Flatten(results: seq<seq<Sample>>): seq<Sample>
  {
    if results == [] then [] else Flatten(results[..|results| - 1]) + results[|results| - 1]
  }

  /** Some numeric sample has timestamp t. */
  predicate Has(s: seq<Sample>, t: real)
  {
    s != [] && (Has(s[..|s| - 1], t) || (s[|s| - 1].0 == t && s[|s| - 1].1.Num?))
  }

  /** The sum of the numeric samples with timestamp t. */
  function Total(s: seq<Sample>, t: real): real
  {
    if s == [] then 0.0
    else Total(s[..|s| - 1], t) + (if s[|s| - 1].0 == t && s[|s| - 1].1.Num? then s[|s| - 1].1.v else 0.0)
  }

  /** The `combined` dictionary after reading `s` in order, with its keys
      in insertion order: `combined[ts] = combined.get(ts, 0.0) + value`
      for every numeric sample, NaN and unparseable ones skipped. */
  function Combine(s: seq<Sample>): (r: (seq<real>, map<real, real>))
  {
    if s == [] then ([], map[])
    else
      var (keys, m) := Combine(s[..|s| - 1]);
      var (t, raw) := s[|s| - 1];
      if !raw.Num? then (keys, m)
      else if t in m then (keys, m[t := m[t] + raw.v])
      else (keys + [t], m[t := 0.0 + raw.v])
  }

  predicate Distinct(keys: seq<real>)
  {
    forall i, j :: 0 <= i < j < |keys| ==> keys[i] != keys[j]
  }

  /** The dictionary holds exactly the timestamps with a numeric sample,
      each with the sum of its samples; its keys are listed once each. */
  lemma {:induction false} CombineMeaning(s: seq<Sample>)
    ensures forall t :: t in Combine(s).1 <==> Has(s, t)
    ensures forall t :: t in Combine(s).1 ==> Combine(s).1[t] == Total(s, t)
    ensures forall t :: t in Combine(s).0 <==> t in Combine(s).1
    ensures forall i :: 0 <= i < |Combine(s).0| ==> Combine(s).0[i] in Combine(s).1
    ensures Distinct(Combine(s).0)
  {
    if s != [] {
      var init := s[..|s| - 1];
      CombineMeaning(init);
      forall t | !Has(init, t)
        ensures Total(init, t) == 0.0
      {
        NoSampleNoTotal(init, t);
      }
    }
  }

  lemma {:induction false} NoSampleNoTotal(s: seq<Sample>, t: real)
    requires !Has(s, t)
    ensures Total(s, t) == 0.0
  {
    if s != [] {
      NoSampleNoTotal(s[..|s| - 1], t);
    }
  }

  /** The pairs of `m` in the order of `keys`. */
  function Items(keys: seq<real>, m: map<real, real>): (items: seq<(real, real)>)
    requires forall i :: 0 <= i < |keys| ==> keys[i] in m
    ensures |items| == |keys|
    ensures forall i :: 0 <= i < |keys| ==> items[i] == (keys[i], m[keys[i]])
  {
    seq(|keys|, i requires 0 <= i < |keys| => (keys[i], m[keys[i]]))
  }

  predicate SortedByTime(s: seq<(real, real)>)
  {
    forall i, j :: 0 <= i < j < |s| ==> s[i].0 <= s[j].0
  }

  /** Inserting a pair into a time-sorted list. */
  function InsertByTime(x: (real, real), s: seq<(real, real)>): (r: seq<(real, real)>)
    requires SortedByTime(s)
    ensures SortedByTime(r) && multiset(r) == multiset(s) + multiset{x}
  {
    if s == [] then [x]
    else if x.0 <= s[0].0 then [x] + s
    else
      var rest := InsertByTime(x, s[1..]);
      HeadBelow(s);
      BoundByMultiset(rest, s[1..], x, s[0].0);
      ConsSorted(s[0], rest);
      assert s == [s[0]] + s[1..];
      [s[0]] + rest
  }

  /** The head of a time-sorted list is no later than anything after it. */
  lemma HeadBelow(s: seq<(real, real)>)
    requires SortedByTime(s) && s != []
    ensures forall y :: y in s[1..] ==> s[0].0 <= y.0
  {
    forall y | y in s[1..]
      ensures s[0].0 <= y.0
    {
      var k :| 0 <= k < |s[1..]| && s[1..][k] == y;
      assert s[k + 1] == y;
    }
  }

  /** A bound on every time of `base` and on `x` bounds every time of a
      list holding exactly those pairs. */
  lemma BoundByMultiset(r: seq<(real, real)>, base: seq<(real, real)>, x: (real, real), t: real)
    requires multiset(r) == multiset(base) + multiset{x}
    requires (forall y :: y in base ==> t <= y.0) && t <= x.0
    ensures forall y :: y in r ==> t <= y.0
  {
    forall y | y in r
      ensures t <= y.0
    {
      assert y in multiset(r);
      if y != x {
        assert y in multiset(base);
      }
    }
  }

  /** A pair no later than any of a time-sorted list keeps it sorted in
      front of it. */
  lemma ConsSorted(a: (real, real), r: seq<(real, real)>)
    requires SortedByTime(r) && forall y :: y in r ==> a.0 <= y.0
    ensures SortedByTime([a] + r)
  {
    var ar := [a] + r;
    forall i, j | 0 <= i < j < |ar|
      ensures ar[i].0 <= ar[j].0
    {
      assert ar[j] == r[j - 1];
      if i > 0 {
        assert ar[i] == r[i - 1];
      }
    }
  }

  /** `sorted(items, key=lambda item: item[0])`. */
  function SortByTime(s: seq<(real, real)>): (r: seq<(real, real)>)
    ensures SortedByTime(r) && multiset(r) == multiset(s)
  {
    if s == [] then []
    else
      assert s == s[..|s| - 1] + [s[|s| - 1]];
      InsertByTime(s[|s| - 1], SortByTime(s[..|s| - 1]))
  }

  /** The series `_query_range` returns for a reply. */
  function Merged(reply: Reply): (r: seq<(real, real)>)
    ensures reply.Failed? || reply.status != "success" || reply.results == [] ==> r == []
    ensures SortedByTime(r)
  {
    if reply.Failed? || reply.status != "success" || reply.results == [] then []
    else
      var (keys, m) := Combine(Flatten(reply.results));
      CombineMeaning(Flatten(reply.results));
      SortByTime(Items(keys, m))
  }

  /** What the merged series means: ascending, each timestamp once, each
      with the sum over all result sets of its numeric samples, and every
      timestamp with such a sample present. */
  lemma MergedMeaning(reply: Reply)
    requires reply.Payload? && reply.status == "success"
    ensures forall i, j :: 0 <= i < j < |Merged(reply)| ==> Merged(reply)[i].0 < Merged(reply)[j].0
    ensures forall p :: p in Merged(reply) ==> p.1 == Total(Flatten(reply.results), p.0)
    ensures forall t :: Has(Flatten(reply.results), t) <==> exists p :: p in Merged(reply) && p.0 == t
  {
    var all := Flatten(reply.results);
    if reply.results == [] {
      assert all == [];
    } else {
      var (keys, m) := Combine(all);
      CombineMeaning(all);
      SortedItems(keys, m);
      forall t | Has(all, t)
        ensures exists p :: p in Merged(reply) && p.0 == t
      {
        assert t in keys;
        var k :| 0 <= k < |keys| && keys[k] == t;
        assert (t, m[t]) in Merged(reply);
      }
    }
  }

  /** Sorting the items of a dictionary whose keys are listed once each. */
  lemma SortedItems(keys: seq<real>, m: map<real, real>)
    requires forall i :: 0 <= i < |keys| ==> keys[i] in m
    requires Distinct(keys)
    ensures forall i, j :: 0 <= i < j < |SortByTime(Items(keys, m))| ==>
      SortByTime(Items(keys, m))[i].0 < SortByTime(Items(keys, m))[j].0
    ensures forall p :: p in SortByTime(Items(keys, m)) ==> p.0 in m && p.1 == m[p.0]
    ensures forall i :: 0 <= i < |keys| ==> (keys[i], m[keys[i]]) in SortByTime(Items(keys, m))
  {
    var items := Items(keys, m);
    var r := SortByTime(items);
    forall p | p in r
      ensures p.0 in m && p.1 == m[p.0]
    {
      assert p in multiset(r);
      var k :| 0 <= k < |items| && items[k] == p;
    }
    forall i | 0 <= i < |keys|
      ensures (keys[i], m[keys[i]]) in r
    {
      assert items[i] in multiset(items);
      assert items[i] in multiset(r);
    }
    forall i, j | 0 <= i < j < |r|
      ensures r[i].0 < r[j].0
    {
      DistinctTimes(r, items, keys, m, i, j);
    }
  }

  lemma DistinctTimes(r: seq<(real, real)>, items: seq<(real, real)>, keys: seq<real>, m: map<real, real>, i: int, j: int)
    requires forall k :: 0 <= k < |keys| ==> keys[k] in m
    requires Distinct(keys) && items == Items(keys, m)
    requires SortedByTime(r) && multiset(r) == multiset(items)
    requires 0 <= i < j < |r|
    ensures r[i].0 < r[j].0
  {
    if r[i].0 == r[j].0 {
      assert r[i] in multiset(items) && r[j] in multiset(items);
      var a :| 0 <= a < |items| && items[a] == r[i];
      var b :| 0 <= b < |items| && items[b] == r[j];
      assert r[i] == r[j];
      assert multiset(r)[r[i]] >= 2 by {
        assert r == r[..i] + [r[i]] + r[i + 1..j] + [r[j]] + r[j + 1..];
      }
      OnceInItems(items, keys, m, a);
      assert false;
    }
  }

  lemma OnceInItems(items: seq<(real, real)>, keys: seq<real>, m: map<real, real>, a: int)
    requires forall k :: 0 <= k < |keys| ==> keys[k] in m
    requires Distinct(keys) && items == Items(keys, m)
    requires 0 <= a < |items|
    ensures multiset(items)[items[a]] == 1
  {
    assert items == items[..a] + [items[a]] + items[a + 1..];
    assert items[a] !in items[..a] && items[a] !in items[a + 1..];
  }

  /** `_query_range` after the request: the nested loops fill `combined`
      sample by sample, then its items are sorted by time. */
  method QueryRange(reply: Reply) returns (series: seq<(real, real)>)
    ensures series == Merged(reply)
    ensures reply.Failed? || reply.status != "success" ==> series == []
  {
    if reply.Failed? || reply.status != "success" || reply.results == [] {
      return [];
    }
    var results := reply.results;
    var keys: seq<real> := [];
    var combined: map<real, real> := map[];
    var i := 0;
    while i < |results|
      invariant 0 <= i <= |results|
      invariant (keys, combined) == Combine(Flatten(results[..i]))
    {
      var values := results[i];
      var j := 0;
      assert Flatten(results[..i]) + values[..0] == Flatten(results[..i]);
      while j < |values|
        invariant 0 <= j <= |values|
        invariant (keys, combined) == Combine(Flatten(results[..i]) + values[..j])
      {
        var (ts, raw) := values[j];
        assert (Flatten(results[..i]) + values[..j + 1])[..|Flatten(results[..i])| + j] == Flatten(results[..i]) + values[..j];
        if raw.Num? {
          if ts !in combined {
            keys := keys + [ts];
          }
          combined := combined[ts := (if ts in combined then combined[ts] else 0.0) + raw.v];
        }
        j := j + 1;
      }
      assert results[..i + 1][..i] == results[..i];
      assert values[..|values|] == values;
      i := i + 1;
    }
    assert results[..|results|] == results;
    CombineMeaning(Flatten(results));
    series := SortByTime(Items(keys, combined));
  }

  // ---------------------------------------------------------------------
  // Aligning a series onto the grid

  /** `{round(ts, 3): value for ts, value in series}`: a later pair
      overwrites an earlier one with the same rounded time. */
  function Table(series: seq<(real, real)>): map<real, real>
  {
    if series == [] then map[]
    else Table(series[..|series| - 1])[Rounded(series[|series| - 1].0, 3) := series[|series| - 1].1]
  }

  /** The table entry for k is the value of the last pair rounding to k. */
  lemma {:induction false} TableMeaning(series: seq<(real, real)>, k: real)
    ensures k in Table(series) <==> exists j :: 0 <= j < |series| && Rounded(series[j].0, 3) == k
    ensures k in Table(series) ==> exists j :: (0 <= j < |series| && Rounded(series[j].0, 3) == k &&
      Table(series)[k] == series[j].1 &&
      forall l :: j < l < |series| ==> Rounded(series[l].0, 3) != k)
  {
    if series != [] {
      var n := |series|;
      TableMeaning(series[..n - 1], k);
      if Rounded(series[n - 1].0, 3) != k && k in Table(series) {
        var init := series[..n - 1];
        var j :| 0 <= j < n - 1 && Rounded(init[j].0, 3) == k &&
          Table(init)[k] == init[j].1 &&
          forall l :: j < l < n - 1 ==> Rounded(init[l].0, 3) != k;
        assert Rounded(series[j].0, 3) == k && Table(series)[k] == series[j].1;
      }
    }
  }

  /** `_align_series(series, timestamps)`: one entry per timestamp, the
      value recorded at that time (to the millisecond) or None. */
  function Align(series: seq<(real, real)>, timestamps: seq<real>): (r: seq<Option<real>>)
    ensures |r| == |timestamps|
  {
    if timestamps == [] then []
    else
      var lookup := Table(series);
      seq(|timestamps|, i requires 0 <= i < |timestamps| =>
        var k := Rounded(timestamps[i], 3);
        if k in lookup then Some(lookup[k]) else None)
  }

  /** A grid point without a sample at its time is None (never dropped
      and never zero); one with samples gets the last sample's value. */
  lemma AlignMeaning(series: seq<(real, real)>, timestamps: seq<real>, i: nat)
    requires i < |timestamps|
    ensures Align(series, timestamps)[i].None? <==>
      forall j :: 0 <= j < |series| ==> Rounded(series[j].0, 3) != Rounded(timestamps[i], 3)
    ensures Align(series, timestamps)[i].Some? ==> exists j :: (0 <= j < |series| &&
      Rounded(series[j].0, 3) == Rounded(timestamps[i], 3) &&
      Align(series, timestamps)[i].value == series[j].1)
  {
    TableMeaning(series, Rounded(timestamps[i], 3));
  }

  // ---------------------------------------------------------------------
  // collect

  /** The names of the fourteen range queries, in the order they are sent. */
  const QueryNames: seq<string> := [
    "gpu_memory_mb", "gpu_utilization_pct", "cpu_percent", "latency_ms", "throughput",
    "tokenize_ms", "inference_ms", "queue_wait_ms", "tokenizer_queue_wait_ms",
    "model_queue_wait_ms", "tokenizer_queue_size", "model_queue_size", "batch_queue_size",
    "padding_pct"]

  /** What `collect` returns: the grid under "timestamps" and one aligned
      series per query name. */
  datatype Collected = Collected(timestamps: seq<real>, series: map<string, seq<Option<real>>>)

  /** `collect(start, end)`: with end < start only an empty grid; otherwise
      the grid and each query's reply (`fetch`, by query name) aligned onto
      it, so every series has exactly one entry per grid point. */
  method Collect(start: real, end: real, step: real, fetch: string -> Reply) returns (c: Collected)
    ensures end < start ==> c == Collected([], map[])
    ensures end >= start ==> c.timestamps == BuildTimestamps(start, end, step)
    ensures end >= start ==> forall name :: name in c.series <==> name in QueryNames
    ensures forall name :: name in c.series ==> |c.series[name]| == |c.timestamps|
    ensures forall name :: name in c.series ==> c.series[name] == Align(Merged(fetch(name)), c.timestamps)
  {
    if end < start {
      return Collected([], map[]);
    }
    var timestamps := BuildTimestamps(start, end, step);
    var metrics: map<string, seq<Option<real>>> := map[];
    var names := QueryNames;
    var i := 0;
    while i < |names|
      invariant 0 <= i <= |names|
      invariant forall name :: name in metrics <==> name in names[..i]
      invariant forall name :: name in metrics ==> metrics[name] == Align(Merged(fetch(name)), timestamps)
    {
      var s := QueryRange(fetch(names[i]));
      metrics := metrics[names[i] := Align(s, timestamps)];
      assert names[..i + 1] == names[..i] + [names[i]];
      i := i + 1;
    }
    assert names[..|names|] == names;
    c := Collected(timestamps, metrics);
  }
}
