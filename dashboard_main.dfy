/** The values the dashboard page (src/frontend/static/js/main.js) computes
    before writing them into the page: the `fmt` number formatter, the
    stage-breakdown bar widths and the aggregate worker throughput. The
    page itself (element lookups, text and style writes) is represented
    by the fields of `StageBars`. */
module DashboardMain {
  import opened Wrappers
  import opened Text
  import opened Decimal
  import opened SeqMath

  /** A JavaScript value as `typeof value === 'number'` classifies it. */
  datatype JsValue = Number(n: real) | NotNumber

  /** `Math.min(decimals, 2)`. */
  function Places(decimals: nat): (p: nat)
    ensures p <= 2 && p <= decimals
    ensures decimals <= 2 ==> p == decimals
  {
    if decimals < 2 then decimals else 2
  }

  /** The number a value is displayed as: anything but a number shows 0. */
  function NumberOrZero(value: JsValue): real
  {
    if value.Number? then value.n else 0.0
  }

  /** `fmt(value, decimals)`: a non-number is shown as 0, with at most two
      fraction digits. */
  function Fmt(value: JsValue, decimals: nat): (s: string)
    ensures |s| > 0
    ensures s[0] == '-' ==> value.Number? && value.n < 0.0
  {
    var v, d := NumberOrZero(value), Places(decimals);
    var q := Magnitude(RoundScaled(v, d));
    assert Unsigned(q, d)[0] == NatToString(Quo(q, d))[0];
    FixedText(v, d)
  }

  /** Reading the text back gives the value (0 for a non-number) rounded
      to min(decimals, 2) places. */
  lemma FmtReadsBack(value: JsValue, decimals: nat)
    ensures ParseFloat(Fmt(value, decimals)) == Some(Rounded(NumberOrZero(value), Places(decimals)))
    ensures value.NotNumber? ==> ParseFloat(Fmt(value, decimals)) == Some(0.0)
  {
    var v, d := NumberOrZero(value), Places(decimals);
    assert Fmt(value, decimals) == FixedText(v, d);
    ParseFixedText(v, d);
    if value.NotNumber? {
      assert RoundScaled(0.0, d) == 0;
      assert Rounded(0.0, d) == 0.0;
    }
  }

  /** `fmt` never writes more than two digits after the point. */
  lemma FmtAtMostTwoPlaces(value: JsValue, decimals: nat)
    ensures decimals == 0 ==> Free(Fmt(value, decimals), '.')
    ensures decimals > 0 ==>
      |Split(Fmt(value, decimals), '.')| == 2 &&
      |Split(Fmt(value, decimals), '.')[1]| == Places(decimals) <= 2
  {
    FixedTextPlaces(NumberOrZero(value), Places(decimals));
  }

  // ---------------------------------------------------------------------
  // updateStageBreakdown

  /** The five bars, in the order the page declares them. */
  const StageKeys: seq<string> :=
    ["tokenize_pct", "tokenizer_queue_wait_pct", "model_queue_wait_pct", "inference_pct", "overhead_pct"]

  /** `stagePct.<key> || 0`: an absent percentage reads as 0. */
  function StagePct(stagePct: map<string, real>, key: string): (p: real)
    ensures key !in stagePct ==> p == 0.0
    ensures key in stagePct ==> p == stagePct[key]
  {
    if key in stagePct then stagePct[key] else 0.0
  }

  /** The percentage of each component, read from `data.stage_percentages`
      (an absent map reads as `{}`) in the order of `keys`. */
  function Percentages(stagePercentages: Option<map<string, real>>, keys: seq<string>): (pcts: seq<real>)
    ensures |pcts| == |keys|
    ensures forall i :: 0 <= i < |keys| ==>
      pcts[i] == (if stagePercentages.Some? && keys[i] in stagePercentages.value then stagePercentages.value[keys[i]] else 0.0)
  {
    var stagePct := stagePercentages.GetOr(map[]);
    seq(|keys|, i requires 0 <= i < |keys| => StagePct(stagePct, keys[i]))
  }

  /** What one bar shows: its width in percent of the bar and its text. */
  datatype Bar = Bar(width: real, text: string)

  /** The bar a component gets: all zero when the percentages add up to
      exactly 0, otherwise its share of the total in percent, labelled with
      its own (not the normalised) percentage. */
  function BarFor(pct: real, total: real): (b: Bar)
    ensures total == 0.0 ==> b == Bar(0.0, "0")
    ensures total != 0.0 ==> b.width * total == pct * 100.0 && b.text == Fmt(Number(pct), 1)
  {
    if total == 0.0 then Bar(0.0, "0") else Bar(Share(pct, total), Fmt(Number(pct), 1))
  }

  /** `(pct / total) * 100`. */
  function Share(pct: real, total: real): (w: real)
    requires total != 0.0
    ensures w * total == pct * 100.0
  {
    assert pct / total * total == pct;
    pct / total * 100.0
  }

  /** All bars for the given percentages, in their order. */
  function Breakdown(pcts: seq<real>): (bars: seq<Bar>)
    ensures |bars| == |pcts|
    ensures forall i :: 0 <= i < |pcts| ==> bars[i] == BarFor(pcts[i], Sum(pcts))
  {
    seq(|pcts|, i requires 0 <= i < |pcts| => BarFor(pcts[i], Sum(pcts)))
  }

  function Widths(bars: seq<Bar>): (w: seq<real>)
    ensures |w| == |bars|
    ensures forall i :: 0 <= i < |bars| ==> w[i] == bars[i].width
  {
    seq(|bars|, i requires 0 <= i < |bars| => bars[i].width)
  }

  /** A zero total empties every bar and labels it "0". */
  lemma BreakdownAllZero(pcts: seq<real>)
    requires Sum(pcts) == 0.0
    ensures forall i :: 0 <= i < |pcts| ==> Breakdown(pcts)[i] == Bar(0.0, "0")
    ensures Sum(Widths(Breakdown(pcts))) == 0.0
  {
    ZeroWidths(Widths(Breakdown(pcts)));
  }

  lemma {:induction false} ZeroWidths(w: seq<real>)
    requires forall i :: 0 <= i < |w| ==> w[i] == 0.0
    ensures Sum(w) == 0.0
  {
    if w != [] { ZeroWidths(w[..|w| - 1]); }
  }

  /** Otherwise the widths are the percentages normalised by their total,
      so they add up to exactly 100, and each label reads back as its
      component's raw percentage rounded to one place. */
  lemma BreakdownFillsBar(pcts: seq<real>)
    requires Sum(pcts) != 0.0
    ensures Sum(Widths(Breakdown(pcts))) == 100.0
    ensures forall i :: 0 <= i < |pcts| ==> ParseFloat(Breakdown(pcts)[i].text) == Some(Rounded(pcts[i], 1))
  {
    var total := Sum(pcts);
    var bars := Breakdown(pcts);
    forall i | 0 <= i < |pcts|
      ensures ParseFloat(bars[i].text) == Some(Rounded(pcts[i], 1))
    {
      FmtReadsBack(Number(pcts[i]), 1);
    }
    SumShares(pcts, total);
    assert Widths(bars) == Shares(pcts, total);
    WholeShare(total);
  }

  /** Each part's share of a fixed total. */
  function Shares(pcts: seq<real>, total: real): (r: seq<real>)
    requires total != 0.0
    ensures |r| == |pcts|
  {
    seq(|pcts|, i requires 0 <= i < |pcts| => Share(pcts[i], total))
  }

  lemma {:induction false} SumShares(pcts: seq<real>, total: real)
    requires total != 0.0
    ensures Sum(Shares(pcts, total)) == Share(Sum(pcts), total)
  {
    if pcts != [] {
      var n := |pcts|;
      assert Shares(pcts, total)[..n - 1] == Shares(pcts[..n - 1], total);
      SumShares(pcts[..n - 1], total);
      AddShares(Sum(pcts[..n - 1]), pcts[n - 1], total);
    }
  }

  lemma AddShares(a: real, b: real, total: real)
    requires total != 0.0
    ensures Share(a, total) + Share(b, total) == Share(a + b, total)
  {
  }

  lemma WholeShare(total: real)
    requires total != 0.0
    ensures Share(total, total) == 100.0
  {
  }

  /** Nothing is ranked: a larger percentage never gets a narrower bar
      when the total is positive. */
  lemma BreakdownKeepsOrder(pcts: seq<real>, i: nat, j: nat)
    requires i < |pcts| && j < |pcts| && Sum(pcts) > 0.0
    requires pcts[i] <= pcts[j]
    ensures Breakdown(pcts)[i].width <= Breakdown(pcts)[j].width
  {
    var total := Sum(pcts);
    assert Breakdown(pcts)[i] == BarFor(pcts[i], total);
    assert Breakdown(pcts)[j] == BarFor(pcts[j], total);
    ShareMonotone(pcts[i], pcts[j], total);
  }

  lemma ShareMonotone(p: real, q: real, total: real)
    requires total > 0.0 && p <= q
    ensures Share(p, total) <= Share(q, total)
  {
    assert p / total <= q / total;
  }

  /** The bar elements of the stage breakdown on the page. */
  class StageBars {
    var bars: seq<Bar>

    constructor ()
      ensures bars == seq(|StageKeys|, _ => Bar(0.0, ""))
    {
      bars := seq(|StageKeys|, _ => Bar(0.0, ""));
    }

    /** `updateStageBreakdown(data)`: writes each component's bar in the
        declared order. */
    method UpdateStageBreakdown(stagePercentages: Option<map<string, real>>)
      modifies this
      ensures bars == Breakdown(Percentages(stagePercentages, StageKeys))
    {
      var pcts := Percentages(stagePercentages, StageKeys);
      var total := Sum(pcts);
      var written: seq<Bar> := [];
      var i := 0;
      while i < |pcts|
        invariant 0 <= i <= |pcts|
        invariant |written| == i
        invariant forall j :: 0 <= j < i ==> written[j] == BarFor(pcts[j], total)
      {
        if total == 0.0 {
          written := written + [Bar(0.0, "0")];
        } else {
          written := written + [Bar(pcts[i] / total * 100.0, Fmt(Number(pcts[i]), 1))];
        }
        i := i + 1;
      }
      bars := written;
    }
  }

  // ---------------------------------------------------------------------
  // Aggregate throughput

  /** `ws.throughput_qps || 0`. */
  function WorkerQps(ws: map<string, real>): real
  {
    if "throughput_qps" in ws then ws["throughput_qps"] else 0.0
  }

  /** `workerStats.reduce((sum, ws) => sum + (ws.throughput_qps || 0), 0)`. */
  function TotalQps(workerStats: seq<map<string, real>>): (r: real)
    ensures r == Sum(Rates(workerStats))
  {
    if workerStats == [] then 0.0
    else
      assert Rates(workerStats)[..|workerStats| - 1] == Rates(workerStats[..|workerStats| - 1]);
      TotalQps(workerStats[..|workerStats| - 1]) + WorkerQps(workerStats[|workerStats| - 1])
  }

  /** Each worker's reported rate, 0 where it reports none. */
  function Rates(workerStats: seq<map<string, real>>): (r: seq<real>)
    ensures |r| == |workerStats|
    ensures forall i :: 0 <= i < |workerStats| ==> r[i] == WorkerQps(workerStats[i])
  {
    seq(|workerStats|, i requires 0 <= i < |workerStats| => WorkerQps(workerStats[i]))
  }

  /** The aggregate shown for `data.worker_stats` (absent reads as `[]`). */
  function AggregateThroughput(workerStats: Option<seq<map<string, real>>>): (r: real)
    ensures workerStats.None? ==> r == 0.0
    ensures workerStats.Some? ==> r == Sum(Rates(workerStats.value))
  {
    TotalQps(workerStats.GetOr([]))
  }

  /** The aggregate of two groups of workers is the sum of their aggregates. */
  lemma {:induction false} TotalQpsConcat(a: seq<map<string, real>>, b: seq<map<string, real>>)
    ensures TotalQps(a + b) == TotalQps(a) + TotalQps(b)
  {
    if b == [] {
      assert a + b == a;
    } else {
      assert (a + b)[..|a + b| - 1] == a + b[..|b| - 1];
      TotalQpsConcat(a, b[..|b| - 1]);
    }
  }

  /** A worker that reports no throughput adds nothing; no workers give 0. */
  lemma MissingThroughputIsZero(a: seq<map<string, real>>, ws: map<string, real>)
    requires "throughput_qps" !in ws
    ensures TotalQps(a + [ws]) == TotalQps(a)
    ensures AggregateThroughput(None) == 0.0
  {
    TotalQpsConcat(a, [ws]);
    assert [ws][..0] == [];
  }

  /** With non-negative per-worker rates the aggregate is at least each of them. */
  lemma {:induction false} TotalQpsBoundsEach(workerStats: seq<map<string, real>>, k: nat)
    requires k < |workerStats|
    requires forall i :: 0 <= i < |workerStats| ==> WorkerQps(workerStats[i]) >= 0.0
    ensures TotalQps(workerStats) >= WorkerQps(workerStats[k]) >= 0.0
  {
    var n := |workerStats|;
    var init := workerStats[..n - 1];
    TotalQpsNonNegative(init);
    if k < n - 1 {
      TotalQpsBoundsEach(init, k);
    }
  }

  lemma {:induction false} TotalQpsNonNegative(workerStats: seq<map<string, real>>)
    requires forall i :: 0 <= i < |workerStats| ==> WorkerQps(workerStats[i]) >= 0.0
    ensures TotalQps(workerStats) >= 0.0
  {
    if workerStats != [] {
      TotalQpsNonNegative(workerStats[..|workerStats| - 1]);
    }
  }
}
