/** The markdown timeseries file written after a benchmark run: a preamble,
    a fifteen-column table with one row per recorded timestamp, and a blank
    line (src/client/timeseries_writer.py). */
module TimeseriesWriter {
  import opened Wrappers
  import opened Text
  import opened Decimal

  /** The `metrics` argument: series by name, each value a float or None. */
  type Metrics = map<string, seq<Option<real>>>

  /** `metrics.get(key, [])`. */
  function Get(m: Metrics, key: string): seq<Option<real>>
  {
    if key in m then m[key] else []
  }

  /** The column titles, in table order. */
  const Headers: seq<string> := [
    "Index",
    "GPU Mem (MB)",
    "GPU Util (%)",
    "CPU (%)",
    "Latency (ms)",
    "Throughput",
    "Tokenize (ms)",
    "Inference (ms)",
    "Queue Wait (ms)",
    "Tokenizer Queue Wait (ms)",
    "Model Queue Wait (ms)",
    "Tokenizer Queue Size",
    "Model Queue Size",
    "Batch Queue Size",
    "Padding (%)"
  ]

  /** The metric read for column j + 1 (column 0 is the row index). */
  const SeriesKeys: seq<string> := [
    "gpu_memory_mb",
    "gpu_utilization_pct",
    "cpu_percent",
    "latency_ms",
    "throughput",
    "tokenize_ms",
    "inference_ms",
    "queue_wait_ms",
    "tokenizer_queue_wait_ms",
    "model_queue_wait_ms",
    "tokenizer_queue_size",
    "model_queue_size",
    "batch_queue_size",
    "padding_pct"
  ]

  /** Decimal places `_fmt` uses for a present value. */
  function Decimals(v: real): (d: nat)
    ensures d <= 2
    ensures IsInteger(v) ==> d == 0
  {
    if Abs(v) >= 100.0 || IsInteger(v) then 0
    else if Abs(v) >= 10.0 then 1
    else 2
  }

  /** `_fmt(series, idx)`: "-" for an index past the end or a None value,
      otherwise the value at the precision `Decimals` chooses. */
  function Fmt(series: seq<Option<real>>, idx: nat): (s: string)
    ensures s == "-" <==> idx >= |series| || series[idx].None?
  {
    if idx >= |series| then "-"
    else match series[idx]
      case None => "-"
      case Some(v) => FixedTextShape(v, Decimals(v)); FixedText(v, Decimals(v))
  }

  /** The cells of data row `idx`: the index, then one cell per metric. */
  function Row(m: Metrics, idx: nat): (cells: seq<string>)
    ensures |cells| == |Headers|
    ensures cells[0] == NatToString(idx)
    ensures forall j :: 0 <= j < |SeriesKeys| ==> cells[j + 1] == Fmt(Get(m, SeriesKeys[j]), idx)
  {
    [NatToString(idx)] + MetricCells(m, SeriesKeys, idx)
  }

  /** One formatted cell per metric key. */
  function MetricCells(m: Metrics, keys: seq<string>, idx: nat): (cells: seq<string>)
    ensures |cells| == |keys|
    ensures forall j :: 0 <= j < |keys| ==> cells[j] == Fmt(Get(m, keys[j]), idx)
  {
    seq(|keys|, j requires 0 <= j < |keys| => Fmt(Get(m, keys[j]), idx))
  }

  /** A table line: `"| " + " | ".join(cells) + " |"`. */
  function PipeRow(cells: seq<string>): string
  {
    "| " + Join(cells, " | ") + " |"
  }

  /** The line under the titles: one "-----" per column between bars. */
  function SeparatorLine(): string
  {
    "|" + Join(seq(|Headers|, _ => "-----"), "|") + "|"
  }

  /** The lines before the table. The title appears only when the file is
      started afresh, the run line only for a non-empty run label. */
  function Preamble(experimentName: string, runLabel: string, generated: string, truncated: bool): (p: seq<string>)
    ensures |p| == 4 + (if truncated then 2 else 0) + (if runLabel != "" then 2 else 0)
    ensures truncated ==> p[..2] == ["# Timeseries Data", ""]
    ensures var e := if truncated then 2 else 0; p[e..e + 2] == ["**Experiment:** " + experimentName, ""]
    ensures runLabel != "" ==> "**Run:** " + runLabel in p
    ensures p[|p| - 2..] == ["**Generated:** " + generated, ""]
  {
    (if truncated then ["# Timeseries Data", ""] else [])
    + ["**Experiment:** " + experimentName, ""]
    + (if runLabel != "" then ["**Run:** " + runLabel, ""] else [])
    + ["**Generated:** " + generated, ""]
  }

  /** The first n data rows. */
  function RowLines(m: Metrics, n: nat): (lines: seq<string>)
    ensures |lines| == n
    ensures forall i :: 0 <= i < n ==> lines[i] == PipeRow(Row(m, i))
  {
    seq(n, i requires 0 <= i < n => PipeRow(Row(m, i)))
  }

  /** The number of rows: the length of the "timestamps" series. */
  function RowCount(m: Metrics): nat
  {
    |Get(m, "timestamps")|
  }

  /** The table: titles, separator, the rows and a closing blank line. */
  function TableLines(m: Metrics): (lines: seq<string>)
    ensures |lines| == RowCount(m) + 3
    ensures lines[..2] == [PipeRow(Headers), SeparatorLine()] && lines[|lines| - 1] == ""
    ensures lines[2..|lines| - 1] == RowLines(m, RowCount(m))
  {
    var head, rows := [PipeRow(Headers), SeparatorLine()], RowLines(m, RowCount(m));
    SplitTable(head, rows);
    head + rows + [""]
  }

  lemma SplitTable(head: seq<string>, rows: seq<string>)
    ensures |head + rows + [""]| == |head| + |rows| + 1
    ensures (head + rows + [""])[..|head|] == head
    ensures (head + rows + [""])[|head|..|head| + |rows|] == rows
    ensures (head + rows + [""])[|head| + |rows|] == ""
  {
  }

  /** Every line one `write` call emits, in order. */
  function SectionLines(experimentName: string, runLabel: string, m: Metrics, generated: string, truncated: bool): (lines: seq<string>)
    ensures var k := |Preamble(experimentName, runLabel, generated, truncated)|;
      |lines| == k + RowCount(m) + 3 &&
      lines[..k] == Preamble(experimentName, runLabel, generated, truncated) &&
      lines[k..] == TableLines(m)
  {
    var p, t := Preamble(experimentName, runLabel, generated, truncated), TableLines(m);
    assert (p + t)[..|p|] == p && (p + t)[|p|..] == t;
    p + t
  }

  /** The file at the writer's path: whether it exists and what it holds.
      The current time for the "**Generated:**" line is passed in. */
  class Writer {
    var present: bool
    var contents: string

    constructor (present: bool, contents: string)
      ensures this.present == present && this.contents == contents
    {
      this.present := present;
      this.contents := contents;
    }

    /** `write(experiment_name, run_label, metrics, append)`: appends to an
        existing file when asked to, otherwise starts the file afresh. */
    method Write(experimentName: string, runLabel: string, m: Metrics, append: bool, generated: string)
      modifies this
      ensures present
      ensures append && old(present) ==>
        contents == old(contents) + Terminated(SectionLines(experimentName, runLabel, m, generated, false))
      ensures !(append && old(present)) ==>
        contents == Terminated(SectionLines(experimentName, runLabel, m, generated, true))
    {
      var truncated := !(append && present);
      if truncated {
        contents := "";
      }
      ghost var start := contents;
      WritePreamble(experimentName, runLabel, generated, truncated);
      WriteTable(start, Preamble(experimentName, runLabel, generated, truncated), m);
      present := true;
    }

    method WritePreamble(experimentName: string, runLabel: string, generated: string, truncated: bool)
      modifies this
      ensures present == old(present)
      ensures contents == old(contents) + Terminated(Preamble(experimentName, runLabel, generated, truncated))
    {
      ghost var start, written: seq<string> := contents, [];
      if truncated {
        Emit(start, written, ["# Timeseries Data", ""]);
        written := written + ["# Timeseries Data", ""];
      }
      Emit(start, written, ["**Experiment:** " + experimentName, ""]);
      written := written + ["**Experiment:** " + experimentName, ""];
      if runLabel != "" {
        Emit(start, written, ["**Run:** " + runLabel, ""]);
        written := written + ["**Run:** " + runLabel, ""];
      }
      Emit(start, written, ["**Generated:** " + generated, ""]);
      written := written + ["**Generated:** " + generated, ""];
      assert written == Preamble(experimentName, runLabel, generated, truncated);
    }

    /** The title line, the separator, one line per timestamp and a blank line. */
    method WriteTable(ghost start: string, ghost written: seq<string>, m: Metrics)
      requires contents == start + Terminated(written)
      modifies this
      ensures present == old(present)
      ensures contents == start + Terminated(written + TableLines(m))
    {
      WriteTableUnder(start, written, m, PipeRow(Headers), SeparatorLine());
    }

    method WriteTableUnder(ghost start: string, ghost written: seq<string>, m: Metrics, title: string, rule: string)
      requires contents == start + Terminated(written)
      modifies this
      ensures present == old(present)
      ensures contents == start + Terminated(written + ([title, rule] + RowLines(m, RowCount(m)) + [""]))
    {
      Emit(start, written, [title]);
      Emit(start, written + [title], [rule]);
      WriteRows(start, written + [title] + [rule], m);
      Emit(start, written + [title] + [rule] + RowLines(m, RowCount(m)), [""]);
      assert written + [title] + [rule] + RowLines(m, RowCount(m)) + [""]
        == written + ([title, rule] + RowLines(m, RowCount(m)) + [""]);
    }

    /** `for idx in range(length)`: one row line per timestamp. */
    method WriteRows(ghost start: string, ghost written: seq<string>, m: Metrics)
      requires contents == start + Terminated(written)
      modifies this
      ensures present == old(present)
      ensures contents == start + Terminated(written + RowLines(m, RowCount(m)))
    {
      var length := |Get(m, "timestamps")|;
      var idx := 0;
      assert written + RowLines(m, 0) == written;
      while idx < length
        invariant 0 <= idx <= length
        invariant present == old(present)
        invariant contents == start + Terminated(written + RowLines(m, idx))
      {
        Emit(start, written + RowLines(m, idx), [PipeRow(Row(m, idx))]);
        assert RowLines(m, idx + 1) == RowLines(m, idx) + [PipeRow(Row(m, idx))];
        assert written + RowLines(m, idx) + [PipeRow(Row(m, idx))] == written + RowLines(m, idx + 1);
        idx := idx + 1;
      }
    }

    /** One `f.write` of the given lines, each followed by a newline. The
        ghost `written` lists what the calling method has written so far,
        after the text `start` that was already there. */
    method Emit(ghost start: string, ghost written: seq<string>, lines: seq<string>)
      requires contents == start + Terminated(written)
      modifies this
      ensures present == old(present)
      ensures contents == start + Terminated(written + lines)
    {
      TerminatedConcat(written, lines);
      contents := contents + Terminated(lines);
      assert contents == start + (Terminated(written) + Terminated(lines));
    }
  }
}
