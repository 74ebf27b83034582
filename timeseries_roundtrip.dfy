/** The markdown timeseries writer and the dashboard's parser taken
    together: what the parser reads back from a freshly written file. */
module TimeseriesRoundTrip {
  import opened Wrappers
  import opened Text
  import opened Decimal
  import opened TimeseriesWriter
  import opened Screenshot

  /** A cell text the parser reads back unchanged: no surrounding blanks,
      no bar and no newline. */
  predicate Clean(s: string)
  {
    Trimmed(s) && Free(s, '|') && Free(s, '\n')
  }

  /** The cells between the bars of a table line, each with one blank on
      either side. */
  function Pad(cells: seq<string>): (r: seq<string>)
    ensures |r| == |cells|
    ensures forall i :: 0 <= i < |cells| ==> r[i] == " " + cells[i] + " "
  {
    seq(|cells|, i requires 0 <= i < |cells| => " " + cells[i] + " ")
  }

  lemma {:induction false} JoinPad(cells: seq<string>)
    requires |cells| > 0
    ensures Join(Pad(cells), "|") == " " + Join(cells, " | ") + " "
  {
    if |cells| > 1 {
      JoinPad(cells[1..]);
      assert Pad(cells)[1..] == Pad(cells[1..]);
    }
  }

  lemma PipeRowJoin(cells: seq<string>)
    requires |cells| > 0
    ensures PipeRow(cells) == Join([""] + Pad(cells) + [""], "|")
  {
    var parts := [""] + Pad(cells) + [""];
    JoinPad(cells);
    assert parts[1..] == Pad(cells) + [""];
    JoinSnoc(Pad(cells), "|", "");
  }

  /** The parser splits a written table line back into its cells. */
  lemma CellsOfPipeRow(cells: seq<string>)
    requires |cells| > 0
    requires forall i :: 0 <= i < |cells| ==> Clean(cells[i])
    ensures Cells(PipeRow(cells)) == cells
  {
    var parts := [""] + Pad(cells) + [""];
    PipeRowJoin(cells);
    forall i | 0 <= i < |parts|
      ensures Free(parts[i], '|')
    {
      if 0 < i < |parts| - 1 {
        assert parts[i] == " " + cells[i - 1] + " ";
      }
    }
    SplitJoin(parts, '|');
    assert Inner(parts) == Pad(cells);
    forall i | 0 <= i < |cells|
      ensures Strip(Pad(cells)[i]) == cells[i]
    {
      StripPadded(cells[i]);
    }
  }

  lemma NatTextClean(n: nat)
    ensures Clean(NatToString(n))
  {
  }

  lemma FmtClean(series: seq<Option<real>>, idx: nat)
    ensures Clean(Fmt(series, idx))
  {
    if idx < |series| && series[idx].Some? {
      var v := series[idx].value;
      FixedTextShape(v, Decimals(v));
    }
  }

  lemma RowClean(m: Metrics, idx: nat)
    ensures forall j :: 0 <= j < |Headers| ==> Clean(Row(m, idx)[j])
  {
    NatTextClean(idx);
    forall k | 1 <= k < |Headers|
      ensures Clean(Row(m, idx)[k])
    {
      FmtClean(Get(m, SeriesKeys[k - 1]), idx);
    }
  }

  /** The column titles are distinct and clean. */
  lemma HeadersClean()
    ensures forall j :: 0 <= j < |Headers| ==> Clean(Headers[j])
  {
    FirstHeadersClean();
    LastHeadersClean();
  }

  lemma FirstHeadersClean()
    ensures forall j :: 0 <= j < 8 ==> Clean(Headers[j])
  {
    assert Clean(Headers[0]);
    assert Clean(Headers[1]);
    assert Clean(Headers[2]);
    assert Clean(Headers[3]);
    assert Clean(Headers[4]);
    assert Clean(Headers[5]);
    assert Clean(Headers[6]);
    assert Clean(Headers[7]);
  }

  lemma LastHeadersClean()
    ensures forall j :: 8 <= j < |Headers| ==> Clean(Headers[j])
  {
    assert Clean(Headers[8]);
    assert Clean(Headers[9]);
    assert Clean(Headers[10]);
    assert Clean(Headers[11]);
    assert Clean(Headers[12]);
    assert Clean(Headers[13]);
    assert Clean(Headers[14]);
  }

  lemma HeadersDistinct()
    ensures forall i, j :: 0 <= i < j < |Headers| ==> Headers[i] != Headers[j]
  {
  }

  /** The lines of a freshly started file. */
  function FileLines(name: string, runLabel: string, m: Metrics, generated: string): seq<string>
  {
    SectionLines(name, runLabel, m, generated, true)
  }

  /** A line that is neither broken by a newline nor mistaken for the
      table's title line. */
  predicate PlainLine(s: string)
  {
    Free(s, '\n') && !StartsWith(s, TablePrefix)
  }

  lemma PipeRowFree(cells: seq<string>)
    requires forall i :: 0 <= i < |cells| ==> Free(cells[i], '\n')
    ensures Free(PipeRow(cells), '\n')
  {
    JoinFree(cells, " | ", '\n');
    var s := PipeRow(cells);
    var j := Join(cells, " | ");
    assert s == "| " + j + " |";
    forall i | 0 <= i < |s|
      ensures s[i] != '\n'
    {
      if 2 <= i < 2 + |j| { assert s[i] == j[i - 2]; }
    }
  }

  lemma LabelLine(tag: string, text: string)
    requires tag != [] && tag[0] != '|' && Free(tag, '\n') && Free(text, '\n')
    ensures PlainLine(tag + text)
  {
    var s := tag + text;
    assert s[0] == tag[0];
    forall i | 0 <= i < |s|
      ensures s[i] != '\n'
    {
      if i >= |tag| { assert s[i] == text[i - |tag|]; }
    }
  }

  lemma PreamblePlain(name: string, runLabel: string, generated: string)
    requires Free(name, '\n') && Free(runLabel, '\n') && Free(generated, '\n')
    ensures forall i :: 0 <= i < |Preamble(name, runLabel, generated, true)| ==>
      PlainLine(Preamble(name, runLabel, generated, true)[i])
  {
    LabelLine("**Experiment:** ", name);
    LabelLine("**Run:** ", runLabel);
    LabelLine("**Generated:** ", generated);
    LabelLine("# Timeseries Data", "");
    assert "# Timeseries Data" + "" == "# Timeseries Data";
    assert PlainLine("");
  }

  lemma TableFree(title: string, rule: string, rows: seq<string>)
    requires Free(title, '\n') && Free(rule, '\n')
    requires forall i :: 0 <= i < |rows| ==> Free(rows[i], '\n')
    ensures forall i :: 0 <= i < |[title, rule] + rows + [""]| ==> Free(([title, rule] + rows + [""])[i], '\n')
  {
    var t := [title, rule] + rows + [""];
    forall i | 0 <= i < |t|
      ensures Free(t[i], '\n')
    {
      if 2 <= i < |t| - 1 { assert t[i] == rows[i - 2]; }
    }
  }

  lemma RowLinesFree(m: Metrics, n: nat)
    ensures forall i :: 0 <= i < |RowLines(m, n)| ==> Free(RowLines(m, n)[i], '\n')
  {
    forall i | 0 <= i < n
      ensures Free(RowLines(m, n)[i], '\n')
    {
      RowClean(m, i);
      PipeRowFree(Row(m, i));
    }
  }

  lemma RuleFree(k: nat)
    ensures Free("|" + Join(seq(k, _ => "-----"), "|") + "|", '\n')
  {
    var cells := seq(k, _ => "-----");
    JoinFree(cells, "|", '\n');
    var j := Join(cells, "|");
    var s := "|" + j + "|";
    forall i | 0 <= i < |s|
      ensures s[i] != '\n'
    {
      if 1 <= i < 1 + |j| { assert s[i] == j[i - 1]; }
    }
  }

  lemma TitleFree()
    ensures Free(PipeRow(Headers), '\n')
  {
    HeadersClean();
    PipeRowFree(Headers);
  }

  lemma TableLinesFree(m: Metrics)
    ensures forall i :: 0 <= i < |TableLines(m)| ==> Free(TableLines(m)[i], '\n')
  {
    TitleFree();
    RuleFree(|Headers|);
    RowLinesFree(m, RowCount(m));
    TableFree(PipeRow(Headers), SeparatorLine(), RowLines(m, RowCount(m)));
  }

  lemma LinesFree(pre: seq<string>, table: seq<string>)
    requires forall i :: 0 <= i < |pre| ==> PlainLine(pre[i])
    requires forall i :: 0 <= i < |table| ==> Free(table[i], '\n')
    ensures forall i :: 0 <= i < |pre + table| ==> Free((pre + table)[i], '\n')
  {
    forall i | 0 <= i < |pre + table|
      ensures Free((pre + table)[i], '\n')
    {
      if i >= |pre| { assert (pre + table)[i] == table[i - |pre|]; }
    }
  }

  /** Splitting the written text on newlines gives back its lines. */
  lemma FileSplit(name: string, runLabel: string, m: Metrics, generated: string)
    requires Free(name, '\n') && Free(runLabel, '\n') && Free(generated, '\n')
    ensures Split(Terminated(FileLines(name, runLabel, m, generated)), '\n') == FileLines(name, runLabel, m, generated) + [""]
  {
    PreamblePlain(name, runLabel, generated);
    TableLinesFree(m);
    LinesFree(Preamble(name, runLabel, generated, true), TableLines(m));
    SplitTerminated(FileLines(name, runLabel, m, generated));
  }

  lemma PipeRowStarts(cells: seq<string>)
    requires |cells| > 1 && cells[0] == "Index"
    ensures StartsWith(PipeRow(cells), TablePrefix)
  {
    var rest := Join(cells[1..], " | ");
    assert Join(cells, " | ") == "Index" + " | " + rest;
    assert PipeRow(cells) == "| Index |" + " " + rest + " |";
  }

  lemma TitleLineStarts()
    ensures StartsWith(PipeRow(Headers), TablePrefix)
  {
    PipeRowStarts(Headers);
  }

  /** The first line starting like a title line comes right after the
      preamble. */
  lemma FirstTitle(pre: seq<string>, title: string, rest: seq<string>)
    requires forall i :: 0 <= i < |pre| ==> PlainLine(pre[i])
    requires StartsWith(title, TablePrefix)
    ensures HeaderIndex(pre + [title] + rest, 0) == Some(|pre|)
  {
    var lines := pre + [title] + rest;
    assert lines[|pre|] == title;
    forall k | 0 <= k < |pre|
      ensures !StartsWith(lines[k], TablePrefix)
    {
      assert lines[k] == pre[k];
    }
  }

  lemma TableSearch(pre: seq<string>, title: string, rule: string, rows: seq<string>)
    requires forall i :: 0 <= i < |pre| ==> PlainLine(pre[i])
    requires StartsWith(title, TablePrefix)
    ensures var lines := pre + ([title, rule] + rows + [""]) + [""];
      HeaderIndex(lines, 0) == Some(|pre|) && lines[|pre|] == title &&
      |pre| + 2 <= |lines| && lines[|pre| + 2..] == rows + ["", ""]
  {
    var lines := pre + ([title, rule] + rows + [""]) + [""];
    var rest := [rule] + rows + ["", ""];
    assert lines == pre + [title] + rest;
    FirstTitle(pre, title, rest);
    assert lines[|pre| + 2..] == rows + ["", ""];
  }

  /** The parser's header search lands on the written title line, and the
      rows follow the separator. */
  lemma FileHeaderIndex(name: string, runLabel: string, m: Metrics, generated: string)
    requires Free(name, '\n') && Free(runLabel, '\n') && Free(generated, '\n')
    ensures var lines := FileLines(name, runLabel, m, generated) + [""];
      var p := |Preamble(name, runLabel, generated, true)|;
      HeaderIndex(lines, 0) == Some(p) && lines[p] == PipeRow(Headers) &&
      p + 2 <= |lines| && lines[p + 2..] == RowLines(m, RowCount(m)) + ["", ""]
  {
    PreamblePlain(name, runLabel, generated);
    TitleLineStarts();
    TableSearch(Preamble(name, runLabel, generated, true), PipeRow(Headers), SeparatorLine(), RowLines(m, RowCount(m)));
  }

  predicate Distinct(hs: seq<string>)
  {
    forall i, j :: 0 <= i < j < |hs| ==> hs[i] != hs[j]
  }

  /** Reading one row under distinct titles appends exactly one cell to
      each titled column and leaves every other column alone. */
  lemma {:induction false} AddRowDistinct(t: Table, hs: seq<string>, vs: seq<string>)
    requires |hs| == |vs| && Distinct(hs)
    ensures forall j :: 0 <= j < |hs| ==> Lookup(AddRow(t, hs, vs), hs[j]) == Lookup(t, hs[j]) + [ReadCell(vs[j])]
    ensures forall h :: h !in hs ==> Lookup(AddRow(t, hs, vs), h) == Lookup(t, h)
    decreases |hs|
  {
    if hs != [] {
      var t' := t[hs[0] := Lookup(t, hs[0]) + [ReadCell(vs[0])]];
      AddRowDistinct(t', hs[1..], vs[1..]);
      forall j | 0 <= j < |hs|
        ensures Lookup(AddRow(t, hs, vs), hs[j]) == Lookup(t, hs[j]) + [ReadCell(vs[j])]
      {
        if j == 0 {
          assert forall k :: 0 <= k < |hs[1..]| ==> hs[1..][k] == hs[k + 1];
          assert hs[0] !in hs[1..];
        } else {
          assert hs[j] == hs[1..][j - 1] && vs[j] == vs[1..][j - 1];
          assert hs[j] != hs[0];
        }
      }
      forall h | h !in hs
        ensures Lookup(AddRow(t, hs, vs), h) == Lookup(t, h)
      {
        assert h !in hs[1..];
      }
    }
  }

  /** Column j of the file as the parser reads it, over the first k rows. */
  function WrittenColumn(m: Metrics, j: nat, k: nat): (c: seq<Cell>)
    requires j < |Headers|
    ensures |c| == k
    ensures forall idx :: 0 <= idx < k ==> c[idx] == ReadCell(Row(m, idx)[j])
  {
    seq(k, idx requires 0 <= idx < k => ReadCell(Row(m, idx)[j]))
  }

  /** After k rows each title holds its column and nothing else is there. */
  ghost predicate Holds(t: Table, hs: seq<string>, m: Metrics, k: nat)
    requires |hs| == |Headers|
  {
    (forall j :: 0 <= j < |hs| ==> Lookup(t, hs[j]) == WrittenColumn(m, j, k)) &&
    (forall h :: h !in hs ==> Lookup(t, h) == [])
  }

  lemma EmptyHolds(hs: seq<string>, m: Metrics)
    requires |hs| == |Headers|
    ensures Holds(EmptyTable(hs), hs, m, 0)
  {
  }

  lemma AddRowStep(t: Table, hs: seq<string>, m: Metrics, k: nat)
    requires |hs| == |Headers| && Distinct(hs) && Holds(t, hs, m, k)
    ensures Holds(AddRow(t, hs, Row(m, k)), hs, m, k + 1)
  {
    var vs := Row(m, k);
    var t' := AddRow(t, hs, vs);
    AddRowDistinct(t, hs, vs);
    forall j | 0 <= j < |hs|
      ensures Lookup(t', hs[j]) == WrittenColumn(m, j, k + 1)
    {
      assert Lookup(t', hs[j]) == Lookup(t, hs[j]) + [ReadCell(vs[j])];
      WrittenColumnStep(m, j, k);
    }
    forall h | h !in hs
      ensures Lookup(t', h) == []
    {
      assert Lookup(t', h) == Lookup(t, h);
    }
  }

  lemma WrittenColumnStep(m: Metrics, j: nat, k: nat)
    requires j < |Headers|
    ensures WrittenColumn(m, j, k + 1) == WrittenColumn(m, j, k) + [ReadCell(Row(m, k)[j])]
  {
  }

  /** A written row line is read as a row of the table. */
  lemma RowLineRead(m: Metrics, k: nat)
    ensures !EndOfTable(PipeRow(Row(m, k)))
    ensures Cells(PipeRow(Row(m, k))) == Row(m, k)
  {
    var line := PipeRow(Row(m, k));
    assert line[0] == '|';
    StripNonBlank(line);
    RowClean(m, k);
    CellsOfPipeRow(Row(m, k));
  }

  /** The row loop reads every written row and stops at the blank line. */
  lemma {:induction false} ReadWrittenRows(m: Metrics, n: nat, k: nat, hs: seq<string>, t: Table)
    requires k <= n && |hs| == |Headers| && Distinct(hs) && Holds(t, hs, m, k)
    ensures Holds(ReadRows(RowLines(m, n)[k..] + ["", ""], hs, t), hs, m, n)
    decreases n - k
  {
    var rows := RowLines(m, n)[k..] + ["", ""];
    if k == n {
      assert rows == ["", ""];
      assert EndOfTable("");
    } else {
      assert rows[0] == PipeRow(Row(m, k));
      RowLineRead(m, k);
      AddRowStep(t, hs, m, k);
      assert rows[1..] == RowLines(m, n)[k + 1..] + ["", ""];
      ReadWrittenRows(m, n, k + 1, hs, AddRow(t, hs, Row(m, k)));
    }
  }

  lemma HoldsLength(t: Table, hs: seq<string>, m: Metrics, n: nat)
    requires |hs| == |Headers| && Holds(t, hs, m, n)
    ensures MaxLength(t, hs) == n
  {
    assert |Lookup(t, hs[0])| == n;
  }

  /** Only the experiment line of a fresh file matches the marker. */
  lemma FileExperimentName(name: string, rest: seq<string>)
    requires name != []
    ensures ExperimentName(["# Timeseries Data", "", "**Experiment:** " + name] + rest) == Strip(name)
  {
    var lines := ["# Timeseries Data", "", "**Experiment:** " + name] + rest;
    NoMarker("# Timeseries Data");
    NoMarker("");
    var line := "**Experiment:** " + name;
    assert OccursAt(line, Marker, 0);
    assert MarkerMatch(line) == Some(name);
    var tail := [line] + rest;
    assert ExperimentName(tail) == Strip(name);
    assert lines[1..] == [""] + tail;
    assert ExperimentName([""] + tail) == ExperimentName(tail);
    assert lines[0] == "# Timeseries Data";
  }

  lemma NoMarker(line: string)
    requires Free(line, '*')
    ensures MarkerMatch(line) == None
  {
    forall k: nat | k + |Marker| <= |line|
      ensures !OccursAt(line, Marker, k)
    {
      assert line[k..k + |Marker|][0] == line[k] != Marker[0];
    }
  }

  /** What the parser reads from the cell `Fmt(series, idx)`: nothing for a
      dash, otherwise the value rounded as the writer printed it. */
  function WrittenCell(series: seq<Option<real>>, idx: nat): Cell
  {
    if idx < |series| && series[idx].Some? then
      Number(Rounded(series[idx].value, Decimals(series[idx].value)))
    else Missing
  }

  /** The values of the first n rows of a series as the file holds them:
      present ones rounded to the printed precision, absent ones dropped. */
  function WrittenValues(series: seq<Option<real>>, n: nat): seq<Cell>
  {
    if n == 0 then []
    else
      var v := n - 1;
      WrittenValues(series, v)
      + (if v < |series| && series[v].Some? then [Number(Rounded(series[v].value, Decimals(series[v].value)))] else [])
  }

  lemma ReadWrittenCell(series: seq<Option<real>>, idx: nat)
    ensures ReadCell(Fmt(series, idx)) == WrittenCell(series, idx)
  {
    if idx < |series| && series[idx].Some? {
      var v := series[idx].value;
      ParseFixedText(v, Decimals(v));
    }
  }

  /** Dropping the dashes of a written column leaves the written values. */
  lemma {:induction false} PresentColumn(m: Metrics, j: nat, n: nat)
    requires j < |SeriesKeys|
    ensures Present(WrittenColumn(m, j + 1, n)) == WrittenValues(Get(m, SeriesKeys[j]), n)
  {
    if n > 0 {
      var c := WrittenColumn(m, j + 1, n);
      assert c[..n - 1] == WrittenColumn(m, j + 1, n - 1);
      PresentColumn(m, j, n - 1);
      ReadWrittenCell(Get(m, SeriesKeys[j]), n - 1);
    }
  }

  predicate DistinctKeys(columns: seq<Column>)
  {
    forall i, j :: 0 <= i < j < |columns| ==> columns[i].key != columns[j].key
  }

  /** Each output series is read from its own column's title. */
  lemma {:induction false} OutputsAt(t: Table, columns: seq<Column>, i: nat)
    requires i < |columns| && DistinctKeys(columns)
    ensures Outputs(t, columns)[columns[i].key] == Present(Lookup(t, columns[i].title))
  {
    var front := columns[..|columns| - 1];
    if i < |columns| - 1 {
      assert columns[i] == front[i];
      OutputsAt(t, front, i);
    }
  }

  /** The table the parser builds from the rows of a written file. */
  function ReadBack(m: Metrics): Table
  {
    ReadRows(RowLines(m, RowCount(m)) + ["", ""], Headers, EmptyTable(Headers))
  }

  lemma ReadBackHolds(m: Metrics)
    ensures Holds(ReadBack(m), Headers, m, RowCount(m))
  {
    HeadersDistinct();
    EmptyHolds(Headers, m);
    assert RowLines(m, RowCount(m))[0..] == RowLines(m, RowCount(m));
    ReadWrittenRows(m, RowCount(m), 0, Headers, EmptyTable(Headers));
  }

  lemma TitlesRead()
    ensures Cells(PipeRow(Headers)) == Headers
  {
    HeadersClean();
    CellsOfPipeRow(Headers);
  }

  /** The parser on a text whose lines, title line and rows are known. */
  lemma ParseShape(content: string, columns: seq<Column>, lines: seq<string>, p: nat, hs: seq<string>, rows: seq<string>, e: string)
    requires Split(content, '\n') == lines && HeaderIndex(lines, 0) == Some(p)
    requires Cells(lines[p]) == hs && hs != []
    requires p + 2 <= |lines| && lines[p + 2..] == rows
    requires ExperimentName(lines) == e
    ensures var t := ReadRows(rows, hs, EmptyTable(hs));
      ParseWith(content, columns) ==
        if MaxLength(t, hs) == 0 then Err(ValueError("max() arg is an empty sequence"))
        else Ok(Parsed(e, Indices(MaxLength(t, hs)), Outputs(t, columns)))
  {
    var rs := if p + 2 <= |lines| then lines[p + 2..] else [];
    assert rs == rows;
  }

  /** Parsing a freshly written file: the experiment name, one timestamp
      per row and the columns the rows hold; a file with no rows is
      rejected as the parser's `max()` over empty columns. */
  lemma ParsedFile(name: string, runLabel: string, m: Metrics, generated: string, columns: seq<Column>)
    requires name != [] && Free(name, '\n') && Free(runLabel, '\n') && Free(generated, '\n')
    ensures ParseWith(Terminated(FileLines(name, runLabel, m, generated)), columns) ==
      if RowCount(m) == 0 then Err(ValueError("max() arg is an empty sequence"))
      else Ok(Parsed(Strip(name), Indices(RowCount(m)), Outputs(ReadBack(m), columns)))
  {
    var lines := FileLines(name, runLabel, m, generated) + [""];
    FileSplit(name, runLabel, m, generated);
    FileHeaderIndex(name, runLabel, m, generated);
    TitlesRead();
    ReadBackHolds(m);
    HoldsLength(ReadBack(m), Headers, m, RowCount(m));
    FileNameLine(name, runLabel, m, generated);
    ParseShape(Terminated(FileLines(name, runLabel, m, generated)), columns, lines,
      |Preamble(name, runLabel, generated, true)|, Headers, RowLines(m, RowCount(m)) + ["", ""], Strip(name));
  }

  lemma FileNameLine(name: string, runLabel: string, m: Metrics, generated: string)
    requires name != []
    ensures ExperimentName(FileLines(name, runLabel, m, generated) + [""]) == Strip(name)
  {
    var pre := Preamble(name, runLabel, generated, true);
    var tail := TableLines(m) + [""];
    assert FileLines(name, runLabel, m, generated) + [""] == pre + tail;
    PreambleName(name, runLabel, generated, tail);
  }

  lemma PreambleName(name: string, runLabel: string, generated: string, tail: seq<string>)
    requires name != []
    ensures ExperimentName(Preamble(name, runLabel, generated, true) + tail) == Strip(name)
  {
    var pre := Preamble(name, runLabel, generated, true);
    assert pre + tail == ["# Timeseries Data", "", "**Experiment:** " + name] + (pre[3..] + tail);
    FileExperimentName(name, pre[3..] + tail);
  }

  /** Reading a freshly written file back through `columns`: a column
      whose title the writer never emits reads back empty. */
  lemma FileColumnAbsent(name: string, runLabel: string, m: Metrics, generated: string, columns: seq<Column>, i: nat)
    requires WritableLabels(name, runLabel, generated) && RowCount(m) > 0
    requires DistinctKeys(columns) && i < |columns| && columns[i].title !in Headers
    ensures var r := ParseWith(Terminated(FileLines(name, runLabel, m, generated)), columns);
      r.Ok? && columns[i].key in r.value.series && r.value.series[columns[i].key] == []
  {
    ParsedFile(name, runLabel, m, generated, columns);
    ReadBackAbsent(m, columns, i);
  }

  /** A column whose title the writer never emits reads back empty. */
  lemma ReadBackAbsent(m: Metrics, columns: seq<Column>, i: nat)
    requires DistinctKeys(columns) && i < |columns| && columns[i].title !in Headers
    ensures Outputs(ReadBack(m), columns)[columns[i].key] == []
  {
    ReadBackHolds(m);
    ColumnsAbsent(ReadBack(m), Headers, m, RowCount(m), columns);
  }

  lemma ColumnsAbsent(t: Table, hs: seq<string>, m: Metrics, n: nat, columns: seq<Column>)
    requires |hs| == |Headers| && Holds(t, hs, m, n) && DistinctKeys(columns)
    ensures forall i :: 0 <= i < |columns| && columns[i].title !in hs ==> Outputs(t, columns)[columns[i].key] == []
  {
    forall i | 0 <= i < |columns| && columns[i].title !in hs
      ensures Outputs(t, columns)[columns[i].key] == []
    {
      OutputsAt(t, columns, i);
    }
  }

  /** The hypotheses every round-trip statement shares: a non-empty
      experiment name and single-line labels. */
  predicate WritableLabels(name: string, runLabel: string, generated: string)
  {
    name != [] && Free(name, '\n') && Free(runLabel, '\n') && Free(generated, '\n')
  }

  lemma CorrectedKeysDistinct()
    ensures DistinctKeys(CorrectedColumns)
  {
  }

  lemma AsWrittenKeysDistinct()
    ensures DistinctKeys(AsWrittenColumns)
  {
  }

  lemma QueueTitleAbsent()
    ensures AsWrittenColumns[7].key == "queue_wait_ms" && AsWrittenColumns[7].title !in Headers
  {
  }

  /** `series` holds exactly `values` under `key`. */
  predicate SeriesIs(series: map<string, seq<Cell>>, key: string, values: seq<Cell>)
  {
    key in series && series[key] == values
  }

  /** The metric the writer prints for a parser output key: the parser
      calls the latency series "latencies". */
  function WriterKey(key: string): string
  {
    if key == "latencies" then "latency_ms" else key
  }

  /** Where each corrected column's title sits in the written table. */
  const CorrectedTitleIndex: seq<nat> := [1, 2, 3, 4, 5, 6, 7, 8, 14]

  lemma CorrectedTitles()
    ensures |CorrectedTitleIndex| == |CorrectedColumns|
    ensures forall i :: 0 <= i < |CorrectedColumns| ==>
      1 <= CorrectedTitleIndex[i] < |Headers| &&
      CorrectedColumns[i].title == Headers[CorrectedTitleIndex[i]] &&
      SeriesKeys[CorrectedTitleIndex[i] - 1] == WriterKey(CorrectedColumns[i].key)
  {
  }

  /** Everything a parser reading through `columns` gets back from a
      written file: the experiment name, a timestamp per row and each of
      its series as the writer printed it. */
  predicate ReadsBack(r: Result<Parsed>, name: string, m: Metrics, columns: seq<Column>)
  {
    r.Ok? && r.value.experimentName == Strip(name) && r.value.timestamps == Indices(RowCount(m)) &&
    forall i :: 0 <= i < |columns| ==>
      SeriesIs(r.value.series, columns[i].key, WrittenValues(Get(m, WriterKey(columns[i].key)), RowCount(m)))
  }

  /** The parser with the corrected titles reads a freshly written file
      back completely. */
  lemma CorrectedRoundTrip(name: string, runLabel: string, m: Metrics, generated: string)
    requires WritableLabels(name, runLabel, generated) && RowCount(m) > 0
    ensures ReadsBack(ParseTimeseriesCorrected(Terminated(FileLines(name, runLabel, m, generated))), name, m, CorrectedColumns)
  {
    CorrectedKeysDistinct();
    CorrectedTitles();
    ColumnsRoundTrip(name, runLabel, m, generated, CorrectedColumns, CorrectedTitleIndex);
  }

  /** Reading a freshly written file through columns whose titles all sit
      in the table, at the positions `at`. */
  lemma ColumnsRoundTrip(name: string, runLabel: string, m: Metrics, generated: string, columns: seq<Column>, at: seq<nat>)
    requires WritableLabels(name, runLabel, generated) && RowCount(m) > 0
    requires DistinctKeys(columns) && |at| == |columns|
    requires forall i :: 0 <= i < |columns| ==>
      1 <= at[i] < |Headers| && columns[i].title == Headers[at[i]] &&
      SeriesKeys[at[i] - 1] == WriterKey(columns[i].key)
    ensures ReadsBack(ParseWith(Terminated(FileLines(name, runLabel, m, generated)), columns), name, m, columns)
  {
    ParsedFile(name, runLabel, m, generated, columns);
    ReadBackHolds(m);
    ColumnsAt(ReadBack(m), Headers, m, RowCount(m), columns, at);
  }

  lemma ColumnsAt(t: Table, hs: seq<string>, m: Metrics, n: nat, columns: seq<Column>, at: seq<nat>)
    requires |hs| == |Headers| && Holds(t, hs, m, n)
    requires DistinctKeys(columns) && |at| == |columns|
    requires forall i :: 0 <= i < |columns| ==>
      1 <= at[i] < |hs| && columns[i].title == hs[at[i]] &&
      SeriesKeys[at[i] - 1] == WriterKey(columns[i].key)
    ensures forall i :: 0 <= i < |columns| ==>
      SeriesIs(Outputs(t, columns), columns[i].key, WrittenValues(Get(m, WriterKey(columns[i].key)), n))
  {
    forall i | 0 <= i < |columns|
      ensures Lookup(t, columns[i].title) == WrittenColumn(m, at[i], n)
    {
      assert columns[i].title == hs[at[i]];
    }
    ColumnsRead(t, m, n, columns, at);
  }

  /** Every column read through the title found at its position. */
  lemma ColumnsRead(t: Table, m: Metrics, n: nat, columns: seq<Column>, at: seq<nat>)
    requires DistinctKeys(columns) && |at| == |columns|
    requires forall i :: 0 <= i < |columns| ==>
      1 <= at[i] < |Headers| && SeriesKeys[at[i] - 1] == WriterKey(columns[i].key) &&
      Lookup(t, columns[i].title) == WrittenColumn(m, at[i], n)
    ensures forall i :: 0 <= i < |columns| ==>
      SeriesIs(Outputs(t, columns), columns[i].key, WrittenValues(Get(m, WriterKey(columns[i].key)), n))
  {
    forall i | 0 <= i < |columns|
      ensures SeriesIs(Outputs(t, columns), columns[i].key, WrittenValues(Get(m, WriterKey(columns[i].key)), n))
    {
      OutputsAt(t, columns, i);
      PresentColumn(m, at[i] - 1, n);
    }
  }

  /** As written, the parser looks for a "Queue (ms)" column, which the
      writer never emits, so the queue wait always reads back empty. */
  lemma AsWrittenQueueWaitEmpty(name: string, runLabel: string, m: Metrics, generated: string)
    requires WritableLabels(name, runLabel, generated) && RowCount(m) > 0
    ensures var r := ParseTimeseries(Terminated(FileLines(name, runLabel, m, generated)));
      r.Ok? && "queue_wait_ms" in r.value.series && r.value.series["queue_wait_ms"] == []
  {
    AsWrittenKeysDistinct();
    QueueTitleAbsent();
    FileColumnAbsent(name, runLabel, m, generated, AsWrittenColumns, 7);
  }

  lemma {:induction false} WrittenValuesNonEmpty(series: seq<Option<real>>, n: nat, idx: nat)
    requires idx < n && idx < |series| && series[idx].Some?
    ensures WrittenValues(series, n) != []
  {
    if idx < n - 1 {
      WrittenValuesNonEmpty(series, n - 1, idx);
    }
  }

  /** A file with any recorded queue wait in its rows shows the discrepancy:
      the parser as written loses what the corrected one reads back. */
  lemma QueueWaitLost(name: string, runLabel: string, m: Metrics, generated: string, idx: nat)
    requires WritableLabels(name, runLabel, generated)
    requires idx < RowCount(m) && idx < |Get(m, "queue_wait_ms")| && Get(m, "queue_wait_ms")[idx].Some?
    ensures var content := Terminated(FileLines(name, runLabel, m, generated));
      ParseTimeseries(content).Ok? && ParseTimeseriesCorrected(content).Ok? &&
      "queue_wait_ms" in ParseTimeseries(content).value.series &&
      "queue_wait_ms" in ParseTimeseriesCorrected(content).value.series &&
      ParseTimeseries(content).value.series["queue_wait_ms"] == [] &&
      ParseTimeseriesCorrected(content).value.series["queue_wait_ms"] != []
  {
    AsWrittenQueueWaitEmpty(name, runLabel, m, generated);
    CorrectedRoundTrip(name, runLabel, m, generated);
    assert CorrectedColumns[7].key == "queue_wait_ms" && WriterKey("queue_wait_ms") == "queue_wait_ms";
    WrittenValuesNonEmpty(Get(m, "queue_wait_ms"), RowCount(m), idx);
  }
}
