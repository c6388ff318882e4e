/** testWarmupReported: a benchmark with warmup samples adds a warmup column,
    showing the total warmup time, blank for the benchmark without them. */
module WarmupTable {
  import opened Decimals
  import opened Statistics
  import opened Layout
  import opened Reporter
  import opened TestComparison
  import opened TableFacts
  import opened PlainTable

  const FastWarm := BenchmarkResult("fast", "MySuite", DefaultSettings, [1000, 2000], [10, 20, 30], map[])

  const WarmupColumns: seq<Column> := Mandatory + [Warmup]

  lemma WarmupEnumerated()
    ensures EnumeratesCounters([], [FastWarm, Slow])
  {
    NoCounters([FastWarm, Slow]);
  }

  lemma WarmupColumnsOf()
    ensures Columns([FastWarm, Slow], []) == WarmupColumns
  {
    assert HasWarmup([FastWarm, Slow]) by {
      assert [FastWarm, Slow][0].warmupMeasurements != [];
    }
  }

  lemma WarmupCells()
    ensures Cell(Standard, FastWarm, Warmup) == "60.0 ns"
    ensures Cell(Standard, Slow, Warmup) == ""
  {
    SumOfThree(10, 20, 30);
    assert Format(Decimal(60, 0)) == "60.0";
  }

  lemma FastWarmRow()
    ensures Row(Standard, FastWarm, WarmupColumns) == ["MySuite.fast", "1500.0 ns", "±  47.14 %", "2", "60.0 ns"]
  {
    MandatorySame(Standard, FastWarm, Fast);
    FastCells();
    WarmupCells();
    MandatoryRowAnd(Standard, FastWarm, Warmup, ["MySuite.fast", "1500.0 ns", "±  47.14 %", "2", "60.0 ns"]);
  }

  lemma SlowWarmRow()
    ensures Row(Standard, Slow, WarmupColumns) == ["MySuite.slow", "1500000.0 ns", "±  47.14 %", "2", ""]
  {
    SlowCells();
    WarmupCells();
    MandatoryRowAnd(Standard, Slow, Warmup, ["MySuite.slow", "1500000.0 ns", "±  47.14 %", "2", ""]);
  }

  const WarmupGrid := Grid(
    MandatoryLabels + ["warmup"],
    MandatoryAligns + [Right],
    [["MySuite.fast", "1500.0 ns", "±  47.14 %", "2", "60.0 ns"],
     ["MySuite.slow", "1500000.0 ns", "±  47.14 %", "2", ""]])

  lemma WarmupGridWellFormed()
    ensures WarmupGrid.WellFormed() && |WarmupGrid.labels| == 5 && |WarmupGrid.rows| == 2
  {
  }

  lemma WarmupGridIsTable()
    ensures Table(Standard, [FastWarm, Slow], []) == WarmupGrid
  {
    WarmupGridWellFormed();
    WarmupColumnsOf();
    FastWarmRow();
    SlowWarmRow();
    MandatoryHeadings();
    TableIs(Standard, [FastWarm, Slow], [], WarmupColumns, WarmupGrid);
  }

  lemma WarmupGridWidths()
    ensures WarmupGrid.Widths() == [12, 12, 10, 10, 7]
  {
    WarmupGridWellFormed();
    var g := WarmupGrid;
    assert g.Column(0) == ["MySuite.fast", "MySuite.slow"];
    ColumnWidth2("name", "MySuite.fast", "MySuite.slow");
    assert g.Column(1) == ["1500.0 ns", "1500000.0 ns"];
    ColumnWidth2("time", "1500.0 ns", "1500000.0 ns");
    assert g.Column(2) == ["±  47.14 %", "±  47.14 %"];
    ColumnWidth2("std", "±  47.14 %", "±  47.14 %");
    assert g.Column(3) == ["2", "2"];
    ColumnWidth2("iterations", "2", "2");
    assert g.Column(4) == ["60.0 ns", ""];
    ColumnWidth2("warmup", "60.0 ns", "");
  }

  lemma WarmupPadding()
    ensures PadRight("warmup", 7) == "warmup "
    ensures PadLeft("60.0 ns", 7) == "60.0 ns"
    ensures PadLeft("", 7) == "       "
  {
  }

  lemma WarmupHeaderCells()
    ensures WarmupGrid.HeaderCells() == ["name        ", "time        ", "std       ", "iterations", "warmup "]
  {
    WarmupGridWellFormed();
    WarmupGridWidths();
    HeaderPadding();
    WarmupPadding();
    PaddedLabels5(WarmupGrid, [12, 12, 10, 10, 7], ["name", "time", "std", "iterations", "warmup"],
      "name        ", "time        ", "std       ", "iterations", "warmup ");
  }

  lemma WarmupHeaderText()
    ensures Join(["name        ", "time        ", "std       ", "iterations", "warmup "]) == "name         time         std        iterations warmup "
  {
    JoinSteps5("name        ", "time        ", "std       ", "iterations", "warmup ",
      "name         time        ", "name         time         std       ", "name         time         std        iterations",
      "name         time         std        iterations warmup ");
  }

  lemma WarmupHeader()
    ensures WarmupGrid.Header() == "name         time         std        iterations warmup "
  {
    WarmupGridWellFormed();
    WarmupHeaderCells();
    WarmupHeaderText();
    HeaderIs(WarmupGrid, ["name        ", "time        ", "std       ", "iterations", "warmup "], "name         time         std        iterations warmup ");
  }

  lemma WarmupRule()
    ensures Dashes(55) == "-------------------------------------------------------"
  {
    DashesLiteral(5, 5);
    assert Dashes(5) == "-----";
    assert Repeat("----------", 1) == "----------";
    assert Repeat("----------", 2) == "--------------------";
    assert Repeat("----------", 3) == "------------------------------";
    assert Repeat("----------", 4) == "----------------------------------------";
    assert Repeat("----------", 5) == "--------------------------------------------------";
  }

  lemma WarmupSeparator()
    ensures WarmupGrid.Separator() == "-------------------------------------------------------"
  {
    WarmupGridWellFormed();
    WarmupGridWidths();
    var ws := [12, 12, 10, 10, 7];
    assert Start(ws, 1) == 13;
    assert Start(ws, 2) == 26;
    assert Start(ws, 3) == 37;
    assert Start(ws, 4) == 48;
    WarmupRule();
  }

  lemma WarmupFastCells()
    ensures WarmupGrid.RowCells(0) == ["MySuite.fast", "   1500.0 ns", "±  47.14 %", "         2", "60.0 ns"]
  {
    WarmupGridWellFormed();
    WarmupGridWidths();
    PlainPadding();
    WarmupPadding();
    PaddedRow5(WarmupGrid, 0, [12, 12, 10, 10, 7], ["MySuite.fast", "1500.0 ns", "±  47.14 %", "2", "60.0 ns"],
      "MySuite.fast", "   1500.0 ns", "±  47.14 %", "         2", "60.0 ns");
  }

  lemma WarmupSlowCells()
    ensures WarmupGrid.RowCells(1) == ["MySuite.slow", "1500000.0 ns", "±  47.14 %", "         2", "       "]
  {
    WarmupGridWellFormed();
    WarmupGridWidths();
    PlainPadding();
    WarmupPadding();
    PaddedRow5(WarmupGrid, 1, [12, 12, 10, 10, 7], ["MySuite.slow", "1500000.0 ns", "±  47.14 %", "2", ""],
      "MySuite.slow", "1500000.0 ns", "±  47.14 %", "         2", "       ");
  }

  lemma WarmupFastRowText()
    ensures Join(["MySuite.fast", "   1500.0 ns", "±  47.14 %", "         2", "60.0 ns"]) == "MySuite.fast    1500.0 ns ±  47.14 %          2 60.0 ns"
  {
    JoinSteps5("MySuite.fast", "   1500.0 ns", "±  47.14 %", "         2", "60.0 ns",
      "MySuite.fast    1500.0 ns", "MySuite.fast    1500.0 ns ±  47.14 %", "MySuite.fast    1500.0 ns ±  47.14 %          2",
      "MySuite.fast    1500.0 ns ±  47.14 %          2 60.0 ns");
  }

  lemma WarmupFastRow()
    ensures WarmupGrid.Row(0) == "MySuite.fast    1500.0 ns ±  47.14 %          2 60.0 ns"
  {
    WarmupGridWellFormed();
    WarmupFastCells();
    WarmupFastRowText();
    RowIs(WarmupGrid, 0, ["MySuite.fast", "   1500.0 ns", "±  47.14 %", "         2", "60.0 ns"], "MySuite.fast    1500.0 ns ±  47.14 %          2 60.0 ns");
  }

  lemma WarmupSlowRowText()
    ensures Join(["MySuite.slow", "1500000.0 ns", "±  47.14 %", "         2", "       "]) == "MySuite.slow 1500000.0 ns ±  47.14 %          2        "
  {
    JoinSteps5("MySuite.slow", "1500000.0 ns", "±  47.14 %", "         2", "       ",
      "MySuite.slow 1500000.0 ns", "MySuite.slow 1500000.0 ns ±  47.14 %", "MySuite.slow 1500000.0 ns ±  47.14 %          2",
      "MySuite.slow 1500000.0 ns ±  47.14 %          2        ");
  }

  lemma WarmupSlowRow()
    ensures WarmupGrid.Row(1) == "MySuite.slow 1500000.0 ns ±  47.14 %          2        "
  {
    WarmupGridWellFormed();
    WarmupSlowCells();
    WarmupSlowRowText();
    RowIs(WarmupGrid, 1, ["MySuite.slow", "1500000.0 ns", "±  47.14 %", "         2", "       "], "MySuite.slow 1500000.0 ns ±  47.14 %          2        ");
  }

  /** What the reporter writes: the header ends in the padding of the warmup
      label, the row without warmup samples in a blank cell. */
  const WarmupOutput: seq<string> := [
    "name         time         std        iterations warmup ",
    "-------------------------------------------------------",
    "MySuite.fast    1500.0 ns ±  47.14 %          2 60.0 ns",
    "MySuite.slow 1500000.0 ns ±  47.14 %          2        "]

  lemma WarmupGridLines()
    ensures WarmupGrid.Lines() == WarmupOutput
  {
    WarmupGridWellFormed();
    WarmupHeader();
    WarmupSeparator();
    WarmupFastRow();
    WarmupSlowRow();
    LinesOf2(WarmupGrid, "name         time         std        iterations warmup ",
      "-------------------------------------------------------",
      "MySuite.fast    1500.0 ns ±  47.14 %          2 60.0 ns",
      "MySuite.slow 1500000.0 ns ±  47.14 %          2        ");
  }

  const WarmupExpected: seq<string> := [
    "name         time         std        iterations warmup",
    "-------------------------------------------------------",
    "MySuite.fast    1500.0 ns ±  47.14 %          2 60.0 ns",
    "MySuite.slow 1500000.0 ns ±  47.14 %          2"]

  /** The padding of the last label is trimmed away. */
  lemma WarmupHeaderBare()
    ensures Join(["name        ", "time        ", "std       ", "iterations", "warmup"]) == "name         time         std        iterations warmup"
  {
    JoinSteps5("name        ", "time        ", "std       ", "iterations", "warmup",
      "name         time        ", "name         time         std       ", "name         time         std        iterations",
      "name         time         std        iterations warmup");
  }

  lemma WarmupHeaderTrimmed()
    ensures Trim("name         time         std        iterations warmup ") == "name         time         std        iterations warmup"
  {
    var cells := ["name        ", "time        ", "std       ", "iterations", "warmup "];
    assert cells[4] == "warmup" + Spaces(1);
    TrimJoinPadded(cells, "warmup", 1);
    WarmupHeaderText();
    assert cells[..4] + ["warmup"] == ["name        ", "time        ", "std       ", "iterations", "warmup"];
    WarmupHeaderBare();
  }

  lemma WarmupRuleTrimmed()
    ensures Trim("-------------------------------------------------------") == "-------------------------------------------------------"
  {
    WarmupRule();
    TrimDashes(55);
  }

  lemma WarmupFastRowTrimmed()
    ensures Trim("MySuite.fast    1500.0 ns ±  47.14 %          2 60.0 ns") == "MySuite.fast    1500.0 ns ±  47.14 %          2 60.0 ns"
  {
    WarmupFastRowText();
    TrimJoin(["MySuite.fast", "   1500.0 ns", "±  47.14 %", "         2", "60.0 ns"]);
  }

  /** The blank warmup cell is trimmed away. */
  lemma WarmupSlowRowTrimmed()
    ensures Trim("MySuite.slow 1500000.0 ns ±  47.14 %          2        ") == "MySuite.slow 1500000.0 ns ±  47.14 %          2"
  {
    var cells := ["MySuite.slow", "1500000.0 ns", "±  47.14 %", "         2", "       "];
    assert "       " == Spaces(7);
    TrimJoinBlank(cells, 7);
    WarmupSlowRowText();
    assert cells[..4] == ["MySuite.slow", "1500000.0 ns", "±  47.14 %", "         2"];
    PlainSlowRowText();
  }

  lemma WarmupReportLines()
    ensures ReportLines(Standard, [FastWarm, Slow], []) == WarmupOutput
  {
    WarmupGridIsTable();
    WarmupGridLines();
  }

  lemma WarmupNormalized()
    ensures Normalized(WarmupOutput) == WarmupExpected
    ensures PrintedAs(WarmupOutput, WarmupExpected)
  {
    WarmupHeaderTrimmed();
    WarmupRuleTrimmed();
    WarmupFastRowTrimmed();
    WarmupSlowRowTrimmed();
    NormalizedOf4("name         time         std        iterations warmup ",
      "-------------------------------------------------------",
      "MySuite.fast    1500.0 ns ±  47.14 %          2 60.0 ns",
      "MySuite.slow 1500000.0 ns ±  47.14 %          2        ",
      "name         time         std        iterations warmup",
      "-------------------------------------------------------",
      "MySuite.fast    1500.0 ns ±  47.14 %          2 60.0 ns",
      "MySuite.slow 1500000.0 ns ±  47.14 %          2");
  }

  /** The warmup column is added, and the comparison sees exactly the
      expected lines, and accepts them. */
  lemma WarmupReported()
    ensures EnumeratesCounters([], [FastWarm, Slow])
    ensures Normalized(ReportLines(Standard, [FastWarm, Slow], [])) == WarmupExpected
    ensures PrintedAs(ReportLines(Standard, [FastWarm, Slow], []), WarmupExpected)
  {
    WarmupEnumerated();
    WarmupReportLines();
    WarmupNormalized();
  }

  /** testWarmupReported passes. */
  method TestWarmupReported() returns (passed: bool)
    ensures passed
  {
    WarmupReported();
    passed := AssertIsPrintedAs(Standard, [FastWarm, Slow], [], WarmupExpected);
  }
}
