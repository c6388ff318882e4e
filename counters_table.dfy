/** testCountersAreReported: a counter of one benchmark gets a column of its
    own, blank for the benchmark without it. */
module CountersTable {
  import opened Decimals
  import opened Statistics
  import opened Layout
  import opened Reporter
  import opened TestComparison
  import opened TableFacts
  import opened PlainTable

  const FastFoo := BenchmarkResult("fast", "MySuite", DefaultSettings, [1000, 2000], [], map["foo" := Decimal(7, 0)])

  const CounterColumns: seq<Column> := Mandatory + [Counter("foo")]

  lemma CountersEnumerated()
    ensures EnumeratesCounters(["foo"], [FastFoo, Slow])
  {
    var rs := [FastFoo, Slow];
    assert "foo" in rs[0].counters;
    assert CounterNames(rs) == {"foo"};
    SingleOrder("foo");
  }

  lemma CountersColumns()
    ensures Columns([FastFoo, Slow], ["foo"]) == CounterColumns
  {
    assert !HasWarmup([FastFoo, Slow]);
  }

  lemma FooCells()
    ensures Cell(Standard, FastFoo, Counter("foo")) == "7.0"
    ensures Cell(Standard, Slow, Counter("foo")) == ""
  {
    assert Format(Decimal(7, 0)) == "7.0";
  }

  lemma FastFooRow()
    ensures Row(Standard, FastFoo, CounterColumns) == ["MySuite.fast", "1500.0 ns", "±  47.14 %", "2", "7.0"]
  {
    MandatorySame(Standard, FastFoo, Fast);
    FastCells();
    FooCells();
    MandatoryRowAnd(Standard, FastFoo, Counter("foo"), ["MySuite.fast", "1500.0 ns", "±  47.14 %", "2", "7.0"]);
  }

  lemma SlowFooRow()
    ensures Row(Standard, Slow, CounterColumns) == ["MySuite.slow", "1500000.0 ns", "±  47.14 %", "2", ""]
  {
    SlowCells();
    FooCells();
    MandatoryRowAnd(Standard, Slow, Counter("foo"), ["MySuite.slow", "1500000.0 ns", "±  47.14 %", "2", ""]);
  }

  const CountersGrid := Grid(
    MandatoryLabels + ["foo"],
    MandatoryAligns + [Right],
    [["MySuite.fast", "1500.0 ns", "±  47.14 %", "2", "7.0"],
     ["MySuite.slow", "1500000.0 ns", "±  47.14 %", "2", ""]])

  lemma CountersGridIsTable()
    ensures Table(Standard, [FastFoo, Slow], ["foo"]) == CountersGrid
  {
    CountersGridWellFormed();
    CountersColumns();
    FastFooRow();
    SlowFooRow();
    MandatoryHeadings();
    TableIs(Standard, [FastFoo, Slow], ["foo"], CounterColumns, CountersGrid);
  }

  lemma CountersGridWellFormed()
    ensures CountersGrid.WellFormed() && |CountersGrid.labels| == 5 && |CountersGrid.rows| == 2
  {
  }

  lemma CountersGridWidths()
    ensures CountersGrid.Widths() == [12, 12, 10, 10, 3]
  {
    CountersGridWellFormed();
    var g := CountersGrid;
    assert g.Column(0) == ["MySuite.fast", "MySuite.slow"];
    ColumnWidth2("name", "MySuite.fast", "MySuite.slow");
    assert g.Column(1) == ["1500.0 ns", "1500000.0 ns"];
    ColumnWidth2("time", "1500.0 ns", "1500000.0 ns");
    assert g.Column(2) == ["±  47.14 %", "±  47.14 %"];
    ColumnWidth2("std", "±  47.14 %", "±  47.14 %");
    assert g.Column(3) == ["2", "2"];
    ColumnWidth2("iterations", "2", "2");
    assert g.Column(4) == ["7.0", ""];
    ColumnWidth2("foo", "7.0", "");
  }

  lemma CountersHeaderCells()
    ensures CountersGrid.HeaderCells() == ["name        ", "time        ", "std       ", "iterations", "foo"]
  {
    CountersGridWellFormed();
    CountersGridWidths();
    HeaderPadding();
    assert PadRight("foo", 3) == "foo";
    PaddedLabels5(CountersGrid, [12, 12, 10, 10, 3], ["name", "time", "std", "iterations", "foo"],
      "name        ", "time        ", "std       ", "iterations", "foo");
  }

  lemma CountersHeaderText()
    ensures Join(["name        ", "time        ", "std       ", "iterations", "foo"]) == "name         time         std        iterations foo"
  {
    JoinSteps5("name        ", "time        ", "std       ", "iterations", "foo",
      "name         time        ", "name         time         std       ", "name         time         std        iterations",
      "name         time         std        iterations foo");
  }

  lemma CountersHeader()
    ensures CountersGrid.Header() == "name         time         std        iterations foo"
  {
    CountersGridWellFormed();
    CountersHeaderCells();
    CountersHeaderText();
    HeaderIs(CountersGrid, ["name        ", "time        ", "std       ", "iterations", "foo"], "name         time         std        iterations foo");
  }

  lemma CountersRule()
    ensures Dashes(51) == "---------------------------------------------------"
  {
    DashesLiteral(5, 1);
    assert Dashes(1) == "-";
  }

  lemma CountersSeparator()
    ensures CountersGrid.Separator() == "---------------------------------------------------"
  {
    CountersGridWellFormed();
    CountersGridWidths();
    var ws := [12, 12, 10, 10, 3];
    assert Start(ws, 1) == 13;
    assert Start(ws, 2) == 26;
    assert Start(ws, 3) == 37;
    assert Start(ws, 4) == 48;
    CountersRule();
  }

  lemma FooPadding()
    ensures PadLeft("7.0", 3) == "7.0"
    ensures PadLeft("", 3) == "   "
  {
  }

  lemma CountersFastCells()
    ensures CountersGrid.RowCells(0) == ["MySuite.fast", "   1500.0 ns", "±  47.14 %", "         2", "7.0"]
  {
    CountersGridWellFormed();
    CountersGridWidths();
    PlainPadding();
    FooPadding();
    PaddedRow5(CountersGrid, 0, [12, 12, 10, 10, 3], ["MySuite.fast", "1500.0 ns", "±  47.14 %", "2", "7.0"],
      "MySuite.fast", "   1500.0 ns", "±  47.14 %", "         2", "7.0");
  }

  lemma CountersSlowCells()
    ensures CountersGrid.RowCells(1) == ["MySuite.slow", "1500000.0 ns", "±  47.14 %", "         2", "   "]
  {
    CountersGridWellFormed();
    CountersGridWidths();
    PlainPadding();
    FooPadding();
    PaddedRow5(CountersGrid, 1, [12, 12, 10, 10, 3], ["MySuite.slow", "1500000.0 ns", "±  47.14 %", "2", ""],
      "MySuite.slow", "1500000.0 ns", "±  47.14 %", "         2", "   ");
  }

  lemma CountersFastRowText()
    ensures Join(["MySuite.fast", "   1500.0 ns", "±  47.14 %", "         2", "7.0"]) == "MySuite.fast    1500.0 ns ±  47.14 %          2 7.0"
  {
    JoinSteps5("MySuite.fast", "   1500.0 ns", "±  47.14 %", "         2", "7.0",
      "MySuite.fast    1500.0 ns", "MySuite.fast    1500.0 ns ±  47.14 %", "MySuite.fast    1500.0 ns ±  47.14 %          2",
      "MySuite.fast    1500.0 ns ±  47.14 %          2 7.0");
  }

  lemma CountersFastRow()
    ensures CountersGrid.Row(0) == "MySuite.fast    1500.0 ns ±  47.14 %          2 7.0"
  {
    CountersGridWellFormed();
    CountersFastCells();
    CountersFastRowText();
    RowIs(CountersGrid, 0, ["MySuite.fast", "   1500.0 ns", "±  47.14 %", "         2", "7.0"], "MySuite.fast    1500.0 ns ±  47.14 %          2 7.0");
  }

  lemma CountersSlowRowText()
    ensures Join(["MySuite.slow", "1500000.0 ns", "±  47.14 %", "         2", "   "]) == "MySuite.slow 1500000.0 ns ±  47.14 %          2    "
  {
    JoinSteps5("MySuite.slow", "1500000.0 ns", "±  47.14 %", "         2", "   ",
      "MySuite.slow 1500000.0 ns", "MySuite.slow 1500000.0 ns ±  47.14 %", "MySuite.slow 1500000.0 ns ±  47.14 %          2",
      "MySuite.slow 1500000.0 ns ±  47.14 %          2    ");
  }

  lemma CountersSlowRow()
    ensures CountersGrid.Row(1) == "MySuite.slow 1500000.0 ns ±  47.14 %          2    "
  {
    CountersGridWellFormed();
    CountersSlowCells();
    CountersSlowRowText();
    RowIs(CountersGrid, 1, ["MySuite.slow", "1500000.0 ns", "±  47.14 %", "         2", "   "], "MySuite.slow 1500000.0 ns ±  47.14 %          2    ");
  }

  /** What the reporter writes: every cell is padded, so the row without the
      counter ends in blanks. */
  const CountersOutput: seq<string> := [
    "name         time         std        iterations foo",
    "---------------------------------------------------",
    "MySuite.fast    1500.0 ns ±  47.14 %          2 7.0",
    "MySuite.slow 1500000.0 ns ±  47.14 %          2    "]

  lemma CountersGridLines()
    ensures CountersGrid.Lines() == CountersOutput
  {
    CountersGridWellFormed();
    CountersHeader();
    CountersSeparator();
    CountersFastRow();
    CountersSlowRow();
    LinesOf2(CountersGrid, "name         time         std        iterations foo",
      "---------------------------------------------------",
      "MySuite.fast    1500.0 ns ±  47.14 %          2 7.0",
      "MySuite.slow 1500000.0 ns ±  47.14 %          2    ");
  }

  const CountersExpected: seq<string> := [
    "name         time         std        iterations foo",
    "---------------------------------------------------",
    "MySuite.fast    1500.0 ns ±  47.14 %          2 7.0",
    "MySuite.slow 1500000.0 ns ±  47.14 %          2"]

  /** The blank counter cell is trimmed away. */
  lemma CountersSlowRowTrimmed()
    ensures Trim("MySuite.slow 1500000.0 ns ±  47.14 %          2    ") == "MySuite.slow 1500000.0 ns ±  47.14 %          2"
  {
    var cells := ["MySuite.slow", "1500000.0 ns", "±  47.14 %", "         2", "   "];
    assert "   " == Spaces(3);
    TrimJoinBlank(cells, 3);
    CountersSlowRowText();
    assert cells[..4] == ["MySuite.slow", "1500000.0 ns", "±  47.14 %", "         2"];
    PlainSlowRowText();
  }

  lemma CountersHeaderTrimmed()
    ensures Trim("name         time         std        iterations foo") == "name         time         std        iterations foo"
  {
    CountersHeaderText();
    TrimJoin(["name        ", "time        ", "std       ", "iterations", "foo"]);
  }

  lemma CountersRuleTrimmed()
    ensures Trim("---------------------------------------------------") == "---------------------------------------------------"
  {
    CountersRule();
    TrimDashes(51);
  }

  lemma CountersFastRowTrimmed()
    ensures Trim("MySuite.fast    1500.0 ns ±  47.14 %          2 7.0") == "MySuite.fast    1500.0 ns ±  47.14 %          2 7.0"
  {
    CountersFastRowText();
    TrimJoin(["MySuite.fast", "   1500.0 ns", "±  47.14 %", "         2", "7.0"]);
  }

  lemma CountersReportLines()
    ensures ReportLines(Standard, [FastFoo, Slow], ["foo"]) == CountersOutput
  {
    CountersGridIsTable();
    CountersGridLines();
  }

  lemma CountersNormalized()
    ensures Normalized(CountersOutput) == CountersExpected
    ensures PrintedAs(CountersOutput, CountersExpected)
  {
    CountersHeaderTrimmed();
    CountersRuleTrimmed();
    CountersFastRowTrimmed();
    CountersSlowRowTrimmed();
    NormalizedOf4("name         time         std        iterations foo",
      "---------------------------------------------------",
      "MySuite.fast    1500.0 ns ±  47.14 %          2 7.0",
      "MySuite.slow 1500000.0 ns ±  47.14 %          2    ",
      "name         time         std        iterations foo",
      "---------------------------------------------------",
      "MySuite.fast    1500.0 ns ±  47.14 %          2 7.0",
      "MySuite.slow 1500000.0 ns ±  47.14 %          2");
  }

  /** The counter column is announced, and the comparison sees exactly the
      expected lines, and accepts them. */
  lemma CountersAreReported()
    ensures EnumeratesCounters(["foo"], [FastFoo, Slow])
    ensures Normalized(ReportLines(Standard, [FastFoo, Slow], ["foo"])) == CountersExpected
    ensures PrintedAs(ReportLines(Standard, [FastFoo, Slow], ["foo"]), CountersExpected)
  {
    CountersEnumerated();
    CountersReportLines();
    CountersNormalized();
  }

  /** testCountersAreReported passes. */
  method TestCountersAreReported() returns (passed: bool)
    ensures passed
  {
    CountersAreReported();
    passed := AssertIsPrintedAs(Standard, [FastFoo, Slow], ["foo"], CountersExpected);
  }
}
