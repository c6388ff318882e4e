/** testPlainTextReporter: two benchmarks without counters or warmup. */
module PlainTable {
  import opened Decimals
  import opened Statistics
  import opened Layout
  import opened Reporter
  import opened TestComparison
  import opened TableFacts

  /** A result of the suite "MySuite" with default settings and nothing but
      its samples. */
  function Result(benchmarkName: string, measurements: seq<nat>): BenchmarkResult
  {
    BenchmarkResult(benchmarkName, "MySuite", DefaultSettings, measurements, [], map[])
  }

  const Fast := Result("fast", [1000, 2000])
  const Slow := Result("slow", [1000000, 2000000])

  lemma FastStd()
    ensures RelativeStdHundredths([1000, 2000]) == 4714
  {
    var xs: seq<nat> := [1000, 2000];
    assert Sum(xs) == 3000 by {
      assert xs[..1] == [1000];
      assert Sum(xs[..1]) == 1000 by { assert xs[..1][..0] == []; }
    }
    assert SquaredDeviations(xs, 2, 3000) == 2000000 by {
      assert xs[..1] == [1000];
      assert xs[..1][..0] == [];
    }
    var num, den := 100000000 * 2000000, 1 * 3000 * 3000;
    assert IsRoundedSqrt(num, den, 4714);
    RoundedSqrtUnique(num, den, 4714, RelativeStdHundredths(xs));
  }

  lemma SlowStd()
    ensures RelativeStdHundredths([1000000, 2000000]) == 4714
  {
    assert Scaled(1000, [1000, 2000]) == [1000000, 2000000];
    RelativeStdScaleInvariant(1000, [1000, 2000]);
    FastStd();
  }

  lemma FastTime()
    ensures TimeValue(Standard, Fast) == Decimal(150000, 2)
    ensures Format(Decimal(150000, 2)) == "1500.0"
  {
    SumOfTwo(1000, 2000);
    assert Shift(150000, 2) == 1500;
    assert FixedDigits(150000, 2) == "00";
  }

  lemma SlowTime()
    ensures TimeValue(Standard, Slow) == Decimal(150000000, 2)
    ensures Format(Decimal(150000000, 2)) == "1500000.0"
  {
    SumOfTwo(1000000, 2000000);
    assert Shift(150000000, 2) == 1500000;
    assert FixedDigits(150000000, 2) == "00";
  }

  lemma FastNameCell()
    ensures Cell(Standard, Fast, Name) == "MySuite.fast"
  {
    NameCell(Standard, Fast);
  }

  lemma FastTimeCell()
    ensures Cell(Standard, Fast, Time) == "1500.0 ns"
  {
    FastTime();
    TimeCell(Standard, Fast, Decimal(150000, 2), "1500.0");
  }

  lemma FastStdCell()
    ensures Cell(Standard, Fast, Std) == "±  47.14 %"
  {
    FastStd();
    StdText4714();
    StdCell(Standard, Fast, 4714, "±  47.14 %");
  }

  lemma FastIterationsCell()
    ensures Cell(Standard, Fast, Iterations) == "2"
  {
    IterationsCell(Standard, Fast, "2");
  }

  lemma FastCells()
    ensures Row(Standard, Fast, Mandatory) == ["MySuite.fast", "1500.0 ns", "±  47.14 %", "2"]
  {
    FastNameCell();
    FastTimeCell();
    FastStdCell();
    FastIterationsCell();
    MandatoryRow(Standard, Fast, "MySuite.fast", "1500.0 ns", "±  47.14 %", "2");
  }

  lemma SlowNameCell()
    ensures Cell(Standard, Slow, Name) == "MySuite.slow"
  {
    NameCell(Standard, Slow);
  }

  lemma SlowTimeCell()
    ensures Cell(Standard, Slow, Time) == "1500000.0 ns"
  {
    SlowTime();
    TimeCell(Standard, Slow, Decimal(150000000, 2), "1500000.0");
  }

  lemma SlowStdCell()
    ensures Cell(Standard, Slow, Std) == "±  47.14 %"
  {
    SlowStd();
    StdText4714();
    StdCell(Standard, Slow, 4714, "±  47.14 %");
  }

  lemma SlowIterationsCell()
    ensures Cell(Standard, Slow, Iterations) == "2"
  {
    IterationsCell(Standard, Slow, "2");
  }

  lemma SlowCells()
    ensures Row(Standard, Slow, Mandatory) == ["MySuite.slow", "1500000.0 ns", "±  47.14 %", "2"]
  {
    SlowNameCell();
    SlowTimeCell();
    SlowStdCell();
    SlowIterationsCell();
    MandatoryRow(Standard, Slow, "MySuite.slow", "1500000.0 ns", "±  47.14 %", "2");
  }

  const PlainGrid := Grid(
    MandatoryLabels,
    MandatoryAligns,
    [["MySuite.fast", "1500.0 ns", "±  47.14 %", "2"],
     ["MySuite.slow", "1500000.0 ns", "±  47.14 %", "2"]])

  lemma PlainGridIsTable()
    ensures Table(Standard, [Fast, Slow], []) == PlainGrid
  {
    PlainGridWellFormed();
    var rs := [Fast, Slow];
    assert !HasWarmup(rs);
    ColumnsWithout(rs);
    FastCells();
    SlowCells();
    MandatoryHeadings();
    TableIs(Standard, rs, [], Mandatory, PlainGrid);
  }

  lemma PlainGridWellFormed()
    ensures PlainGrid.WellFormed() && |PlainGrid.labels| == 4 && |PlainGrid.rows| == 2
  {
  }

  lemma PlainGridWidths()
    ensures PlainGrid.Widths() == [12, 12, 10, 10]
  {
    PlainGridWellFormed();
    var g := PlainGrid;
    assert g.Column(0) == ["MySuite.fast", "MySuite.slow"];
    ColumnWidth2("name", "MySuite.fast", "MySuite.slow");
    assert g.Column(1) == ["1500.0 ns", "1500000.0 ns"];
    ColumnWidth2("time", "1500.0 ns", "1500000.0 ns");
    assert g.Column(2) == ["±  47.14 %", "±  47.14 %"];
    ColumnWidth2("std", "±  47.14 %", "±  47.14 %");
    assert g.Column(3) == ["2", "2"];
    ColumnWidth2("iterations", "2", "2");
  }

  lemma PlainHeaderCells()
    ensures PlainGrid.HeaderCells() == ["name        ", "time        ", "std       ", "iterations"]
  {
    PlainGridWellFormed();
    PlainGridWidths();
    HeaderPadding();
    PaddedLabels4(PlainGrid, [12, 12, 10, 10], MandatoryLabels, "name        ", "time        ", "std       ", "iterations");
  }

  lemma PlainHeaderText()
    ensures Join(["name        ", "time        ", "std       ", "iterations"]) == "name         time         std        iterations"
  {
    JoinSteps4("name        ", "time        ", "std       ", "iterations",
      "name         time        ", "name         time         std       ",
      "name         time         std        iterations");
  }

  lemma PlainHeader()
    ensures PlainGrid.Header() == "name         time         std        iterations"
  {
    PlainGridWellFormed();
    PlainHeaderCells();
    PlainHeaderText();
    HeaderIs(PlainGrid, ["name        ", "time        ", "std       ", "iterations"], "name         time         std        iterations");
  }

  lemma PlainRule()
    ensures Dashes(47) == "-----------------------------------------------"
  {
    DashesLiteral(4, 7);
    assert Dashes(7) == "-------";
  }

  lemma PlainSeparator()
    ensures PlainGrid.Separator() == "-----------------------------------------------"
  {
    PlainGridWellFormed();
    PlainGridWidths();
    var ws := [12, 12, 10, 10];
    assert Start(ws, 1) == 13;
    assert Start(ws, 2) == 26;
    assert Start(ws, 3) == 37;
    PlainRule();
  }

  lemma HeaderPadding()
    ensures PadRight("name", 12) == "name        "
    ensures PadRight("time", 12) == "time        "
    ensures PadRight("std", 10) == "std       "
    ensures PadRight("iterations", 10) == "iterations"
  {
  }

  lemma PlainPadding()
    ensures PadLeft("1500.0 ns", 12) == "   1500.0 ns"
    ensures PadLeft("1500000.0 ns", 12) == "1500000.0 ns"
    ensures PadLeft("±  47.14 %", 10) == "±  47.14 %"
    ensures PadLeft("2", 10) == "         2"
    ensures PadRight("MySuite.fast", 12) == "MySuite.fast"
    ensures PadRight("MySuite.slow", 12) == "MySuite.slow"
  {
  }

  lemma PlainFastCells()
    ensures PlainGrid.RowCells(0) == ["MySuite.fast", "   1500.0 ns", "±  47.14 %", "         2"]
  {
    PlainGridWellFormed();
    PlainGridWidths();
    PlainPadding();
    PaddedRow4(PlainGrid, 0, [12, 12, 10, 10], ["MySuite.fast", "1500.0 ns", "±  47.14 %", "2"], "MySuite.fast", "   1500.0 ns", "±  47.14 %", "         2");
  }

  lemma PlainSlowCells()
    ensures PlainGrid.RowCells(1) == ["MySuite.slow", "1500000.0 ns", "±  47.14 %", "         2"]
  {
    PlainGridWellFormed();
    PlainGridWidths();
    PlainPadding();
    PaddedRow4(PlainGrid, 1, [12, 12, 10, 10], ["MySuite.slow", "1500000.0 ns", "±  47.14 %", "2"], "MySuite.slow", "1500000.0 ns", "±  47.14 %", "         2");
  }

  lemma PlainFastRowText()
    ensures Join(["MySuite.fast", "   1500.0 ns", "±  47.14 %", "         2"]) == "MySuite.fast    1500.0 ns ±  47.14 %          2"
  {
    JoinSteps4("MySuite.fast", "   1500.0 ns", "±  47.14 %", "         2",
      "MySuite.fast    1500.0 ns", "MySuite.fast    1500.0 ns ±  47.14 %",
      "MySuite.fast    1500.0 ns ±  47.14 %          2");
  }

  lemma PlainFastRow()
    ensures PlainGrid.Row(0) == "MySuite.fast    1500.0 ns ±  47.14 %          2"
  {
    PlainGridWellFormed();
    PlainFastCells();
    PlainFastRowText();
    RowIs(PlainGrid, 0, ["MySuite.fast", "   1500.0 ns", "±  47.14 %", "         2"], "MySuite.fast    1500.0 ns ±  47.14 %          2");
  }

  lemma PlainSlowRowText()
    ensures Join(["MySuite.slow", "1500000.0 ns", "±  47.14 %", "         2"]) == "MySuite.slow 1500000.0 ns ±  47.14 %          2"
  {
    JoinSteps4("MySuite.slow", "1500000.0 ns", "±  47.14 %", "         2",
      "MySuite.slow 1500000.0 ns", "MySuite.slow 1500000.0 ns ±  47.14 %",
      "MySuite.slow 1500000.0 ns ±  47.14 %          2");
  }

  lemma PlainSlowRow()
    ensures PlainGrid.Row(1) == "MySuite.slow 1500000.0 ns ±  47.14 %          2"
  {
    PlainGridWellFormed();
    PlainSlowRowText();
    PlainSlowCells();
    RowIs(PlainGrid, 1, ["MySuite.slow", "1500000.0 ns", "±  47.14 %", "         2"], "MySuite.slow 1500000.0 ns ±  47.14 %          2");
  }

  /** The expected text of the test, line by line. */
  const PlainExpected: seq<string> := [
    "name         time         std        iterations",
    "-----------------------------------------------",
    "MySuite.fast    1500.0 ns ±  47.14 %          2",
    "MySuite.slow 1500000.0 ns ±  47.14 %          2"]

  lemma PlainGridLines()
    ensures PlainGrid.Lines() == PlainExpected
  {
    PlainGridWellFormed();
    PlainHeader();
    PlainSeparator();
    PlainFastRow();
    PlainSlowRow();
    LinesOf2(PlainGrid, "name         time         std        iterations",
      "-----------------------------------------------",
      "MySuite.fast    1500.0 ns ±  47.14 %          2",
      "MySuite.slow 1500000.0 ns ±  47.14 %          2");
  }

  /** Every expected line is already trimmed. */
  lemma PlainExpectedTrimmed()
    ensures Normalized(PlainExpected) == PlainExpected
  {
    PlainHeaderText();
    TrimJoin(["name        ", "time        ", "std       ", "iterations"]);
    PlainRule();
    TrimDashes(47);
    PlainFastRowText();
    TrimJoin(["MySuite.fast", "   1500.0 ns", "±  47.14 %", "         2"]);
    PlainSlowRowText();
    TrimJoin(["MySuite.slow", "1500000.0 ns", "±  47.14 %", "         2"]);
    NormalizedOf4("name         time         std        iterations", "-----------------------------------------------", "MySuite.fast    1500.0 ns ±  47.14 %          2", "MySuite.slow 1500000.0 ns ±  47.14 %          2", "name         time         std        iterations", "-----------------------------------------------", "MySuite.fast    1500.0 ns ±  47.14 %          2", "MySuite.slow 1500000.0 ns ±  47.14 %          2");
  }

  lemma PlainReport()
    ensures ReportLines(Standard, [Fast, Slow], []) == PlainExpected
  {
    PlainGridIsTable();
    PlainGridLines();
  }

  /** The report of the two benchmarks is exactly the expected table, with
      no padding left over. */
  lemma PlainTextReporterTable()
    ensures EnumeratesCounters([], [Fast, Slow])
    ensures ReportLines(Standard, [Fast, Slow], []) == PlainExpected
  {
    NoCounters([Fast, Slow]);
    PlainReport();
  }

  /** ... and the comparison sees every expected line, and accepts them. */
  lemma PlainTextReporterPrinted()
    ensures Normalized(ReportLines(Standard, [Fast, Slow], [])) == PlainExpected
    ensures PrintedAs(ReportLines(Standard, [Fast, Slow], []), PlainExpected)
  {
    PlainReport();
    PlainExpectedTrimmed();
  }

  /** testPlainTextReporter passes. */
  method TestPlainTextReporter() returns (passed: bool)
    ensures passed
  {
    PlainTextReporterTable();
    PlainTextReporterPrinted();
    passed := AssertIsPrintedAs(Standard, [Fast, Slow], [], PlainExpected);
  }
}
