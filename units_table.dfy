/** testTimeUnitReported: each result's time is shown in the unit of its
    settings. The expected table of the test agrees with a conversion that
    divides by 10^5 for milliseconds; the same results under
    the 10^6 conversion give a different millisecond row. */
module UnitsTable {
  import opened Decimals
  import opened Statistics
  import opened Layout
  import opened Reporter
  import opened TestComparison
  import opened TableFacts
  import opened PlainTable
  import opened ReportProperties

  /** A result of one sample of 123456789 ns, reported in unit u. */
  function InUnit(benchmarkName: string, u: TimeUnit): BenchmarkResult
  {
    BenchmarkResult(benchmarkName, "MySuite", BenchmarkSettings(u), [123456789], [], map[])
  }

  const NsResult := InUnit("ns", Ns)
  const UsResult := InUnit("us", Us)
  const MsResult := InUnit("ms", Ms)
  const SResult := InUnit("s", S)
  const UnitResults := [NsResult, UsResult, MsResult, SResult]

  /** The conversion the expected table agrees with: milliseconds are taken
      as 10^5 nanoseconds. */
  const TestedExponents := UnitExponents(0, 3, 5, 9)

  /** Under the tested conversion every millisecond time is ten times the
      mean in milliseconds. */
  lemma TestedMsTenfold(r: BenchmarkResult)
    requires r.settings.timeUnit == Ms && ExactMean(r.measurements)
    ensures var d, n := TimeValue(TestedExponents, r), |r.measurements|;
      d.mantissa * n * NanosPerUnit(Ms) == 10 * Sum(r.measurements) * Pow10(d.scale)
  {
    var d, n := TimeValue(TestedExponents, r), |r.measurements|;
    TimeValueIsMean(TestedExponents, r);
    assert Pow10(5) == 100000;
    assert d.mantissa * n * 1000000 == 10 * (d.mantissa * n * 100000);
  }

  lemma OneSampleTime(ex: UnitExponents, r: BenchmarkResult)
    requires r.measurements == [123456789]
    ensures TimeValue(ex, r) == Decimal(1234567890, 1 + ex.Of(r.settings.timeUnit))
  {
    SumOfOne(123456789);
  }

  lemma OneSampleCells(ex: UnitExponents, r: BenchmarkResult)
    requires r.measurements == [123456789]
    ensures Cell(ex, r, Std) == "±   0.00 %"
    ensures Cell(ex, r, Iterations) == "1"
  {
    StdText0();
    StdCell(ex, r, 0, "±   0.00 %");
    IterationsCell(ex, r, "1");
  }

  lemma OneSampleRow(ex: UnitExponents, r: BenchmarkResult, name: string, time: string)
    requires r.measurements == [123456789] && r.suiteName + "." + r.benchmarkName == name && Cell(ex, r, Time) == time
    ensures Row(ex, r, Mandatory) == [name, time, "±   0.00 %", "1"]
  {
    NameCell(ex, r);
    OneSampleCells(ex, r);
    MandatoryRow(ex, r, name, time, "±   0.00 %", "1");
  }

  lemma NsText()
    ensures Format(Decimal(1234567890, 1)) == "123456789.0"
  {
    assert Shift(1234567890, 1) == 123456789;
    assert FixedDigits(1234567890, 1) == "0";
  }

  lemma UsText()
    ensures Format(Decimal(1234567890, 4)) == "123456.789"
  {
    assert Shift(1234567890, 4) == 123456;
    assert FixedDigits(1234567890, 4) == "7890";
  }

  lemma TestedMsText()
    ensures Format(Decimal(1234567890, 6)) == "1234.56789"
  {
    assert Shift(1234567890, 6) == 1234;
    assert FixedDigits(1234567890, 6) == "567890";
  }

  lemma StandardMsText()
    ensures Format(Decimal(1234567890, 7)) == "123.456789"
  {
    assert Shift(1234567890, 7) == 123;
    assert FixedDigits(1234567890, 7) == "4567890";
  }

  lemma SText()
    ensures Format(Decimal(1234567890, 10)) == "0.123456789"
  {
    assert Shift(1234567890, 10) == 0;
    assert FixedDigits(1234567890, 10) == "1234567890";
  }

  lemma NsTime(ex: UnitExponents)
    requires ex.ns == 0
    ensures TimeValue(ex, NsResult) == Decimal(1234567890, 1)
  {
    OneSampleTime(ex, NsResult);
  }

  lemma NsTimeCell(ex: UnitExponents)
    requires ex.ns == 0
    ensures Cell(ex, NsResult, Time) == "123456789.0 ns"
  {
    NsTime(ex);
    NsText();
    TimeCell(ex, NsResult, Decimal(1234567890, 1), "123456789.0");
  }

  lemma UsTime(ex: UnitExponents)
    requires ex.us == 3
    ensures TimeValue(ex, UsResult) == Decimal(1234567890, 4)
  {
    OneSampleTime(ex, UsResult);
  }

  lemma UsTimeCell(ex: UnitExponents)
    requires ex.us == 3
    ensures Cell(ex, UsResult, Time) == "123456.789 us"
  {
    UsTime(ex);
    UsText();
    TimeCell(ex, UsResult, Decimal(1234567890, 4), "123456.789");
  }

  lemma STime(ex: UnitExponents)
    requires ex.s == 9
    ensures TimeValue(ex, SResult) == Decimal(1234567890, 10)
  {
    OneSampleTime(ex, SResult);
  }

  lemma STimeCell(ex: UnitExponents)
    requires ex.s == 9
    ensures Cell(ex, SResult, Time) == "0.123456789 s"
  {
    STime(ex);
    SText();
    TimeCell(ex, SResult, Decimal(1234567890, 10), "0.123456789");
  }

  lemma TestedMsTime()
    ensures TimeValue(TestedExponents, MsResult) == Decimal(1234567890, 6)
  {
    OneSampleTime(TestedExponents, MsResult);
  }

  lemma TestedMsTimeCell()
    ensures Cell(TestedExponents, MsResult, Time) == "1234.56789 ms"
  {
    TestedMsTime();
    TestedMsText();
    TimeCell(TestedExponents, MsResult, Decimal(1234567890, 6), "1234.56789");
  }

  lemma StandardMsTime()
    ensures TimeValue(Standard, MsResult) == Decimal(1234567890, 7)
  {
    OneSampleTime(Standard, MsResult);
  }

  lemma StandardMsTimeCell()
    ensures Cell(Standard, MsResult, Time) == "123.456789 ms"
  {
    StandardMsTime();
    StandardMsText();
    TimeCell(Standard, MsResult, Decimal(1234567890, 7), "123.456789");
  }

  /** The table of the four results, whose millisecond time cell is ms. */
  function UnitsGrid(ms: string): Grid
  {
    Grid(MandatoryLabels, MandatoryAligns,
      [["MySuite.ns", "123456789.0 ns", "±   0.00 %", "1"],
       ["MySuite.us", "123456.789 us", "±   0.00 %", "1"],
       ["MySuite.ms", ms, "±   0.00 %", "1"],
       ["MySuite.s", "0.123456789 s", "±   0.00 %", "1"]])
  }

  lemma UnitsGridWellFormed(ms: string)
    ensures UnitsGrid(ms).WellFormed() && |UnitsGrid(ms).labels| == 4 && |UnitsGrid(ms).rows| == 4
  {
  }

  lemma UnitsColumns()
    ensures Columns(UnitResults, []) == Mandatory
  {
    assert !HasWarmup(UnitResults) by {
      assert forall i :: 0 <= i < 4 ==> UnitResults[i].warmupMeasurements == [];
    }
    ColumnsWithout(UnitResults);
  }

  lemma UnitsEnumerated()
    ensures EnumeratesCounters([], UnitResults)
  {
    NoCounters(UnitResults);
  }

  /** Four results in the mandatory columns make a grid of their rows. */
  lemma TableOf4(ex: UnitExponents, rs: seq<BenchmarkResult>, row0: seq<string>, row1: seq<string>, row2: seq<string>, row3: seq<string>)
    requires |rs| == 4 && Columns(rs, []) == Mandatory
    requires Row(ex, rs[0], Mandatory) == row0 && Row(ex, rs[1], Mandatory) == row1
    requires Row(ex, rs[2], Mandatory) == row2 && Row(ex, rs[3], Mandatory) == row3
    ensures Table(ex, rs, []) == Grid(MandatoryLabels, MandatoryAligns, [row0, row1, row2, row3])
  {
    MandatoryHeadings();
    TableIs(ex, rs, [], Mandatory, Grid(MandatoryLabels, MandatoryAligns, [row0, row1, row2, row3]));
  }

  lemma UnitsNsRow(ex: UnitExponents)
    requires ex.ns == 0
    ensures Row(ex, NsResult, Mandatory) == ["MySuite.ns", "123456789.0 ns", "±   0.00 %", "1"]
  {
    NsTimeCell(ex);
    OneSampleRow(ex, NsResult, "MySuite.ns", "123456789.0 ns");
  }

  lemma UnitsUsRow(ex: UnitExponents)
    requires ex.us == 3
    ensures Row(ex, UsResult, Mandatory) == ["MySuite.us", "123456.789 us", "±   0.00 %", "1"]
  {
    UsTimeCell(ex);
    OneSampleRow(ex, UsResult, "MySuite.us", "123456.789 us");
  }

  lemma UnitsMsRow(ex: UnitExponents, ms: string)
    requires Cell(ex, MsResult, Time) == ms
    ensures Row(ex, MsResult, Mandatory) == ["MySuite.ms", ms, "±   0.00 %", "1"]
  {
    OneSampleRow(ex, MsResult, "MySuite.ms", ms);
  }

  lemma UnitsSRow(ex: UnitExponents)
    requires ex.s == 9
    ensures Row(ex, SResult, Mandatory) == ["MySuite.s", "0.123456789 s", "±   0.00 %", "1"]
  {
    STimeCell(ex);
    OneSampleRow(ex, SResult, "MySuite.s", "0.123456789 s");
  }

  lemma UnitsGridIsTable(ex: UnitExponents, ms: string)
    requires ex.ns == 0 && ex.us == 3 && ex.s == 9 && Cell(ex, MsResult, Time) == ms
    ensures Table(ex, UnitResults, []) == UnitsGrid(ms)
  {
    UnitsColumns();
    UnitsNsRow(ex);
    UnitsUsRow(ex);
    UnitsMsRow(ex, ms);
    UnitsSRow(ex);
    TableOf4(ex, UnitResults, ["MySuite.ns", "123456789.0 ns", "±   0.00 %", "1"], ["MySuite.us", "123456.789 us", "±   0.00 %", "1"],
      ["MySuite.ms", ms, "±   0.00 %", "1"], ["MySuite.s", "0.123456789 s", "±   0.00 %", "1"]);
  }

  lemma UnitsGridWidths(ms: string)
    requires |ms| == 13
    ensures UnitsGrid(ms).Widths() == [10, 14, 10, 10]
  {
    UnitsGridWellFormed(ms);
    var g := UnitsGrid(ms);
    assert g.Column(0) == ["MySuite.ns", "MySuite.us", "MySuite.ms", "MySuite.s"];
    ColumnWidth4("name", "MySuite.ns", "MySuite.us", "MySuite.ms", "MySuite.s");
    assert g.Column(1) == ["123456789.0 ns", "123456.789 us", ms, "0.123456789 s"];
    ColumnWidth4("time", "123456789.0 ns", "123456.789 us", ms, "0.123456789 s");
    assert g.Column(2) == ["±   0.00 %", "±   0.00 %", "±   0.00 %", "±   0.00 %"];
    ColumnWidth4("std", "±   0.00 %", "±   0.00 %", "±   0.00 %", "±   0.00 %");
    assert g.Column(3) == ["1", "1", "1", "1"];
    ColumnWidth4("iterations", "1", "1", "1", "1");
  }

  lemma UnitsLabelPadding()
    ensures PadRight("name", 10) == "name      "
    ensures PadRight("time", 14) == "time          "
  {
  }

  lemma UnitsNamePadding()
    ensures PadRight("MySuite.ns", 10) == "MySuite.ns"
    ensures PadRight("MySuite.us", 10) == "MySuite.us"
    ensures PadRight("MySuite.ms", 10) == "MySuite.ms"
    ensures PadRight("MySuite.s", 10) == "MySuite.s "
  {
  }

  lemma NsTimePadding()
    ensures PadLeft("123456789.0 ns", 14) == "123456789.0 ns"
  {
  }

  lemma UsTimePadding()
    ensures PadLeft("123456.789 us", 14) == " 123456.789 us"
  {
  }

  lemma STimePadding()
    ensures PadLeft("0.123456789 s", 14) == " 0.123456789 s"
  {
  }

  lemma UnitsNumberPadding()
    ensures PadLeft("±   0.00 %", 10) == "±   0.00 %"
    ensures PadLeft("1", 10) == "         1"
  {
  }

  /** A 13-character cell in a 14-wide right-aligned column gets one space. */
  lemma PadLeftByOne(s: string)
    requires |s| == 13
    ensures PadLeft(s, 14) == " " + s
  {
    assert Spaces(1) == " ";
  }

  lemma UnitsHeaderCells(ms: string)
    requires |ms| == 13
    ensures UnitsGrid(ms).HeaderCells() == ["name      ", "time          ", "std       ", "iterations"]
  {
    UnitsGridWellFormed(ms);
    UnitsGridWidths(ms);
    UnitsLabelPadding();
    HeaderPadding();
    PaddedLabels4(UnitsGrid(ms), [10, 14, 10, 10], MandatoryLabels, "name      ", "time          ", "std       ", "iterations");
  }

  lemma UnitsHeaderText()
    ensures Join(["name      ", "time          ", "std       ", "iterations"]) == "name       time           std        iterations"
  {
    JoinSteps4("name      ", "time          ", "std       ", "iterations",
      "name       time          ", "name       time           std       ",
      "name       time           std        iterations");
  }

  lemma UnitsHeader(ms: string)
    requires |ms| == 13
    ensures UnitsGrid(ms).Header() == "name       time           std        iterations"
  {
    UnitsGridWellFormed(ms);
    UnitsHeaderCells(ms);
    UnitsHeaderText();
    HeaderIs(UnitsGrid(ms), ["name      ", "time          ", "std       ", "iterations"], "name       time           std        iterations");
  }

  lemma UnitsSeparator(ms: string)
    requires |ms| == 13
    ensures UnitsGrid(ms).Separator() == "-----------------------------------------------"
  {
    UnitsGridWellFormed(ms);
    UnitsGridWidths(ms);
    var ws := [10, 14, 10, 10];
    assert Start(ws, 1) == 11;
    assert Start(ws, 2) == 26;
    assert Start(ws, 3) == 37;
    PlainRule();
  }

  lemma UnitsRowCells0(ms: string)
    requires |ms| == 13
    ensures UnitsGrid(ms).RowCells(0) == ["MySuite.ns", "123456789.0 ns", "±   0.00 %", "         1"]
  {
    UnitsGridWellFormed(ms);
    UnitsGridWidths(ms);
    UnitsNamePadding();
    NsTimePadding();
    UnitsNumberPadding();
    PaddedRow4(UnitsGrid(ms), 0, [10, 14, 10, 10], ["MySuite.ns", "123456789.0 ns", "±   0.00 %", "1"], "MySuite.ns", "123456789.0 ns", "±   0.00 %", "         1");
  }

  lemma UnitsRowCells1(ms: string)
    requires |ms| == 13
    ensures UnitsGrid(ms).RowCells(1) == ["MySuite.us", " 123456.789 us", "±   0.00 %", "         1"]
  {
    UnitsGridWellFormed(ms);
    UnitsGridWidths(ms);
    UnitsNamePadding();
    UsTimePadding();
    UnitsNumberPadding();
    PaddedRow4(UnitsGrid(ms), 1, [10, 14, 10, 10], ["MySuite.us", "123456.789 us", "±   0.00 %", "1"], "MySuite.us", " 123456.789 us", "±   0.00 %", "         1");
  }

  lemma UnitsRowCells2(ms: string)
    requires |ms| == 13
    ensures UnitsGrid(ms).RowCells(2) == ["MySuite.ms", " " + ms, "±   0.00 %", "         1"]
  {
    UnitsGridWellFormed(ms);
    UnitsGridWidths(ms);
    UnitsNamePadding();
    PadLeftByOne(ms);
    UnitsNumberPadding();
    PaddedRow4(UnitsGrid(ms), 2, [10, 14, 10, 10], ["MySuite.ms", ms, "±   0.00 %", "1"], "MySuite.ms", " " + ms, "±   0.00 %", "         1");
  }

  lemma UnitsRowCells3(ms: string)
    requires |ms| == 13
    ensures UnitsGrid(ms).RowCells(3) == ["MySuite.s ", " 0.123456789 s", "±   0.00 %", "         1"]
  {
    UnitsGridWellFormed(ms);
    UnitsGridWidths(ms);
    UnitsNamePadding();
    STimePadding();
    UnitsNumberPadding();
    PaddedRow4(UnitsGrid(ms), 3, [10, 14, 10, 10], ["MySuite.s", "0.123456789 s", "±   0.00 %", "1"], "MySuite.s ", " 0.123456789 s", "±   0.00 %", "         1");
  }

  lemma NsRowText()
    ensures Join(["MySuite.ns", "123456789.0 ns", "±   0.00 %", "         1"]) == "MySuite.ns 123456789.0 ns ±   0.00 %          1"
  {
    JoinSteps4("MySuite.ns", "123456789.0 ns", "±   0.00 %", "         1",
      "MySuite.ns 123456789.0 ns", "MySuite.ns 123456789.0 ns ±   0.00 %",
      "MySuite.ns 123456789.0 ns ±   0.00 %          1");
  }

  lemma UsRowText()
    ensures Join(["MySuite.us", " 123456.789 us", "±   0.00 %", "         1"]) == "MySuite.us  123456.789 us ±   0.00 %          1"
  {
    JoinSteps4("MySuite.us", " 123456.789 us", "±   0.00 %", "         1",
      "MySuite.us  123456.789 us", "MySuite.us  123456.789 us ±   0.00 %",
      "MySuite.us  123456.789 us ±   0.00 %          1");
  }

  lemma TestedMsRowText()
    ensures Join(["MySuite.ms", " 1234.56789 ms", "±   0.00 %", "         1"]) == "MySuite.ms  1234.56789 ms ±   0.00 %          1"
  {
    JoinSteps4("MySuite.ms", " 1234.56789 ms", "±   0.00 %", "         1",
      "MySuite.ms  1234.56789 ms", "MySuite.ms  1234.56789 ms ±   0.00 %",
      "MySuite.ms  1234.56789 ms ±   0.00 %          1");
  }

  lemma StandardMsRowText()
    ensures Join(["MySuite.ms", " 123.456789 ms", "±   0.00 %", "         1"]) == "MySuite.ms  123.456789 ms ±   0.00 %          1"
  {
    JoinSteps4("MySuite.ms", " 123.456789 ms", "±   0.00 %", "         1",
      "MySuite.ms  123.456789 ms", "MySuite.ms  123.456789 ms ±   0.00 %",
      "MySuite.ms  123.456789 ms ±   0.00 %          1");
  }

  lemma SRowText()
    ensures Join(["MySuite.s ", " 0.123456789 s", "±   0.00 %", "         1"]) == "MySuite.s   0.123456789 s ±   0.00 %          1"
  {
    JoinSteps4("MySuite.s ", " 0.123456789 s", "±   0.00 %", "         1",
      "MySuite.s   0.123456789 s", "MySuite.s   0.123456789 s ±   0.00 %",
      "MySuite.s   0.123456789 s ±   0.00 %          1");
  }

  /** The lines of the table, given the text of its millisecond row. */
  lemma UnitsGridLines(ms: string, msCell: string, msLine: string)
    requires |ms| == 13 && " " + ms == msCell && Join(["MySuite.ms", msCell, "±   0.00 %", "         1"]) == msLine
    ensures UnitsGrid(ms).Lines() == [
      "name       time           std        iterations",
      "-----------------------------------------------",
      "MySuite.ns 123456789.0 ns ±   0.00 %          1",
      "MySuite.us  123456.789 us ±   0.00 %          1",
      msLine,
      "MySuite.s   0.123456789 s ±   0.00 %          1"]
  {
    var g := UnitsGrid(ms);
    UnitsGridWellFormed(ms);
    UnitsHeader(ms);
    UnitsSeparator(ms);
    UnitsRowCells0(ms);
    UnitsRowCells1(ms);
    UnitsRowCells2(ms);
    UnitsRowCells3(ms);
    NsRowText();
    RowIs(g, 0, ["MySuite.ns", "123456789.0 ns", "±   0.00 %", "         1"], "MySuite.ns 123456789.0 ns ±   0.00 %          1");
    UsRowText();
    RowIs(g, 1, ["MySuite.us", " 123456.789 us", "±   0.00 %", "         1"], "MySuite.us  123456.789 us ±   0.00 %          1");
    RowIs(g, 2, ["MySuite.ms", msCell, "±   0.00 %", "         1"], msLine);
    SRowText();
    RowIs(g, 3, ["MySuite.s ", " 0.123456789 s", "±   0.00 %", "         1"], "MySuite.s   0.123456789 s ±   0.00 %          1");
    LinesOf4(g, "name       time           std        iterations",
      "-----------------------------------------------",
      "MySuite.ns 123456789.0 ns ±   0.00 %          1",
      "MySuite.us  123456.789 us ±   0.00 %          1",
      msLine,
      "MySuite.s   0.123456789 s ±   0.00 %          1");
  }

  /** The expected text of the test, line by line. */
  const UnitsExpected: seq<string> := [
    "name       time           std        iterations",
    "-----------------------------------------------",
    "MySuite.ns 123456789.0 ns ±   0.00 %          1",
    "MySuite.us  123456.789 us ±   0.00 %          1",
    "MySuite.ms  1234.56789 ms ±   0.00 %          1",
    "MySuite.s   0.123456789 s ±   0.00 %          1"]

  /** The same table with 123456789 ns shown as 123.456789 ms. */
  const UnitsCorrected: seq<string> := [
    "name       time           std        iterations",
    "-----------------------------------------------",
    "MySuite.ns 123456789.0 ns ±   0.00 %          1",
    "MySuite.us  123456.789 us ±   0.00 %          1",
    "MySuite.ms  123.456789 ms ±   0.00 %          1",
    "MySuite.s   0.123456789 s ±   0.00 %          1"]

  lemma TestedTable()
    ensures Table(TestedExponents, UnitResults, []) == UnitsGrid("1234.56789 ms")
  {
    TestedMsTimeCell();
    UnitsGridIsTable(TestedExponents, "1234.56789 ms");
  }

  lemma TestedLines()
    ensures UnitsGrid("1234.56789 ms").Lines() == UnitsExpected
  {
    UnitsGridWellFormed("1234.56789 ms");
    TestedMsRowText();
    assert " " + "1234.56789 ms" == " 1234.56789 ms";
    UnitsGridLines("1234.56789 ms", " 1234.56789 ms", "MySuite.ms  1234.56789 ms ±   0.00 %          1");
  }

  lemma TestedReportLines()
    ensures ReportLines(TestedExponents, UnitResults, []) == UnitsExpected
  {
    UnitsGridWellFormed("1234.56789 ms");
    TestedTable();
    TestedLines();
  }

  lemma StandardTable()
    ensures Table(Standard, UnitResults, []) == UnitsGrid("123.456789 ms")
  {
    StandardMsTimeCell();
    UnitsGridIsTable(Standard, "123.456789 ms");
  }

  lemma StandardLines()
    ensures UnitsGrid("123.456789 ms").Lines() == UnitsCorrected
  {
    UnitsGridWellFormed("123.456789 ms");
    StandardMsRowText();
    assert " " + "123.456789 ms" == " 123.456789 ms";
    UnitsGridLines("123.456789 ms", " 123.456789 ms", "MySuite.ms  123.456789 ms ±   0.00 %          1");
  }

  lemma StandardReportLines()
    ensures ReportLines(Standard, UnitResults, []) == UnitsCorrected
  {
    UnitsGridWellFormed("123.456789 ms");
    StandardTable();
    StandardLines();
  }

  lemma UnitsHeaderTrimmed()
    ensures Trim("name       time           std        iterations") == "name       time           std        iterations"
  {
    UnitsHeaderText();
    TrimJoin(["name      ", "time          ", "std       ", "iterations"]);
  }

  lemma UnitsRowsTrimmed()
    ensures Trim("MySuite.ns 123456789.0 ns ±   0.00 %          1") == "MySuite.ns 123456789.0 ns ±   0.00 %          1"
    ensures Trim("MySuite.us  123456.789 us ±   0.00 %          1") == "MySuite.us  123456.789 us ±   0.00 %          1"
    ensures Trim("MySuite.s   0.123456789 s ±   0.00 %          1") == "MySuite.s   0.123456789 s ±   0.00 %          1"
  {
    NsRowText();
    TrimJoin(["MySuite.ns", "123456789.0 ns", "±   0.00 %", "         1"]);
    UsRowText();
    TrimJoin(["MySuite.us", " 123456.789 us", "±   0.00 %", "         1"]);
    SRowText();
    TrimJoin(["MySuite.s ", " 0.123456789 s", "±   0.00 %", "         1"]);
  }

  lemma TestedMsRowTrimmed()
    ensures Trim("MySuite.ms  1234.56789 ms ±   0.00 %          1") == "MySuite.ms  1234.56789 ms ±   0.00 %          1"
  {
    TestedMsRowText();
    TrimJoin(["MySuite.ms", " 1234.56789 ms", "±   0.00 %", "         1"]);
  }

  lemma StandardMsRowTrimmed()
    ensures Trim("MySuite.ms  123.456789 ms ±   0.00 %          1") == "MySuite.ms  123.456789 ms ±   0.00 %          1"
  {
    StandardMsRowText();
    TrimJoin(["MySuite.ms", " 123.456789 ms", "±   0.00 %", "         1"]);
  }

  lemma UnitsRuleTrimmed()
    ensures Trim("-----------------------------------------------") == "-----------------------------------------------"
  {
    PlainRule();
    TrimDashes(47);
  }

  lemma TestedNormalized()
    ensures Normalized(UnitsExpected) == UnitsExpected
  {
    UnitsHeaderTrimmed();
    UnitsRuleTrimmed();
    UnitsRowsTrimmed();
    TestedMsRowTrimmed();
    NormalizedOf6("name       time           std        iterations",
      "-----------------------------------------------",
      "MySuite.ns 123456789.0 ns ±   0.00 %          1",
      "MySuite.us  123456.789 us ±   0.00 %          1",
      "MySuite.ms  1234.56789 ms ±   0.00 %          1",
      "MySuite.s   0.123456789 s ±   0.00 %          1",
      "name       time           std        iterations",
      "-----------------------------------------------",
      "MySuite.ns 123456789.0 ns ±   0.00 %          1",
      "MySuite.us  123456.789 us ±   0.00 %          1",
      "MySuite.ms  1234.56789 ms ±   0.00 %          1",
      "MySuite.s   0.123456789 s ±   0.00 %          1");
  }

  lemma StandardNormalized()
    ensures Normalized(UnitsCorrected) == UnitsCorrected
  {
    UnitsHeaderTrimmed();
    UnitsRuleTrimmed();
    UnitsRowsTrimmed();
    StandardMsRowTrimmed();
    NormalizedOf6("name       time           std        iterations",
      "-----------------------------------------------",
      "MySuite.ns 123456789.0 ns ±   0.00 %          1",
      "MySuite.us  123456.789 us ±   0.00 %          1",
      "MySuite.ms  123.456789 ms ±   0.00 %          1",
      "MySuite.s   0.123456789 s ±   0.00 %          1",
      "name       time           std        iterations",
      "-----------------------------------------------",
      "MySuite.ns 123456789.0 ns ±   0.00 %          1",
      "MySuite.us  123456.789 us ±   0.00 %          1",
      "MySuite.ms  123.456789 ms ±   0.00 %          1",
      "MySuite.s   0.123456789 s ±   0.00 %          1");
  }

  /** Under the tested conversion the report is exactly the expected table,
      and the comparison accepts it. */
  lemma TimeUnitReportedAsTested()
    ensures EnumeratesCounters([], UnitResults)
    ensures ReportLines(TestedExponents, UnitResults, []) == UnitsExpected
    ensures PrintedAs(ReportLines(TestedExponents, UnitResults, []), UnitsExpected)
  {
    UnitsEnumerated();
    TestedReportLines();
    TestedNormalized();
  }

  /** The two millisecond rows differ in their sixteenth character. */
  lemma MsRowsDiffer()
    ensures "MySuite.ms  123.456789 ms ±   0.00 %          1" != "MySuite.ms  1234.56789 ms ±   0.00 %          1"
  {
    var a, b := "MySuite.ms  123.456789 ms ±   0.00 %          1", "MySuite.ms  1234.56789 ms ±   0.00 %          1";
    assert a[15] == '.' && b[15] == '4';
  }

  /** The corrected table fails the comparison with the test's table, on
      the millisecond row. */
  lemma CorrectedDisagrees()
    ensures !PrintedAs(UnitsCorrected, UnitsExpected)
  {
    StandardNormalized();
    MsRowsDiffer();
    DisagreesAt(UnitsCorrected, UnitsExpected, 4, "MySuite.ms  123.456789 ms ±   0.00 %          1", "MySuite.ms  1234.56789 ms ±   0.00 %          1");
  }

  /** Under the 10^6 conversion the report is the corrected table, which the
      comparison accepts, and the comparison with the test's expected table
      fails on the millisecond row. */
  lemma TimeUnitReportedCorrected()
    ensures ReportLines(Standard, UnitResults, []) == UnitsCorrected
    ensures PrintedAs(ReportLines(Standard, UnitResults, []), UnitsCorrected)
    ensures !PrintedAs(ReportLines(Standard, UnitResults, []), UnitsExpected)
  {
    StandardReportLines();
    StandardNormalized();
    CorrectedDisagrees();
  }

  /** testTimeUnitReported passes against the tested conversion. */
  method TestTimeUnitReported() returns (passed: bool)
    ensures passed
  {
    TimeUnitReportedAsTested();
    passed := AssertIsPrintedAs(TestedExponents, UnitResults, [], UnitsExpected);
  }

  /** ... and fails against the 10^6 conversion. */
  method TestTimeUnitReportedStandard() returns (passed: bool)
    ensures !passed
  {
    UnitsEnumerated();
    TimeUnitReportedCorrected();
    passed := AssertIsPrintedAs(Standard, UnitResults, [], UnitsExpected);
  }

  /** The corrected expectation passes against the 10^6 conversion. */
  method TestTimeUnitReportedCorrected() returns (passed: bool)
    ensures passed
  {
    UnitsEnumerated();
    TimeUnitReportedCorrected();
    passed := AssertIsPrintedAs(Standard, UnitResults, [], UnitsCorrected);
  }
}
