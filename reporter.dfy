/** The plain-text benchmark reporter: turns benchmark results into an
    aligned table (header, dash rule, one row per result) and writes it,
    line by line, to a text sink. */
module Reporter {
  import opened Decimals
  import opened Statistics
  import opened Layout

  datatype TimeUnit = Ns | Us | Ms | S

  function Suffix(u: TimeUnit): string
  {
    match u
    case Ns => "ns"
    case Us => "us"
    case Ms => "ms"
    case S => "s"
  }

  /** For each unit, the power of ten a nanosecond value is divided by. */
  datatype UnitExponents = UnitExponents(ns: nat, us: nat, ms: nat, s: nat)
  {
    function Of(u: TimeUnit): nat
    {
      match u
      case Ns => ns
      case Us => us
      case Ms => ms
      case S => s
    }
  }

  /** ns: 1, us: 10^3, ms: 10^6, s: 10^9. */
  const Standard := UnitExponents(0, 3, 6, 9)

  datatype BenchmarkSettings = BenchmarkSettings(timeUnit: TimeUnit)

  /** BenchmarkSettings() with no explicit setting reports nanoseconds. */
  const DefaultSettings := BenchmarkSettings(Ns)

  /** One finished benchmark: nanosecond samples, warmup samples and named
      counters. */
  datatype BenchmarkResult = BenchmarkResult(
    benchmarkName: string,
    suiteName: string,
    settings: BenchmarkSettings,
    measurements: seq<nat>,
    warmupMeasurements: seq<nat>,
    counters: map<string, Decimal>)

  datatype Column = Name | Time | Std | Iterations | Counter(key: string) | Warmup

  function Label(c: Column): string
  {
    match c
    case Name => "name"
    case Time => "time"
    case Std => "std"
    case Iterations => "iterations"
    case Counter(k) => k
    case Warmup => "warmup"
  }

  /** Names read left to right; every number is right-aligned. */
  function AlignmentOf(c: Column): Alignment
  {
    if c == Name then Left else Right
  }

  /** Some result has warmup samples. */
  function HasWarmup(rs: seq<BenchmarkResult>): (b: bool)
    ensures b <==> exists i :: 0 <= i < |rs| && rs[i].warmupMeasurements != []
  {
    if rs == [] then false
    else HasWarmup(rs[..|rs| - 1]) || rs[|rs| - 1].warmupMeasurements != []
  }

  /** Every counter name that some result carries. */
  function CounterNames(rs: seq<BenchmarkResult>): (names: set<string>)
    ensures forall k :: k in names <==> exists i :: 0 <= i < |rs| && k in rs[i].counters
  {
    if rs == [] then {}
    else
      var init := CounterNames(rs[..|rs| - 1]);
      assert forall i :: 0 <= i < |rs| - 1 ==> rs[..|rs| - 1][i] == rs[i];
      init + rs[|rs| - 1].counters.Keys
  }

  /** order lists every counter name of rs exactly once. The reporter collects
      counters in a dictionary, so the order of the counter columns is that
      dictionary's iteration order, which is left unspecified here. */
  predicate EnumeratesCounters(order: seq<string>, rs: seq<BenchmarkResult>)
  {
    (forall i, j :: 0 <= i < j < |order| ==> order[i] != order[j])
    && (set i | 0 <= i < |order| :: order[i]) == CounterNames(rs)
  }

  /** The column schema: the four mandatory columns, one column per counter,
      and a warmup column if any result has warmup samples. */
  function Columns(rs: seq<BenchmarkResult>, order: seq<string>): seq<Column>
  {
    [Name, Time, Std, Iterations]
    + seq(|order|, i requires 0 <= i < |order| => Counter(order[i]))
    + (if HasWarmup(rs) then [Warmup] else [])
  }

  /** The mean sample converted to the result's unit. */
  function TimeValue(ex: UnitExponents, r: BenchmarkResult): Decimal
  {
    var m := Mean(r.measurements);
    Decimal(m.mantissa, m.scale + ex.Of(r.settings.timeUnit))
  }

  /** "± " + String(format: "%6.2f", value) + " %". */
  function StdText(h: nat): string
  {
    "± " + PadLeft(FormatHundredths(h), 6) + " %"
  }

  function Cell(ex: UnitExponents, r: BenchmarkResult, c: Column): string
  {
    match c
    case Name => r.suiteName + "." + r.benchmarkName
    case Time => Format(TimeValue(ex, r)) + " " + Suffix(r.settings.timeUnit)
    case Std => StdText(RelativeStdHundredths(r.measurements))
    case Iterations => NatToString(|r.measurements|)
    case Counter(k) => if k in r.counters then Format(r.counters[k]) else ""
    case Warmup => if r.warmupMeasurements == [] then "" else Format(Decimal(Sum(r.warmupMeasurements), 0)) + " ns"
  }

  function Row(ex: UnitExponents, r: BenchmarkResult, cols: seq<Column>): seq<string>
  {
    seq(|cols|, j requires 0 <= j < |cols| => Cell(ex, r, cols[j]))
  }

  /** The table before layout: labels, alignments and formatted cells. */
  function Table(ex: UnitExponents, rs: seq<BenchmarkResult>, order: seq<string>): (g: Grid)
    ensures g.WellFormed() && |g.rows| == |rs|
  {
    var cols := Columns(rs, order);
    Grid(
      seq(|cols|, j requires 0 <= j < |cols| => Label(cols[j])),
      seq(|cols|, j requires 0 <= j < |cols| => AlignmentOf(cols[j])),
      seq(|rs|, i requires 0 <= i < |rs| => Row(ex, rs[i], cols)))
  }

  /** Everything report(results:) writes, in order. */
  function ReportLines(ex: UnitExponents, rs: seq<BenchmarkResult>, order: seq<string>): seq<string>
  {
    Table(ex, rs, order).Lines()
  }

  /** The in-memory sink of the tests: it keeps every line written to it. */
  class MockTextOutputStream {
    var lines: seq<string>

    constructor ()
      ensures lines == []
    {
      lines := [];
    }

    method Write(line: string)
      modifies this
      ensures lines == old(lines) + [line]
    {
      lines := lines + [line];
    }
  }

  /** A reporter writing to a sink. The unit conversion is a field so that
      both conversions can be stated: Standard is the corrected one (10^6
      for ms), TestedExponents the one the millisecond expectation of
      testTimeUnitReported implies. */
  class PlainTextReporter {
    const output: MockTextOutputStream
    const exponents: UnitExponents

    constructor (to: MockTextOutputStream, ex: UnitExponents)
      ensures output == to && exponents == ex
    {
      output := to;
      exponents := ex;
    }

    /** Formats every cell and fixes the column widths first, then writes the
        header, the rule and one row per result. */
    method Report(results: seq<BenchmarkResult>, counterOrder: seq<string>)
      requires EnumeratesCounters(counterOrder, results)
      modifies output
      ensures output.lines == old(output.lines) + ReportLines(exponents, results, counterOrder)
    {
      var table := Table(exponents, results, counterOrder);
      WriteTable(table);
    }

    /** Writes a laid-out table line by line. */
    method WriteTable(table: Grid)
      requires table.WellFormed()
      modifies output
      ensures output.lines == old(output.lines) + table.Lines()
    {
      ghost var lines := table.Lines();
      LinesShape(table);
      output.Write(table.Header());
      output.Write(table.Separator());
      assert lines[..2] == [table.Header(), table.Separator()];
      var i := 0;
      while i < |table.rows|
        invariant 0 <= i <= |table.rows|
        invariant output.lines == old(output.lines) + lines[..i + 2]
      {
        output.Write(table.Row(i));
        assert lines[..i + 3] == lines[..i + 2] + [table.Row(i)];
        i := i + 1;
      }
      assert lines[..i + 2] == lines;
    }
  }
}
