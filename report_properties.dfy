/** What every report satisfies, whatever the results: which columns it has,
    what each cell says, and where each cell is placed on its line. */
module ReportProperties {
  import opened Decimals
  import opened Statistics
  import opened Layout
  import opened Reporter

  // ---- Column schema ----

  /** name, time, std and iterations come first, in this order. */
  lemma MandatoryColumnsFirst(rs: seq<BenchmarkResult>, order: seq<string>)
    ensures var cols := Columns(rs, order);
      |cols| >= 4 && cols[0] == Name && cols[1] == Time && cols[2] == Std && cols[3] == Iterations
      && forall j :: 4 <= j < |cols| ==> cols[j].Counter? || cols[j] == Warmup
  {
  }

  /** A counter column appears exactly when some result has that counter. */
  lemma CounterColumnIff(rs: seq<BenchmarkResult>, order: seq<string>, k: string)
    requires EnumeratesCounters(order, rs)
    ensures Counter(k) in Columns(rs, order) <==> exists i :: 0 <= i < |rs| && k in rs[i].counters
  {
    var cols := Columns(rs, order);
    var names := set i | 0 <= i < |order| :: order[i];
    if Counter(k) in cols {
      var j :| 0 <= j < |cols| && cols[j] == Counter(k);
      assert 4 <= j < 4 + |order| && order[j - 4] == k;
      assert k in names;
    }
    if exists i :: 0 <= i < |rs| && k in rs[i].counters {
      assert k in CounterNames(rs);
      var i :| 0 <= i < |order| && order[i] == k;
      assert cols[4 + i] == Counter(k);
    }
  }

  /** The warmup column appears exactly when some result has warmup samples,
      and is then the last one. */
  lemma WarmupColumnIff(rs: seq<BenchmarkResult>, order: seq<string>)
    ensures Warmup in Columns(rs, order) <==> exists i :: 0 <= i < |rs| && rs[i].warmupMeasurements != []
    ensures Warmup in Columns(rs, order) ==> Columns(rs, order)[|Columns(rs, order)| - 1] == Warmup
  {
    var cols := Columns(rs, order);
    if Warmup in cols {
      var j :| 0 <= j < |cols| && cols[j] == Warmup;
      assert j == |cols| - 1 && HasWarmup(rs);
    }
  }

  /** No column is shown twice. */
  lemma ColumnsDistinct(rs: seq<BenchmarkResult>, order: seq<string>)
    requires EnumeratesCounters(order, rs)
    ensures var cols := Columns(rs, order); forall i, j :: 0 <= i < j < |cols| ==> cols[i] != cols[j]
  {
    var cols := Columns(rs, order);
    forall i, j | 0 <= i < j < |cols|
      ensures cols[i] != cols[j]
    {
      if 4 <= i && j < 4 + |order| {
        assert cols[i] == Counter(order[i - 4]) && cols[j] == Counter(order[j - 4]);
      }
    }
  }

  // ---- What each cell says ----

  /** c is a canonical decimal text with the value of d, followed by suffix. */
  predicate ReadsBackAs(c: string, d: Decimal, suffix: string)
  {
    |suffix| < |c| && c[|c| - |suffix|..] == suffix
    && var t := c[..|c| - |suffix|];
       Parse(t).Some? && SameValue(Parse(t).value, d) && Canonical(t)
  }

  /** The time cell is a canonical decimal that reads back as the time
      value, followed by a space and the unit's suffix. */
  lemma TimeCellReadsBack(ex: UnitExponents, r: BenchmarkResult)
    ensures ReadsBackAs(Cell(ex, r, Time), TimeValue(ex, r), " " + Suffix(r.settings.timeUnit))
  {
    var d := TimeValue(ex, r);
    var t, suffix := Format(d), " " + Suffix(r.settings.timeUnit);
    var c := Cell(ex, r, Time);
    FormatRoundTrip(d);
    assert c == t + suffix;
    assert c[..|c| - |suffix|] == t;
  }

  /** The time value times 10^e, e the exponent of the result's unit, is the
      mean of the samples (whenever that mean is a finite decimal). */
  lemma TimeValueIsMean(ex: UnitExponents, r: BenchmarkResult)
    requires ExactMean(r.measurements)
    ensures var d, n := TimeValue(ex, r), |r.measurements|;
      d.mantissa * n * Pow10(ex.Of(r.settings.timeUnit)) == Sum(r.measurements) * Pow10(d.scale)
  {
    var xs, e := r.measurements, ex.Of(r.settings.timeUnit);
    var m, d := Mean(xs), TimeValue(ex, r);
    Pow10Add(m.scale, e);
    ScaleBoth(m.mantissa * |xs|, Sum(xs) * Pow10(m.scale), Pow10(e));
    MulAssoc(Sum(xs), Pow10(m.scale), Pow10(e));
  }

  lemma ScaleBoth(a: int, b: int, c: int)
    requires a == b
    ensures a * c == b * c
  {
  }

  lemma MulAssoc(a: int, b: int, c: int)
    ensures a * b * c == a * (b * c)
  {
  }

  /** Nanoseconds in one unit. */
  function NanosPerUnit(u: TimeUnit): nat
  {
    match u
    case Ns => 1
    case Us => 1000
    case Ms => 1000000
    case S => 1000000000
  }

  /** The standard conversion divides by the nanoseconds per unit. */
  lemma StandardDividesByUnit(u: TimeUnit)
    ensures Pow10(Standard.Of(u)) == NanosPerUnit(u)
  {
    assert Pow10(3) == 1000;
    assert Pow10(6) == 1000000;
    assert Pow10(9) == 1000000000;
  }

  /** Under the standard conversion the time value is the mean in the
      result's unit: times the nanoseconds per unit it is the mean in ns. */
  lemma StandardTimeInUnit(r: BenchmarkResult)
    requires ExactMean(r.measurements)
    ensures var d, n := TimeValue(Standard, r), |r.measurements|;
      d.mantissa * n * NanosPerUnit(r.settings.timeUnit) == Sum(r.measurements) * Pow10(d.scale)
  {
    TimeValueIsMean(Standard, r);
    StandardDividesByUnit(r.settings.timeUnit);
  }

  /** The std cell: "± ", the hundredths right-aligned in six characters and
      " %"; the number shown reads back as the relative deviation in
      hundredths. */
  lemma StdCellReadsBack(ex: UnitExponents, r: BenchmarkResult)
    ensures var h := RelativeStdHundredths(r.measurements);
      var t := FormatHundredths(h);
      Cell(ex, r, Std) == "± " + PadLeft(t, 6) + " %" && Parse(t) == Some(Decimal(h, 2))
      && IndexOfDot(t) + 3 == |t| && (IndexOfDot(t) == 1 || t[0] != '0')
  {
    FormatHundredthsRoundTrip(RelativeStdHundredths(r.measurements));
  }

  /** A single sample has no deviation. */
  lemma OneSampleStdCell(ex: UnitExponents, r: BenchmarkResult)
    requires |r.measurements| < 2
    ensures Cell(ex, r, Std) == "±   0.00 %"
  {
    assert FormatHundredths(0) == "0.00";
  }

  /** Scaling every sample by the same factor leaves the std cell as it is. */
  lemma StdCellScaleInvariant(ex: UnitExponents, r: BenchmarkResult, r': BenchmarkResult, c: nat)
    requires c > 0 && r'.measurements == Scaled(c, r.measurements)
    ensures Cell(ex, r', Std) == Cell(ex, r, Std)
  {
    RelativeStdScaleInvariant(c, r.measurements);
  }

  /** The iterations cell is the decimal numeral of the sample count, with
      no leading zero. */
  lemma IterationsCellCounts(ex: UnitExponents, r: BenchmarkResult)
    ensures var c := Cell(ex, r, Iterations);
      c != [] && AllDigits(c) && DigitsValue(c) == |r.measurements| && (|c| == 1 || c[0] != '0')
  {
    NatToStringValue(|r.measurements|);
  }

  /** A counter cell is blank exactly when the result lacks the counter, and
      otherwise reads back as the counter's value. */
  lemma CounterCellReadsBack(ex: UnitExponents, r: BenchmarkResult, k: string)
    ensures Cell(ex, r, Counter(k)) == "" <==> k !in r.counters
    ensures k in r.counters ==>
      var c := Cell(ex, r, Counter(k)); Parse(c).Some? && SameValue(Parse(c).value, r.counters[k]) && Canonical(c)
  {
    if k in r.counters {
      FormatRoundTrip(r.counters[k]);
    }
  }

  /** The warmup cell is blank exactly when the result has no warmup samples,
      and otherwise reads back as their total, in nanoseconds. */
  lemma WarmupCellReadsBack(ex: UnitExponents, r: BenchmarkResult)
    ensures Cell(ex, r, Warmup) == "" <==> r.warmupMeasurements == []
    ensures r.warmupMeasurements != [] ==>
      ReadsBackAs(Cell(ex, r, Warmup), Decimal(Sum(r.warmupMeasurements), 0), " ns")
  {
    if r.warmupMeasurements != [] {
      var d := Decimal(Sum(r.warmupMeasurements), 0);
      var c := Cell(ex, r, Warmup);
      FormatRoundTrip(d);
      assert c == Format(d) + " ns";
      assert c[..|c| - 3] == Format(d);
    }
  }

  // ---- Where each cell goes ----

  /** A header line, a dash rule, then one row per result in input order,
      each row made of that result's cells. */
  lemma RowsInInputOrder(ex: UnitExponents, rs: seq<BenchmarkResult>, order: seq<string>)
    ensures var lines, g := ReportLines(ex, rs, order), Table(ex, rs, order);
      |lines| == |rs| + 2 && lines[0] == g.Header() && lines[1] == g.Separator()
      && forall i :: 0 <= i < |rs| ==> lines[i + 2] == g.Row(i) && g.rows[i] == Row(ex, rs[i], Columns(rs, order))
  {
    LinesShape(Table(ex, rs, order));
  }

  /** Every line is as long as the header, and the rule is a run of dashes
      of that length. */
  lemma RuleMatchesHeader(ex: UnitExponents, rs: seq<BenchmarkResult>, order: seq<string>)
    ensures var lines := ReportLines(ex, rs, order);
      |lines| >= 2 && lines[1] == Dashes(|lines[0]|)
      && forall k :: 0 <= k < |lines| ==> |lines[k]| == |lines[0]|
  {
    var g := Table(ex, rs, order);
    var lines := ReportLines(ex, rs, order);
    LinesShape(g);
    LinesHaveCommonWidth(g);
    assert lines[1] == Dashes(|lines[0]|);
    forall k | 0 <= k < |lines|
      ensures |lines[k]| == |lines[0]|
    {
      if k >= 2 {
        assert lines[k] == g.Row(k - 2);
      }
    }
  }

  /** Each column is as wide as its widest entry, label included. */
  lemma ColumnWidthIsWidest(ex: UnitExponents, rs: seq<BenchmarkResult>, order: seq<string>, j: nat)
    requires j < |Columns(rs, order)|
    ensures var cols, ws := Columns(rs, order), Table(ex, rs, order).Widths();
      |Label(cols[j])| <= ws[j] && (forall i :: 0 <= i < |rs| ==> |Cell(ex, rs[i], cols[j])| <= ws[j])
      && (ws[j] == |Label(cols[j])| || exists i :: 0 <= i < |rs| && ws[j] == |Cell(ex, rs[i], cols[j])|)
  {
    var g, cols := Table(ex, rs, order), Columns(rs, order);
    WidthIsMaximum(g, j);
    assert forall i :: 0 <= i < |rs| ==> g.rows[i][j] == Cell(ex, rs[i], cols[j]);
  }

  lemma HeaderLine(ex: UnitExponents, rs: seq<BenchmarkResult>, order: seq<string>)
    ensures |ReportLines(ex, rs, order)| >= 2 && ReportLines(ex, rs, order)[0] == Table(ex, rs, order).Header()
  {
    LinesShape(Table(ex, rs, order));
  }

  lemma RowLine(ex: UnitExponents, rs: seq<BenchmarkResult>, order: seq<string>, i: nat)
    requires i < |rs|
    ensures |ReportLines(ex, rs, order)| == |rs| + 2 && ReportLines(ex, rs, order)[i + 2] == Table(ex, rs, order).Row(i)
  {
    LinesShape(Table(ex, rs, order));
  }

  /** Row i of the table holds result i's cell of column j, aligned as the
      column is; where it lands on the line is Layout.RowColumnAt. */
  lemma TableCell(ex: UnitExponents, rs: seq<BenchmarkResult>, order: seq<string>, i: nat, j: nat)
    requires i < |rs| && j < |Columns(rs, order)|
    ensures var g, cols := Table(ex, rs, order), Columns(rs, order);
      j < |g.labels| && g.rows[i][j] == Cell(ex, rs[i], cols[j]) && g.aligns[j] == AlignmentOf(cols[j])
  {
  }

  /** Label j sits at the start of column j, padded on the right. */
  lemma LabelAt(ex: UnitExponents, rs: seq<BenchmarkResult>, order: seq<string>, j: nat)
    requires j < |Columns(rs, order)|
    ensures var g := Table(ex, rs, order); var ws, header := g.Widths(), ReportLines(ex, rs, order)[0];
      Start(ws, j) + ws[j] <= |header|
      && header[Start(ws, j)..Start(ws, j) + ws[j]] == PadRight(Label(Columns(rs, order)[j]), ws[j])
  {
    var g, heading := Table(ex, rs, order), Label(Columns(rs, order)[j]);
    TableLabel(ex, rs, order, j);
    GridLabelAt(g, heading, j);
    HeaderLine(ex, rs, order);
  }

  lemma TableLabel(ex: UnitExponents, rs: seq<BenchmarkResult>, order: seq<string>, j: nat)
    requires j < |Columns(rs, order)|
    ensures var g := Table(ex, rs, order); j < |g.labels| && g.labels[j] == Label(Columns(rs, order)[j])
  {
  }

  lemma GridLabelAt(g: Grid, heading: string, j: nat)
    requires g.WellFormed() && j < |g.labels| && g.labels[j] == heading
    ensures var ws := g.Widths();
      Start(ws, j) + ws[j] <= |g.Header()| && g.Header()[Start(ws, j)..Start(ws, j) + ws[j]] == PadRight(heading, ws[j])
  {
    HeaderColumnAt(g, j);
  }

  /** Only the name column is aligned left. */
  lemma ColumnAlignment(rs: seq<BenchmarkResult>, order: seq<string>, j: nat)
    requires j < |Columns(rs, order)|
    ensures AlignmentOf(Columns(rs, order)[j]) == (if j == 0 then Left else Right)
  {
    MandatoryColumnsFirst(rs, order);
  }

  lemma TableShape(ex: UnitExponents, rs: seq<BenchmarkResult>, order: seq<string>)
    ensures |Table(ex, rs, order).labels| == |Columns(rs, order)|
  {
  }

  /** Neighbouring labels are separated by a space. */
  lemma HeaderColumnsSeparated(ex: UnitExponents, rs: seq<BenchmarkResult>, order: seq<string>, j: nat)
    requires j + 1 < |Columns(rs, order)|
    ensures var ws, line := Table(ex, rs, order).Widths(), ReportLines(ex, rs, order)[0];
      Start(ws, j) + ws[j] < |line| && line[Start(ws, j) + ws[j]] == ' '
  {
    TableShape(ex, rs, order);
    HeaderLine(ex, rs, order);
    HeaderSeparatedAt(Table(ex, rs, order), j);
  }

  /** Neighbouring cells are separated by a space on every row. */
  lemma RowColumnsSeparated(ex: UnitExponents, rs: seq<BenchmarkResult>, order: seq<string>, i: nat, j: nat)
    requires i < |rs| && j + 1 < |Columns(rs, order)|
    ensures var ws, line := Table(ex, rs, order).Widths(), ReportLines(ex, rs, order)[i + 2];
      Start(ws, j) + ws[j] < |line| && line[Start(ws, j) + ws[j]] == ' '
  {
    TableShape(ex, rs, order);
    RowLine(ex, rs, order, i);
    RowSeparatedAt(Table(ex, rs, order), i, j);
  }
}
