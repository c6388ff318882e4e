/** Small facts shared by the worked tables: how a cell, a row, a table and
    its lines are assembled from literal pieces. */
module TableFacts {
  import opened Decimals
  import opened Statistics
  import opened Layout
  import opened Reporter

  lemma SumOfTwo(a: nat, b: nat)
    ensures Sum([a, b]) == a + b
  {
    var xs: seq<nat> := [a, b];
    assert xs[..1] == [a];
    assert [a][..0] == [];
    assert Sum([a]) == Sum([a][..0]) + a;
    assert Sum(xs) == Sum(xs[..1]) + b;
  }

  lemma SumOfThree(a: nat, b: nat, c: nat)
    ensures Sum([a, b, c]) == a + b + c
  {
    var xs: seq<nat> := [a, b, c];
    assert xs[..2] == [a, b];
    SumOfTwo(a, b);
    assert Sum(xs) == Sum(xs[..2]) + c;
  }

  lemma SumOfOne(a: nat)
    ensures Sum([a]) == a
  {
    assert [a][..0] == [];
  }

  lemma NameCell(ex: UnitExponents, r: BenchmarkResult)
    ensures Cell(ex, r, Name) == r.suiteName + "." + r.benchmarkName
  {
  }

  lemma TimeCell(ex: UnitExponents, r: BenchmarkResult, d: Decimal, text: string)
    requires TimeValue(ex, r) == d && Format(d) == text
    ensures Cell(ex, r, Time) == text + " " + Suffix(r.settings.timeUnit)
  {
  }

  lemma StdCell(ex: UnitExponents, r: BenchmarkResult, h: nat, text: string)
    requires RelativeStdHundredths(r.measurements) == h && StdText(h) == text
    ensures Cell(ex, r, Std) == text
  {
  }

  lemma IterationsCell(ex: UnitExponents, r: BenchmarkResult, text: string)
    requires NatToString(|r.measurements|) == text
    ensures Cell(ex, r, Iterations) == text
  {
  }

  lemma StdText4714()
    ensures StdText(4714) == "±  47.14 %"
  {
    assert Shift(4714, 2) == 47;
    assert FormatHundredths(4714) == "47.14";
  }

  lemma StdText0()
    ensures StdText(0) == "±   0.00 %"
  {
    assert FormatHundredths(0) == "0.00";
  }

  const Mandatory: seq<Column> := [Name, Time, Std, Iterations]
  const MandatoryLabels: seq<string> := ["name", "time", "std", "iterations"]
  const MandatoryAligns: seq<Alignment> := [Left, Right, Right, Right]

  lemma MandatoryHeadings()
    ensures forall j :: 0 <= j < 4 ==> MandatoryLabels[j] == Label(Mandatory[j]) && MandatoryAligns[j] == AlignmentOf(Mandatory[j])
  {
  }

  lemma MandatoryRow(ex: UnitExponents, r: BenchmarkResult, name: string, time: string, std: string, iterations: string)
    requires Cell(ex, r, Name) == name && Cell(ex, r, Time) == time
    requires Cell(ex, r, Std) == std && Cell(ex, r, Iterations) == iterations
    ensures Row(ex, r, Mandatory) == [name, time, std, iterations]
  {
  }

  /** The mandatory cells depend only on the name, the settings and the
      samples. */
  lemma MandatorySame(ex: UnitExponents, r: BenchmarkResult, r': BenchmarkResult)
    requires r.benchmarkName == r'.benchmarkName && r.suiteName == r'.suiteName
    requires r.settings == r'.settings && r.measurements == r'.measurements
    ensures Row(ex, r, Mandatory) == Row(ex, r', Mandatory)
  {
  }

  /** The row of a table with one column after the mandatory ones. */
  lemma MandatoryRowAnd(ex: UnitExponents, r: BenchmarkResult, c: Column, cells: seq<string>)
    requires |cells| == 5 && Row(ex, r, Mandatory) == cells[..4] && Cell(ex, r, c) == cells[4]
    ensures Row(ex, r, Mandatory + [c]) == cells
  {
    var row := Row(ex, r, Mandatory + [c]);
    assert forall j :: 0 <= j < 4 ==> row[j] == Row(ex, r, Mandatory)[j];
    assert row[4] == cells[4];
  }

  lemma TableIs(ex: UnitExponents, rs: seq<BenchmarkResult>, order: seq<string>, cols: seq<Column>, g: Grid)
    requires Columns(rs, order) == cols
    requires |g.labels| == |cols| && |g.aligns| == |cols| && |g.rows| == |rs|
    requires forall j :: 0 <= j < |cols| ==> g.labels[j] == Label(cols[j]) && g.aligns[j] == AlignmentOf(cols[j])
    requires forall i :: 0 <= i < |rs| ==> g.rows[i] == Row(ex, rs[i], cols)
    ensures Table(ex, rs, order) == g
  {
  }

  lemma NoCounters(rs: seq<BenchmarkResult>)
    requires forall i :: 0 <= i < |rs| ==> rs[i].counters == map[]
    ensures EnumeratesCounters([], rs)
  {
    assert CounterNames(rs) == {};
  }

  /** A single counter name enumerates exactly itself. */
  lemma SingleOrder(k: string)
    ensures (set i | 0 <= i < |[k]| :: [k][i]) == {k}
  {
    var order := [k];
    var names := set i | 0 <= i < |order| :: order[i];
    assert order[0] == k;
    forall x | x in names
      ensures x == k
    {
      var i :| 0 <= i < |order| && order[i] == x;
    }
  }

  lemma ColumnsWithout(rs: seq<BenchmarkResult>)
    requires !HasWarmup(rs)
    ensures Columns(rs, []) == Mandatory
  {
  }

  lemma Join4(a: string, b: string, c: string, d: string)
    ensures Join([a, b, c, d]) == a + " " + b + " " + c + " " + d
  {
    assert [a, b, c, d][..3] == [a, b, c];
    assert [a, b, c][..2] == [a, b];
    assert [a, b][..1] == [a];
    assert Join([a, b]) == a + " " + b;
    assert Join([a, b, c]) == Join([a, b]) + " " + c;
    assert Join([a, b, c, d]) == Join([a, b, c]) + " " + d;
  }

  lemma Join5(a: string, b: string, c: string, d: string, e: string)
    ensures Join([a, b, c, d, e]) == a + " " + b + " " + c + " " + d + " " + e
  {
    assert [a, b, c, d, e][..4] == [a, b, c, d];
    Join4(a, b, c, d);
    assert Join([a, b, c, d, e]) == Join([a, b, c, d]) + " " + e;
  }

  /** A joined line, checked one cell at a time against its literal
      prefixes. */
  lemma JoinSteps4(a: string, b: string, c: string, d: string, ab: string, abc: string, line: string)
    requires a + " " + b == ab && ab + " " + c == abc && abc + " " + d == line
    ensures Join([a, b, c, d]) == line
  {
    Join4(a, b, c, d);
  }

  lemma JoinSteps5(a: string, b: string, c: string, d: string, e: string, ab: string, abc: string, abcd: string, line: string)
    requires a + " " + b == ab && ab + " " + c == abc && abc + " " + d == abcd && abcd + " " + e == line
    ensures Join([a, b, c, d, e]) == line
  {
    Join5(a, b, c, d, e);
  }

  lemma SeqOf4<T>(s: seq<T>, a: T, b: T, c: T, d: T)
    requires |s| == 4 && s[0] == a && s[1] == b && s[2] == c && s[3] == d
    ensures s == [a, b, c, d]
  {
  }

  lemma SeqOf5<T>(s: seq<T>, a: T, b: T, c: T, d: T, e: T)
    requires |s| == 5 && s[0] == a && s[1] == b && s[2] == c && s[3] == d && s[4] == e
    ensures s == [a, b, c, d, e]
  {
  }

  /** The padded cells of row i of a four-column grid whose first column is
      left-aligned and the others right-aligned. */
  lemma PaddedRow4(g: Grid, i: nat, ws: seq<nat>, cells: seq<string>, a: string, b: string, c: string, d: string)
    requires g.WellFormed() && i < |g.rows| && |g.labels| == 4 && ws == g.Widths()
    requires g.aligns == [Left, Right, Right, Right] && g.rows[i] == cells
    requires PadRight(cells[0], ws[0]) == a && PadLeft(cells[1], ws[1]) == b
    requires PadLeft(cells[2], ws[2]) == c && PadLeft(cells[3], ws[3]) == d
    ensures g.RowCells(i) == [a, b, c, d]
  {
    SeqOf4(g.RowCells(i), a, b, c, d);
  }

  /** The same for a five-column grid. */
  lemma PaddedRow5(g: Grid, i: nat, ws: seq<nat>, cells: seq<string>, a: string, b: string, c: string, d: string, e: string)
    requires g.WellFormed() && i < |g.rows| && |g.labels| == 5 && ws == g.Widths()
    requires g.aligns == [Left, Right, Right, Right, Right] && g.rows[i] == cells
    requires PadRight(cells[0], ws[0]) == a && PadLeft(cells[1], ws[1]) == b && PadLeft(cells[2], ws[2]) == c
    requires PadLeft(cells[3], ws[3]) == d && PadLeft(cells[4], ws[4]) == e
    ensures g.RowCells(i) == [a, b, c, d, e]
  {
    SeqOf5(g.RowCells(i), a, b, c, d, e);
  }

  /** The padded labels of a four-column grid. */
  lemma PaddedLabels4(g: Grid, ws: seq<nat>, labels: seq<string>, a: string, b: string, c: string, d: string)
    requires g.WellFormed() && |g.labels| == 4 && ws == g.Widths() && g.labels == labels
    requires PadRight(labels[0], ws[0]) == a && PadRight(labels[1], ws[1]) == b
    requires PadRight(labels[2], ws[2]) == c && PadRight(labels[3], ws[3]) == d
    ensures g.HeaderCells() == [a, b, c, d]
  {
    SeqOf4(g.HeaderCells(), a, b, c, d);
  }

  /** The padded labels of a five-column grid. */
  lemma PaddedLabels5(g: Grid, ws: seq<nat>, labels: seq<string>, a: string, b: string, c: string, d: string, e: string)
    requires g.WellFormed() && |g.labels| == 5 && ws == g.Widths() && g.labels == labels
    requires PadRight(labels[0], ws[0]) == a && PadRight(labels[1], ws[1]) == b
    requires PadRight(labels[2], ws[2]) == c && PadRight(labels[3], ws[3]) == d
    requires PadRight(labels[4], ws[4]) == e
    ensures g.HeaderCells() == [a, b, c, d, e]
  {
    SeqOf5(g.HeaderCells(), a, b, c, d, e);
  }

  lemma ColumnWidth2(h: string, a: string, b: string)
    ensures ColumnWidth(h, [a, b]) == Max(Max(|h|, |a|), |b|)
  {
    assert [a, b][..1] == [a];
    assert [a][..0] == [];
    assert ColumnWidth(h, [a]) == Max(ColumnWidth(h, []), |a|);
    assert ColumnWidth(h, [a, b]) == Max(ColumnWidth(h, [a]), |b|);
  }

  lemma ColumnWidth4(h: string, a: string, b: string, c: string, d: string)
    ensures ColumnWidth(h, [a, b, c, d]) == Max(Max(Max(Max(|h|, |a|), |b|), |c|), |d|)
  {
    ColumnWidth2(h, a, b);
    assert [a, b, c, d][..3] == [a, b, c];
    assert [a, b, c][..2] == [a, b];
    assert ColumnWidth(h, [a, b, c]) == Max(ColumnWidth(h, [a, b]), |c|);
    assert ColumnWidth(h, [a, b, c, d]) == Max(ColumnWidth(h, [a, b, c]), |d|);
  }

  lemma HeaderIs(g: Grid, cells: seq<string>, line: string)
    requires g.WellFormed() && g.HeaderCells() == cells && Join(cells) == line
    ensures g.Header() == line
  {
  }

  lemma RowIs(g: Grid, i: nat, cells: seq<string>, line: string)
    requires g.WellFormed() && i < |g.rows| && g.RowCells(i) == cells && Join(cells) == line
    ensures g.Row(i) == line
  {
  }

  lemma LinesOf2(g: Grid, header: string, rule: string, row0: string, row1: string)
    requires g.WellFormed() && |g.rows| == 2
    requires g.Header() == header && g.Separator() == rule && g.Row(0) == row0 && g.Row(1) == row1
    ensures g.Lines() == [header, rule, row0, row1]
  {
    LinesShape(g);
    SeqOf4(g.Lines(), header, rule, row0, row1);
  }

  lemma LinesOf4(g: Grid, header: string, rule: string, row0: string, row1: string, row2: string, row3: string)
    requires g.WellFormed() && |g.rows| == 4
    requires g.Header() == header && g.Separator() == rule
    requires g.Row(0) == row0 && g.Row(1) == row1 && g.Row(2) == row2 && g.Row(3) == row3
    ensures g.Lines() == [header, rule, row0, row1, row2, row3]
  {
    LinesShape(g);
    var ls := g.Lines();
    assert |ls| == 6;
    assert ls == [ls[0], ls[1], ls[2], ls[3], ls[4], ls[5]];
  }

  function Repeat(s: string, n: nat): string
  {
    if n == 0 then "" else s + Repeat(s, n - 1)
  }

  /** A rule of 10 * tens + rest dashes, built from literal pieces. */
  lemma DashesLiteral(tens: nat, rest: nat)
    requires rest < 10
    ensures Dashes(10 * tens + rest) == Repeat("----------", tens) + Dashes(rest)
  {
    if tens > 0 {
      DashesLiteral(tens - 1, rest);
      DashesAdd(10, 10 * (tens - 1) + rest);
      assert Dashes(10) == "----------";
    }
  }
}
