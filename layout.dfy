/** The generic grid layout of a plain-text table: every column as wide as
    its widest entry (header label included), cells padded to that width,
    adjacent columns separated by one space, and a dash rule under the
    header as long as the padded header. */
module Layout {

  datatype Alignment = Left | Right

  function Max(a: nat, b: nat): nat { if a < b then b else a }

  /** n copies of the character c. */
  function Fill(c: char, n: nat): (s: string)
    ensures |s| == n && forall i :: 0 <= i < n ==> s[i] == c
  {
    seq(n, _ => c)
  }

  function Spaces(n: nat): (s: string)
    ensures |s| == n && forall i :: 0 <= i < n ==> s[i] == ' '
  {
    Fill(' ', n)
  }

  function Dashes(n: nat): (s: string)
    ensures |s| == n && forall i :: 0 <= i < n ==> s[i] == '-'
  {
    Fill('-', n)
  }

  lemma DashesAdd(a: nat, b: nat)
    ensures Dashes(a + b) == Dashes(a) + Dashes(b)
  {
  }

  /** s followed by spaces up to width w; never truncates. */
  function PadRight(s: string, w: nat): (r: string)
    ensures |r| == Max(|s|, w) && r[..|s|] == s
    ensures forall i :: |s| <= i < |r| ==> r[i] == ' '
  {
    if |s| < w then s + Spaces(w - |s|) else s
  }

  /** Spaces up to width w followed by s; never truncates. */
  function PadLeft(s: string, w: nat): (r: string)
    ensures |r| == Max(|s|, w) && r[|r| - |s|..] == s
    ensures forall i :: 0 <= i < |r| - |s| ==> r[i] == ' '
  {
    if |s| < w then Spaces(w - |s|) + s else s
  }

  function Pad(a: Alignment, s: string, w: nat): (r: string)
    ensures |r| == Max(|s|, w)
  {
    match a
    case Left => PadRight(s, w)
    case Right => PadLeft(s, w)
  }

  /** Cells joined with one space between neighbours. */
  function Join(cells: seq<string>): string
  {
    if |cells| == 0 then ""
    else if |cells| == 1 then cells[0]
    else Join(cells[..|cells| - 1]) + " " + cells[|cells| - 1]
  }

  /** Where column j starts when the columns have the given widths. */
  function Start(widths: seq<nat>, j: nat): nat
    requires j <= |widths|
  {
    if j == 0 then 0 else Start(widths, j - 1) + widths[j - 1] + 1
  }

  /** The length of a line whose columns have the given widths. */
  function LineWidth(widths: seq<nat>): nat
  {
    if |widths| == 0 then 0 else Start(widths, |widths| - 1) + widths[|widths| - 1]
  }

  lemma StartPrefix(widths: seq<nat>, k: nat, j: nat)
    requires j <= k <= |widths|
    ensures Start(widths[..k], j) == Start(widths, j)
  {
    if j > 0 {
      StartPrefix(widths, k, j - 1);
    }
  }

  /** Cells exactly as wide as their columns. */
  predicate Fits(cells: seq<string>, widths: seq<nat>)
  {
    |cells| == |widths| && forall j :: 0 <= j < |cells| ==> |cells[j]| == widths[j]
  }

  lemma {:induction false} JoinLength(cells: seq<string>, widths: seq<nat>)
    requires Fits(cells, widths)
    ensures |Join(cells)| == LineWidth(widths)
  {
    var n := |cells|;
    if n >= 2 {
      JoinLength(cells[..n - 1], widths[..n - 1]);
      StartPrefix(widths, n - 1, n - 2);
    }
  }

  /** Joining cells of the given widths puts cell j at [Start(j), Start(j) + widths[j]). */
  lemma {:induction false} JoinCellAt(cells: seq<string>, widths: seq<nat>, j: nat)
    requires Fits(cells, widths) && j < |cells|
    ensures Start(widths, j) + widths[j] <= |Join(cells)|
    ensures Join(cells)[Start(widths, j)..Start(widths, j) + widths[j]] == cells[j]
  {
    var n := |cells|;
    if n >= 2 {
      var init, winit := cells[..n - 1], widths[..n - 1];
      var l := Join(init);
      JoinLength(init, winit);
      StartPrefix(widths, n - 1, n - 2);
      assert Start(widths, n - 1) == |l| + 1;
      if j < n - 1 {
        JoinCellAt(init, winit, j);
        StartPrefix(widths, n - 1, j);
        assert init[j] == cells[j];
      }
    }
  }

  /** ... and a single space after every cell but the last. */
  lemma {:induction false} JoinSpaceAt(cells: seq<string>, widths: seq<nat>, j: nat)
    requires Fits(cells, widths) && j + 1 < |cells|
    ensures Start(widths, j) + widths[j] < |Join(cells)|
    ensures Join(cells)[Start(widths, j) + widths[j]] == ' '
  {
    var n := |cells|;
    var init, winit := cells[..n - 1], widths[..n - 1];
    var l := Join(init);
    JoinLength(init, winit);
    StartPrefix(widths, n - 1, j);
    if j + 2 < n {
      JoinSpaceAt(init, winit, j);
    } else {
      StartPrefix(widths, n - 1, n - 2);
    }
  }

  /** The width of a column: the longest of its label and its cells. */
  function ColumnWidth(heading: string, column: seq<string>): nat
  {
    if |column| == 0 then |heading|
    else Max(ColumnWidth(heading, column[..|column| - 1]), |column[|column| - 1]|)
  }

  /** The column width is the maximum: no entry is longer, and some entry
      (the label or a cell) is exactly that long. */
  lemma {:induction false} ColumnWidthIsMaximum(heading: string, column: seq<string>)
    ensures var w := ColumnWidth(heading, column);
      |heading| <= w && (forall i :: 0 <= i < |column| ==> |column[i]| <= w)
      && (w == |heading| || exists i :: 0 <= i < |column| && w == |column[i]|)
  {
    if |column| > 0 {
      var init := column[..|column| - 1];
      ColumnWidthIsMaximum(heading, init);
      assert forall i :: 0 <= i < |init| ==> init[i] == column[i];
      var w0 := ColumnWidth(heading, init);
      if w0 < |column[|column| - 1]| {
        assert ColumnWidth(heading, column) == |column[|column| - 1]|;
      } else if w0 != |heading| {
        var i :| 0 <= i < |init| && w0 == |init[i]|;
        assert ColumnWidth(heading, column) == |column[i]|;
      }
    }
  }

  /** A table: column labels and alignments, and one row of cells per entry. */
  datatype Grid = Grid(labels: seq<string>, aligns: seq<Alignment>, rows: seq<seq<string>>)
  {
    predicate WellFormed()
    {
      |aligns| == |labels| && forall i :: 0 <= i < |rows| ==> |rows[i]| == |labels|
    }

    /** The cells of column j, top to bottom. */
    function Column(j: nat): seq<string>
      requires WellFormed() && j < |labels|
    {
      seq(|rows|, i requires 0 <= i < |rows| => rows[i][j])
    }

    function Widths(): (ws: seq<nat>)
      requires WellFormed()
      ensures |ws| == |labels|
    {
      seq(|labels|, j requires 0 <= j < |labels| => ColumnWidth(labels[j], Column(j)))
    }

    function HeaderCells(): seq<string>
      requires WellFormed()
    {
      var ws := Widths();
      seq(|labels|, j requires 0 <= j < |labels| => PadRight(labels[j], ws[j]))
    }

    function RowCells(i: nat): seq<string>
      requires WellFormed() && i < |rows|
    {
      var ws := Widths();
      seq(|labels|, j requires 0 <= j < |labels| => Pad(aligns[j], rows[i][j], ws[j]))
    }

    /** Header labels are always left-aligned. */
    function Header(): string
      requires WellFormed()
    {
      Join(HeaderCells())
    }

    function Separator(): string
      requires WellFormed()
    {
      Dashes(LineWidth(Widths()))
    }

    function Row(i: nat): string
      requires WellFormed() && i < |rows|
    {
      Join(RowCells(i))
    }

    /** The whole table: header, rule, then one line per row in order. */
    function Lines(): (ls: seq<string>)
      requires WellFormed()
    {
      [Header(), Separator()] + seq(|rows|, i requires 0 <= i < |rows| => Row(i))
    }
  }

  /** Every width is at least its label and every cell, and is attained. */
  lemma WidthIsMaximum(g: Grid, j: nat)
    requires g.WellFormed() && j < |g.labels|
    ensures var w := g.Widths()[j];
      |g.labels[j]| <= w && (forall i :: 0 <= i < |g.rows| ==> |g.rows[i][j]| <= w)
      && (w == |g.labels[j]| || exists i :: 0 <= i < |g.rows| && w == |g.rows[i][j]|)
  {
    var col := g.Column(j);
    var w := g.Widths()[j];
    assert w == ColumnWidth(g.labels[j], col);
    ColumnWidthIsMaximum(g.labels[j], col);
    assert forall i :: 0 <= i < |g.rows| ==> col[i] == g.rows[i][j];
  }

  /** Header, rule and rows all have the same length, the rule is as long as
      the padded header, and it consists of dashes only. */
  lemma LinesHaveCommonWidth(g: Grid)
    requires g.WellFormed()
    ensures |g.Header()| == LineWidth(g.Widths())
    ensures |g.Separator()| == |g.Header()|
    ensures forall k :: 0 <= k < |g.Separator()| ==> g.Separator()[k] == '-'
    ensures forall i :: 0 <= i < |g.rows| ==> |g.Row(i)| == |g.Header()|
  {
    HeaderLength(g);
    forall i | 0 <= i < |g.rows|
      ensures |g.Row(i)| == |g.Header()|
    {
      RowLength(g, i);
    }
  }

  lemma CellsFitWidths(g: Grid, i: nat)
    requires g.WellFormed() && i < |g.rows|
    ensures Fits(g.RowCells(i), g.Widths())
  {
    var ws := g.Widths();
    forall j | 0 <= j < |ws|
      ensures |g.rows[i][j]| <= ws[j]
    {
      WidthIsMaximum(g, j);
    }
  }

  lemma LabelsFitWidths(g: Grid)
    requires g.WellFormed()
    ensures Fits(g.HeaderCells(), g.Widths())
  {
    forall j | 0 <= j < |g.labels|
      ensures |g.labels[j]| <= g.Widths()[j]
    {
      WidthIsMaximum(g, j);
    }
  }

  /** The header holds label j, left-aligned, in column j's span. */
  lemma HeaderColumnAt(g: Grid, j: nat)
    requires g.WellFormed() && j < |g.labels|
    ensures var ws := g.Widths();
      Start(ws, j) + ws[j] <= |g.Header()| &&
      g.Header()[Start(ws, j)..Start(ws, j) + ws[j]] == PadRight(g.labels[j], ws[j])
  {
    var ws := g.Widths();
    var cells := g.HeaderCells();
    LabelsFitWidths(g);
    assert cells[j] == PadRight(g.labels[j], ws[j]);
    JoinCellAt(cells, ws, j);
    assert g.Header() == Join(cells);
  }

  /** Row i holds its cell j, padded on the side its alignment says, in
      column j's span: the same span the header gives label j. */
  lemma RowColumnAt(g: Grid, i: nat, j: nat)
    requires g.WellFormed() && i < |g.rows| && j < |g.labels|
    ensures var ws := g.Widths();
      Start(ws, j) + ws[j] <= |g.Row(i)| &&
      g.Row(i)[Start(ws, j)..Start(ws, j) + ws[j]] == Pad(g.aligns[j], g.rows[i][j], ws[j])
  {
    var ws := g.Widths();
    var cells := g.RowCells(i);
    CellsFitWidths(g, i);
    assert cells[j] == Pad(g.aligns[j], g.rows[i][j], ws[j]);
    JoinCellAt(cells, ws, j);
    assert g.Row(i) == Join(cells);
  }

  lemma HeaderLength(g: Grid)
    requires g.WellFormed()
    ensures |g.Header()| == LineWidth(g.Widths())
  {
    LabelsFitWidths(g);
    JoinLength(g.HeaderCells(), g.Widths());
  }

  lemma RowLength(g: Grid, i: nat)
    requires g.WellFormed() && i < |g.rows|
    ensures |g.Row(i)| == LineWidth(g.Widths())
  {
    CellsFitWidths(g, i);
    JoinLength(g.RowCells(i), g.Widths());
  }

  /** In the header the columns are separated by a single space ... */
  lemma HeaderSeparatedAt(g: Grid, j: nat)
    requires g.WellFormed() && j + 1 < |g.labels|
    ensures var ws := g.Widths();
      Start(ws, j) + ws[j] < |g.Header()| && g.Header()[Start(ws, j) + ws[j]] == ' '
  {
    HeaderSpaceAt(g, j, g.Widths(), g.HeaderCells());
  }

  lemma HeaderSpaceAt(g: Grid, j: nat, ws: seq<nat>, cells: seq<string>)
    requires g.WellFormed() && j + 1 < |g.labels|
    requires ws == g.Widths() && cells == g.HeaderCells()
    ensures Start(ws, j) + ws[j] < |g.Header()| && g.Header()[Start(ws, j) + ws[j]] == ' '
  {
    LabelsFitWidths(g);
    JoinSpaceAt(cells, ws, j);
    assert g.Header() == Join(cells);
  }

  /** ... and so they are in every row. */
  lemma RowSeparatedAt(g: Grid, i: nat, j: nat)
    requires g.WellFormed() && i < |g.rows| && j + 1 < |g.labels|
    ensures var ws := g.Widths();
      Start(ws, j) + ws[j] < |g.Row(i)| && g.Row(i)[Start(ws, j) + ws[j]] == ' '
  {
    RowSpaceAt(g, i, j, g.Widths(), g.RowCells(i));
  }

  lemma RowSpaceAt(g: Grid, i: nat, j: nat, ws: seq<nat>, cells: seq<string>)
    requires g.WellFormed() && i < |g.rows| && j + 1 < |g.labels|
    requires ws == g.Widths() && cells == g.RowCells(i)
    ensures Start(ws, j) + ws[j] < |g.Row(i)| && g.Row(i)[Start(ws, j) + ws[j]] == ' '
  {
    CellsFitWidths(g, i);
    JoinSpaceAt(cells, ws, j);
    assert g.Row(i) == Join(cells);
  }

  /** The table has one line per row after header and rule, in row order. */
  lemma LinesShape(g: Grid)
    requires g.WellFormed()
    ensures |g.Lines()| == |g.rows| + 2
    ensures g.Lines()[0] == g.Header() && g.Lines()[1] == g.Separator()
    ensures forall i :: 0 <= i < |g.rows| ==> g.Lines()[i + 2] == g.Row(i)
  {
  }
}
