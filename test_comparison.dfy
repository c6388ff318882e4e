/** The comparison the reporter's tests make (assertIsPrintedAs): the lines
    written to the mock sink are trimmed of surrounding whitespace, blank
    lines are dropped, and what remains is compared pairwise with the lines
    of the expected text, as far as both go. */
module TestComparison {
  import opened Layout
  import opened Reporter

  /** CharacterSet.whitespacesAndNewlines: tab, the line breaks U+000A to
      U+000D and U+0085, and the Unicode separators (general category Z*:
      Zs space separators, U+2028 line and U+2029 paragraph separator). */
  predicate IsWhitespace(c: char)
  {
    '\U{0009}' <= c <= '\U{000D}' || c == '\U{0085}'
    || c == ' ' || c == '\U{00A0}' || c == '\U{1680}' || '\U{2000}' <= c <= '\U{200A}'
    || c == '\U{2028}' || c == '\U{2029}' || c == '\U{202F}' || c == '\U{205F}' || c == '\U{3000}'
  }

  function TrimStart(s: string): string
  {
    if s != [] && IsWhitespace(s[0]) then TrimStart(s[1..]) else s
  }

  function TrimEnd(s: string): string
  {
    if s != [] && IsWhitespace(s[|s| - 1]) then TrimEnd(s[..|s| - 1]) else s
  }

  /** trimmingCharacters(in: .whitespacesAndNewlines) */
  function Trim(s: string): string
  {
    TrimEnd(TrimStart(s))
  }

  /** The sink's lines, trimmed, with the empty ones filtered out. */
  function Normalized(lines: seq<string>): seq<string>
  {
    if lines == [] then []
    else
      var t := Trim(lines[|lines| - 1]);
      Normalized(lines[..|lines| - 1]) + (if t == [] then [] else [t])
  }

  /** TrimStart drops a whitespace prefix and nothing else, and stops at a
      visible character. */
  lemma {:induction false} TrimStartDrops(s: string)
    ensures var t := TrimStart(s);
      |t| <= |s| && t == s[|s| - |t|..]
      && (forall k :: 0 <= k < |s| - |t| ==> IsWhitespace(s[k]))
      && (t != [] ==> !IsWhitespace(t[0]))
  {
    if s != [] && IsWhitespace(s[0]) {
      var u := s[1..];
      TrimStartDrops(u);
      var t := TrimStart(u);
      assert u[|u| - |t|..] == s[|s| - |t|..];
      forall k | 0 <= k < |s| - |t|
        ensures IsWhitespace(s[k])
      {
        if k > 0 {
          assert s[k] == u[k - 1];
        }
      }
    }
  }

  /** TrimEnd drops a whitespace suffix and nothing else, and stops at a
      visible character. */
  lemma {:induction false} TrimEndDrops(s: string)
    ensures var t := TrimEnd(s);
      |t| <= |s| && t == s[..|t|]
      && (forall k :: |t| <= k < |s| ==> IsWhitespace(s[k]))
      && (t != [] ==> !IsWhitespace(t[|t| - 1]))
  {
    if s != [] && IsWhitespace(s[|s| - 1]) {
      var u := s[..|s| - 1];
      TrimEndDrops(u);
      var t := TrimEnd(u);
      assert u[..|t|] == s[..|t|];
      forall k | |t| <= k < |s|
        ensures IsWhitespace(s[k])
      {
        if k < |s| - 1 {
          assert s[k] == u[k];
        }
      }
    }
  }

  /** The trimmed line is a slice of the line; everything cut off on either
      side is whitespace, and what is left starts and ends visibly. */
  lemma TrimSpec(s: string)
    ensures var t, i := Trim(s), |s| - |TrimStart(s)|;
      0 <= i && i + |t| <= |s| && t == s[i..i + |t|]
      && (forall k :: 0 <= k < i ==> IsWhitespace(s[k]))
      && (forall k :: i + |t| <= k < |s| ==> IsWhitespace(s[k]))
      && (t != [] ==> !IsWhitespace(t[0]) && !IsWhitespace(t[|t| - 1]))
  {
    var u := TrimStart(s);
    var i := |s| - |u|;
    TrimStartDrops(s);
    TrimEndDrops(u);
    var t := TrimEnd(u);
    assert t == u[..|t|];
    assert u[..|t|] == s[i..i + |t|];
    forall k | i + |t| <= k < |s|
      ensures IsWhitespace(s[k])
    {
      assert s[k] == u[k - i];
    }
    if t != [] {
      assert t[0] == u[0];
    }
  }

  /** Trimming twice is trimming once. */
  lemma TrimIdempotent(s: string)
    ensures Trim(Trim(s)) == Trim(s)
  {
    TrimSpec(s);
    var t := Trim(s);
    if t != [] {
      TrimVisible(t);
    }
  }

  /** Every compared line is non-empty and already trimmed, there are no more
      of them than written lines, and there are none exactly when every
      written line is blank. */
  lemma {:induction false} NormalizedSpec(lines: seq<string>)
    ensures var a := Normalized(lines);
      |a| <= |lines| && (forall i :: 0 <= i < |a| ==> a[i] != [] && Trim(a[i]) == a[i])
      && (a == [] <==> forall i :: 0 <= i < |lines| ==> Trim(lines[i]) == [])
  {
    if lines != [] {
      var n := |lines|;
      var init := lines[..n - 1];
      NormalizedSpec(init);
      var t := Trim(lines[n - 1]);
      TrimIdempotent(lines[n - 1]);
      assert forall i :: 0 <= i < n - 1 ==> init[i] == lines[i];
      var a := Normalized(lines);
      assert a == Normalized(init) + (if t == [] then [] else [t]);
      if a == [] {
        forall i | 0 <= i < n
          ensures Trim(lines[i]) == []
        {
          if i < n - 1 {
            assert Trim(init[i]) == [];
          }
        }
      }
    }
  }

  /** The comparison's normal form is a fixed point. */
  lemma NormalizedIdempotent(lines: seq<string>)
    ensures Normalized(Normalized(lines)) == Normalized(lines)
  {
    var a := Normalized(lines);
    NormalizedSpec(lines);
    NormalizedTrimmed(a, a);
  }

  /** Normalizing works line by line: the compared lines of a + b are those
      of a followed by those of b. With NormalizedOne, the compared lines are
      the non-empty trims of the written lines, in the order written. */
  lemma {:induction false} NormalizedAppend(a: seq<string>, b: seq<string>)
    ensures Normalized(a + b) == Normalized(a) + Normalized(b)
  {
    if b == [] {
      assert a + b == a;
    } else {
      var init, x := b[..|b| - 1], b[|b| - 1];
      assert b == init + [x];
      assert a + b == (a + init) + [x];
      NormalizedAppend(a, init);
      NormalizedSnoc(a + init, x);
      NormalizedSnoc(init, x);
    }
  }

  lemma NormalizedSnoc(init: seq<string>, x: string)
    ensures Normalized(init + [x]) == Normalized(init) + Normalized([x])
  {
    var c := init + [x];
    assert c[..|c| - 1] == init;
    NormalizedOne(x);
  }

  /** One written line contributes its trim exactly when that is non-empty. */
  lemma NormalizedOne(line: string)
    ensures Normalized([line]) == (if Trim(line) == [] then [] else [Trim(line)])
  {
    assert [line][..0] == [];
  }

  /** zip(expectedLines, actual): the lines agree pairwise as far as both go. */
  predicate PrintedAs(actual: seq<string>, expected: seq<string>)
  {
    var a := Normalized(actual);
    forall i :: 0 <= i < |a| && i < |expected| ==> a[i] == expected[i]
  }

  /** assertIsPrintedAs: a fresh sink, a reporter writing to it, one report,
      then the comparison. */
  method AssertIsPrintedAs(ex: UnitExponents, results: seq<BenchmarkResult>, counterOrder: seq<string>, expected: seq<string>)
    returns (passed: bool)
    requires EnumeratesCounters(counterOrder, results)
    ensures passed <==> PrintedAs(ReportLines(ex, results, counterOrder), expected)
  {
    var output := new MockTextOutputStream();
    var reporter := new PlainTextReporter(output, ex);
    reporter.Report(results, counterOrder);
    assert output.lines == [] + ReportLines(ex, results, counterOrder);
    var written := output.lines;
    assert written == ReportLines(ex, results, counterOrder);
    passed := PrintedAs(written, expected);
  }

  /** When every line trims to the expected one, the comparison sees exactly
      the expected lines, and accepts them. */
  lemma NormalizedTrimmed(lines: seq<string>, expected: seq<string>)
    requires |lines| == |expected|
    requires forall i :: 0 <= i < |lines| ==> expected[i] != [] && Trim(lines[i]) == expected[i]
    ensures Normalized(lines) == expected
    ensures PrintedAs(lines, expected)
  {
    NormalizedOfTrims(lines, expected);
  }

  lemma {:induction false} NormalizedOfTrims(lines: seq<string>, expected: seq<string>)
    requires |lines| == |expected|
    requires forall i :: 0 <= i < |lines| ==> expected[i] != [] && Trim(lines[i]) == expected[i]
    ensures Normalized(lines) == expected
  {
    if lines != [] {
      var n := |lines|;
      var init, x, e := lines[..n - 1], lines[n - 1], expected[..n - 1];
      assert lines == init + [x];
      assert expected == e + [expected[n - 1]];
      NormalizedOfTrims(init, e);
      NormalizedSnoc(init, x);
    }
  }

  lemma NormalizedOf4(l0: string, l1: string, l2: string, l3: string, e0: string, e1: string, e2: string, e3: string)
    requires e0 != [] && e1 != [] && e2 != [] && e3 != []
    requires Trim(l0) == e0 && Trim(l1) == e1 && Trim(l2) == e2 && Trim(l3) == e3
    ensures Normalized([l0, l1, l2, l3]) == [e0, e1, e2, e3]
    ensures PrintedAs([l0, l1, l2, l3], [e0, e1, e2, e3])
  {
    NormalizedTrimmed([l0, l1, l2, l3], [e0, e1, e2, e3]);
  }

  lemma NormalizedOf6(l0: string, l1: string, l2: string, l3: string, l4: string, l5: string,
                      e0: string, e1: string, e2: string, e3: string, e4: string, e5: string)
    requires e0 != [] && e1 != [] && e2 != [] && e3 != [] && e4 != [] && e5 != []
    requires Trim(l0) == e0 && Trim(l1) == e1 && Trim(l2) == e2
    requires Trim(l3) == e3 && Trim(l4) == e4 && Trim(l5) == e5
    ensures Normalized([l0, l1, l2, l3, l4, l5]) == [e0, e1, e2, e3, e4, e5]
  {
    NormalizedTrimmed([l0, l1, l2, l3, l4, l5], [e0, e1, e2, e3, e4, e5]);
  }

  /** A normalized line that differs from its expected line fails the
      comparison. */
  lemma DisagreesAt(lines: seq<string>, expected: seq<string>, i: nat, a: string, e: string)
    requires i < |Normalized(lines)| && i < |expected|
    requires Normalized(lines)[i] == a && expected[i] == e && a != e
    ensures !PrintedAs(lines, expected)
  {
  }

  /** A line that starts and ends with a visible character is left as it is. */
  lemma TrimVisible(s: string)
    requires s != [] && !IsWhitespace(s[0]) && !IsWhitespace(s[|s| - 1])
    ensures Trim(s) == s
  {
  }

  lemma {:induction false} TrimEndSpaces(s: string, k: nat)
    requires s != [] && !IsWhitespace(s[|s| - 1])
    ensures TrimEnd(s + Spaces(k)) == s
  {
    if k > 0 {
      var t := s + Spaces(k);
      assert t[..|t| - 1] == s + Spaces(k - 1);
      TrimEndSpaces(s, k - 1);
    }
  }

  /** Trailing padding is trimmed away. */
  lemma TrimPadded(s: string, k: nat)
    requires s != [] && !IsWhitespace(s[0]) && !IsWhitespace(s[|s| - 1])
    ensures Trim(s + Spaces(k)) == s
  {
    var t := s + Spaces(k);
    assert t[0] == s[0];
    TrimEndSpaces(s, k);
  }

  lemma {:induction false} JoinFirst(cells: seq<string>)
    requires |cells| >= 1 && cells[0] != []
    ensures Join(cells) != [] && Join(cells)[0] == cells[0][0]
  {
    if |cells| > 1 {
      JoinFirst(cells[..|cells| - 1]);
    }
  }

  lemma JoinLast(cells: seq<string>)
    requires |cells| >= 1 && cells[|cells| - 1] != []
    ensures var l, c := Join(cells), cells[|cells| - 1]; l != [] && l[|l| - 1] == c[|c| - 1]
  {
  }

  /** A joined line whose first cell starts and whose last cell ends with a
      visible character is left as it is. */
  lemma TrimJoin(cells: seq<string>)
    requires |cells| >= 1 && cells[0] != [] && cells[|cells| - 1] != []
    requires !IsWhitespace(cells[0][0])
    requires var c := cells[|cells| - 1]; !IsWhitespace(c[|c| - 1])
    ensures Trim(Join(cells)) == Join(cells)
  {
    JoinFirst(cells);
    JoinLast(cells);
    TrimVisible(Join(cells));
  }

  /** A line whose last cell is text padded with k spaces trims to the line
      with the bare text. */
  lemma TrimJoinPadded(cells: seq<string>, last: string, k: nat)
    requires |cells| >= 2 && cells[0] != [] && !IsWhitespace(cells[0][0])
    requires last != [] && !IsWhitespace(last[|last| - 1]) && cells[|cells| - 1] == last + Spaces(k)
    ensures Trim(Join(cells)) == Join(cells[..|cells| - 1] + [last])
  {
    var n := |cells|;
    var init := cells[..n - 1];
    var bare := init + [last];
    assert bare[..n - 1] == init;
    assert Join(cells) == Join(bare) + Spaces(k);
    TrimJoin(bare);
    JoinFirst(bare);
    JoinLast(bare);
    TrimPadded(Join(bare), k);
  }

  /** A line whose last cell is blank trims to the line without it. */
  lemma TrimJoinBlank(cells: seq<string>, k: nat)
    requires |cells| >= 2 && cells[0] != [] && !IsWhitespace(cells[0][0])
    requires var c := cells[|cells| - 2]; c != [] && !IsWhitespace(c[|c| - 1])
    requires cells[|cells| - 1] == Spaces(k)
    ensures Trim(Join(cells)) == Join(cells[..|cells| - 1])
  {
    var n := |cells|;
    var init := cells[..n - 1];
    assert init[n - 2] == cells[n - 2];
    assert Join(cells) == Join(init) + Spaces(k + 1);
    JoinFirst(init);
    JoinLast(init);
    TrimPadded(Join(init), k + 1);
  }

  lemma TrimDashes(n: nat)
    requires n >= 1
    ensures Trim(Dashes(n)) == Dashes(n)
  {
    TrimVisible(Dashes(n));
  }
}
