/** Exact decimal numbers m / 10^k and their text forms.
    The reporter prints every number it computes from integer nanosecond
    samples; those numbers are exact decimal fractions, so they are modelled
    here without floating point. */
module Decimals {

  datatype Option<T> = None | Some(value: T)

  /** The number mantissa / 10^scale. */
  datatype Decimal = Decimal(mantissa: nat, scale: nat)

  function Pow10(k: nat): (p: nat)
    ensures p >= 1
  {
    if k == 0 then 1 else 10 * Pow10(k - 1)
  }

  lemma {:induction false} Pow10Add(a: nat, b: nat)
    ensures Pow10(a + b) == Pow10(a) * Pow10(b)
  {
    if a > 0 {
      Pow10Add(a - 1, b);
      assert Pow10(a + b) == 10 * Pow10(a - 1 + b);
    }
  }

  /** Two decimals denote the same number. */
  predicate SameValue(x: Decimal, y: Decimal) {
    x.mantissa * Pow10(y.scale) == y.mantissa * Pow10(x.scale)
  }

  predicate IsDigit(c: char) { '0' <= c <= '9' }

  predicate AllDigits(s: string) { forall i :: 0 <= i < |s| ==> IsDigit(s[i]) }

  function Digit(d: nat): (c: char)
    requires d < 10
    ensures IsDigit(c) && c as int - '0' as int == d
  {
    ('0' as int + d) as char
  }

  /** The number a string of decimal digits spells (most significant first). */
  function DigitsValue(s: string): nat
    requires AllDigits(s)
  {
    if s == [] then 0 else 10 * DigitsValue(s[..|s| - 1]) + (s[|s| - 1] as int - '0' as int)
  }

  /** Swift's integer description: the decimal digits of n, no leading zero. */
  function NatToString(n: nat): (s: string)
    ensures |s| >= 1 && AllDigits(s)
    ensures n >= 1 ==> s[0] != '0'
  {
    if n < 10 then [Digit(n)] else NatToString(n / 10) + [Digit(n % 10)]
  }

  lemma {:induction false} NatToStringValue(n: nat)
    ensures DigitsValue(NatToString(n)) == n
  {
    var s := NatToString(n);
    if n >= 10 {
      NatToStringValue(n / 10);
      assert s[..|s| - 1] == NatToString(n / 10);
    }
  }

  /** The last k digits of r, zero-padded on the left to exactly k digits. */
  function FixedDigits(r: nat, k: nat): (s: string)
    ensures |s| == k && AllDigits(s)
  {
    if k == 0 then "" else FixedDigits(r / 10, k - 1) + [Digit(r % 10)]
  }

  /** m with its last k digits taken off: the whole part of m / 10^k. */
  function Shift(m: nat, k: nat): nat
  {
    if k == 0 then m else Shift(m / 10, k - 1)
  }

  /** m splits into its whole part and its last k digits. */
  lemma {:induction false} ShiftFixedDigits(m: nat, k: nat)
    ensures m == Shift(m, k) * Pow10(k) + DigitsValue(FixedDigits(m, k))
    ensures DigitsValue(FixedDigits(m, k)) < Pow10(k)
  {
    if k > 0 {
      var s := FixedDigits(m, k);
      var t := FixedDigits(m / 10, k - 1);
      ShiftFixedDigits(m / 10, k - 1);
      assert s[..k - 1] == t;
      assert DigitsValue(s) == 10 * DigitsValue(t) + m % 10;
      SplitArith(m, Shift(m / 10, k - 1), Pow10(k - 1), DigitsValue(t));
    }
  }

  lemma SplitArith(m: nat, q: nat, p: nat, t: nat)
    requires m / 10 == q * p + t && t < p
    ensures m == q * (10 * p) + (10 * t + m % 10)
    ensures 10 * t + m % 10 < 10 * p
  {
    assert m == 10 * (m / 10) + m % 10;
    assert 10 * (q * p) == q * (10 * p);
  }

  /** Drops trailing zeros, keeping at least one digit. */
  function DropZeros(f: string): (t: string)
    requires |f| >= 1 && AllDigits(f)
    ensures 1 <= |t| <= |f| && t == f[..|t|] && AllDigits(t)
    ensures |t| == 1 || t[|t| - 1] != '0'
  {
    if |f| > 1 && f[|f| - 1] == '0' then DropZeros(f[..|f| - 1]) else f
  }

  lemma {:induction false} DropZerosValue(f: string)
    requires |f| >= 1 && AllDigits(f)
    ensures DigitsValue(DropZeros(f)) * Pow10(|f| - |DropZeros(f)|) == DigitsValue(f)
  {
    if |f| > 1 && f[|f| - 1] == '0' {
      var g := f[..|f| - 1];
      DropZerosValue(g);
      var t := DropZeros(g);
      assert DigitsValue(f) == 10 * DigitsValue(g);
      assert Pow10(|f| - |t|) == 10 * Pow10(|g| - |t|);
      MulAssoc10(DigitsValue(t), Pow10(|g| - |t|), DigitsValue(g));
    }
  }

  lemma MulAssoc10(a: nat, b: nat, c: nat)
    requires a * b == c
    ensures a * (10 * b) == 10 * c
  {
  }

  /** The fractional digits of m / 10^k: shortest form, at least one digit. */
  function FractionDigits(m: nat, k: nat): (f: string)
    ensures |f| >= 1 && AllDigits(f)
    ensures |f| == 1 || f[|f| - 1] != '0'
  {
    if k == 0 then "0" else DropZeros(FixedDigits(m, k))
  }

  /** Plain decimal notation, shortest, with at least one fractional digit
      (1500.0, 0.123456789, 7.0): how Swift describes such a Double in the
      range where it does not switch to exponent form. */
  function Format(d: Decimal): string
  {
    NatToString(Shift(d.mantissa, d.scale)) + "." + FractionDigits(d.mantissa, d.scale)
  }

  /** String(format: "%.2f") of hundredths h: exactly two fractional digits. */
  function FormatHundredths(h: nat): string
  {
    NatToString(Shift(h, 2)) + "." + FixedDigits(h, 2)
  }

  /** Index of the first '.' in s, or |s| if there is none. */
  function IndexOfDot(s: string): (i: nat)
    ensures i <= |s| && (i < |s| ==> s[i] == '.')
    ensures forall j :: 0 <= j < i ==> s[j] != '.'
  {
    if s == [] then 0 else if s[0] == '.' then 0 else 1 + IndexOfDot(s[1..])
  }

  /** Reads "<digits>.<digits>" back into a decimal; the inverse of Format. */
  function Parse(s: string): Option<Decimal>
  {
    var i := IndexOfDot(s);
    if 1 <= i && i + 1 < |s| && AllDigits(s[..i]) && AllDigits(s[i + 1..]) then
      var f := s[i + 1..];
      Some(Decimal(DigitsValue(s[..i]) * Pow10(|f|) + DigitsValue(f), |f|))
    else
      None
  }

  /** A text in shortest form: no leading zero in the integer part, and no
      trailing zero in the fraction except for a lone "0". */
  predicate Canonical(s: string)
  {
    var i := IndexOfDot(s);
    1 <= i && i + 1 < |s| && (i == 1 || s[0] != '0') && (i + 2 == |s| || s[|s| - 1] != '0')
  }

  lemma IndexOfDotAfterDigits(a: string, b: string)
    requires AllDigits(a)
    ensures IndexOfDot(a + "." + b) == |a|
  {
    var s := a + "." + b;
    assert s[|a|] == '.';
    assert forall j :: 0 <= j < |a| ==> s[j] == a[j];
  }

  lemma SplitAtDot(a: string, f: string)
    requires AllDigits(a) && |a| >= 1 && AllDigits(f) && |f| >= 1
    ensures var s := a + "." + f;
      IndexOfDot(s) == |a| && s[..|a|] == a && s[|a| + 1..] == f
      && Parse(s) == Some(Decimal(DigitsValue(a) * Pow10(|f|) + DigitsValue(f), |f|))
  {
    var s := a + "." + f;
    IndexOfDotAfterDigits(a, f);
    assert s[..|a|] == a;
    assert s[|a| + 1..] == f;
    ParseAt(s, |a|, a, f);
  }

  lemma ParseAt(s: string, i: nat, a: string, f: string)
    requires IndexOfDot(s) == i && 1 <= i && i + 1 < |s|
    requires s[..i] == a && s[i + 1..] == f && AllDigits(a) && AllDigits(f)
    ensures Parse(s) == Some(Decimal(DigitsValue(a) * Pow10(|f|) + DigitsValue(f), |f|))
  {
  }

  lemma MulShift(v: int, pf: int, pd: int, r: int)
    requires v * pd == r
    ensures v * (pf * pd) == r * pf
  {
    assert v * (pf * pd) == (v * pd) * pf;
  }

  lemma RescaleArith(m: int, q: int, r: int, v: int, pf: int, pk: int)
    requires m == q * pk + r && v * pk == r * pf
    ensures (q * pf + v) * pk == m * pf
  {
  }

  /** The shortened fraction denotes the same r / 10^k as the k padded digits. */
  lemma FractionDigitsValue(m: nat, k: nat)
    ensures var f := FractionDigits(m, k);
      DigitsValue(f) * Pow10(k) == DigitsValue(FixedDigits(m, k)) * Pow10(|f|)
  {
    var f := FractionDigits(m, k);
    var g := FixedDigits(m, k);
    if k > 0 {
      DropZerosValue(g);
      Pow10Add(|f|, k - |f|);
      MulShift(DigitsValue(f), Pow10(|f|), Pow10(k - |f|), DigitsValue(g));
    }
  }

  /** "<digits of q>.<f>" reads back as q + f / 10^|f|. */
  lemma DigitsDotParses(q: nat, f: string)
    requires |f| >= 1 && AllDigits(f)
    ensures Parse(NatToString(q) + "." + f) == Some(Decimal(q * Pow10(|f|) + DigitsValue(f), |f|))
  {
    SplitAtDot(NatToString(q), f);
    NatToStringValue(q);
  }

  lemma DigitsDotCanonical(q: nat, f: string)
    requires |f| >= 1 && AllDigits(f) && (|f| == 1 || f[|f| - 1] != '0')
    ensures Canonical(NatToString(q) + "." + f)
  {
    var a := NatToString(q);
    var s := a + "." + f;
    IndexOfDotAfterDigits(a, f);
    assert s[0] == a[0];
    assert s[|s| - 1] == f[|f| - 1];
  }

  /** Format's text reads back as the same number, and is in shortest form. */
  lemma FormatRoundTrip(d: Decimal)
    ensures Parse(Format(d)).Some? && SameValue(Parse(Format(d)).value, d)
    ensures Canonical(Format(d))
  {
    FormatReadsBack(d);
    DigitsDotCanonical(Shift(d.mantissa, d.scale), FractionDigits(d.mantissa, d.scale));
  }

  lemma FormatReadsBack(d: Decimal)
    ensures Parse(Format(d)).Some? && SameValue(Parse(Format(d)).value, d)
  {
    var m, k := d.mantissa, d.scale;
    var q, f := Shift(m, k), FractionDigits(m, k);
    var x := Decimal(q * Pow10(|f|) + DigitsValue(f), |f|);
    FormatParsesTo(d, q, f, x);
    FormatValue(d, q, f, x);
  }

  lemma FormatParsesTo(d: Decimal, q: nat, f: string, x: Decimal)
    requires q == Shift(d.mantissa, d.scale) && f == FractionDigits(d.mantissa, d.scale)
    requires x == Decimal(q * Pow10(|f|) + DigitsValue(f), |f|)
    ensures Parse(Format(d)) == Some(x)
  {
    DigitsDotParses(q, f);
  }

  lemma FormatValue(d: Decimal, q: nat, f: string, x: Decimal)
    requires q == Shift(d.mantissa, d.scale) && f == FractionDigits(d.mantissa, d.scale)
    requires x == Decimal(q * Pow10(|f|) + DigitsValue(f), |f|)
    ensures SameValue(x, d)
  {
    var m, k := d.mantissa, d.scale;
    var v, r := DigitsValue(f), DigitsValue(FixedDigits(m, k));
    var pf, pk := Pow10(|f|), Pow10(k);
    ShiftFixedDigits(m, k);
    FractionDigitsValue(m, k);
    RescaleArith(m, q, r, v, pf, pk);
    SameValueBy(x, d, pf, pk);
  }

  lemma SameValueBy(x: Decimal, y: Decimal, px: nat, py: nat)
    requires px == Pow10(x.scale) && py == Pow10(y.scale) && x.mantissa * py == y.mantissa * px
    ensures SameValue(x, y)
  {
  }

  /** The two-decimal text reads back as exactly h hundredths, has exactly
      two digits after the point, and no leading zero before it. */
  lemma FormatHundredthsRoundTrip(h: nat)
    ensures var t := FormatHundredths(h);
      Parse(t) == Some(Decimal(h, 2)) && IndexOfDot(t) + 3 == |t| && (IndexOfDot(t) == 1 || t[0] != '0')
  {
    var a := NatToString(Shift(h, 2));
    var f := FixedDigits(h, 2);
    SplitAtDot(a, f);
    assert (a + "." + f)[0] == a[0];
    NatToStringValue(Shift(h, 2));
    ShiftFixedDigits(h, 2);
  }
}
