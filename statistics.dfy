/** The statistics the reporter shows for one benchmark: the mean of its
    samples, and their relative standard deviation in hundredths of a
    percent. Samples are integer nanoseconds, so both are computed exactly. */
module Statistics {
  import opened Decimals

  function Sum(xs: seq<nat>): nat
  {
    if xs == [] then 0 else Sum(xs[..|xs| - 1]) + xs[|xs| - 1]
  }

  /** Every sample multiplied by c. */
  function Scaled(c: nat, xs: seq<nat>): (ys: seq<nat>)
    ensures |ys| == |xs| && forall i :: 0 <= i < |xs| ==> ys[i] == c * xs[i]
  {
    seq(|xs|, i requires 0 <= i < |xs| => c * xs[i])
  }

  /** The mean of xs is a terminating decimal (so no Double rounding is
      involved in printing it): n divides S * 10^n, which holds exactly when
      S / n has a finite decimal expansion. An empty list has mean 0. */
  predicate ExactMean(xs: seq<nat>)
  {
    |xs| == 0 || (Sum(xs) * Pow10(|xs|)) % |xs| == 0
  }

  /** The arithmetic mean as a decimal with |xs| fractional digits; 0 when
      there are no samples. */
  function Mean(xs: seq<nat>): (d: Decimal)
    ensures ExactMean(xs) ==> d.mantissa * |xs| == Sum(xs) * Pow10(d.scale)
    ensures |xs| == 0 ==> d.mantissa == 0
  {
    if |xs| == 0 then Decimal(0, 0) else Decimal(Sum(xs) * Pow10(|xs|) / |xs|, |xs|)
  }

  /** The sum of (n * x - s)^2 over the samples x: with s the sum and n the
      count this is n^2 times the sum of squared deviations from the mean. */
  function SquaredDeviations(xs: seq<nat>, n: nat, s: int): nat
  {
    if xs == [] then 0
    else SquaredDeviations(xs[..|xs| - 1], n, s) + (n * xs[|xs| - 1] - s) * (n * xs[|xs| - 1] - s)
  }

  /** h is the nearest integer to sqrt(num / den) (halves round up). */
  predicate IsRoundedSqrt(num: nat, den: nat, h: nat)
  {
    (h == 0 || (2 * h - 1) * (2 * h - 1) * den <= 4 * num) && 4 * num < (2 * h + 1) * (2 * h + 1) * den
  }

  predicate AtMostRoot(num: nat, den: nat, h: nat)
  {
    h == 0 || (2 * h - 1) * (2 * h - 1) * den <= 4 * num
  }

  function RoundSqrtSearch(num: nat, den: nat, lo: nat, hi: nat): (h: nat)
    requires lo < hi && AtMostRoot(num, den, lo) && !AtMostRoot(num, den, hi)
    ensures lo <= h < hi && AtMostRoot(num, den, h) && !AtMostRoot(num, den, h + 1)
    decreases hi - lo
  {
    if hi - lo == 1 then lo
    else
      var mid := (lo + hi) / 2;
      if AtMostRoot(num, den, mid) then RoundSqrtSearch(num, den, mid, hi)
      else RoundSqrtSearch(num, den, lo, mid)
  }

  lemma SquareAtLeast(a: nat, den: nat)
    requires den >= 1
    ensures a * a * den >= a
  {
    if a > 0 {
      assert a * a >= a;
      assert a * a * den >= a * a;
    }
  }

  function RoundSqrt(num: nat, den: nat): (h: nat)
    requires den > 0
    ensures IsRoundedSqrt(num, den, h)
  {
    SquareAtLeast(4 * num + 1, den);
    RoundSqrtSearch(num, den, 0, 2 * num + 1)
  }

  lemma SquareMono(a: nat, b: nat, den: nat)
    requires a <= b
    ensures a * a * den <= b * b * den
  {
    assert a * a <= a * b <= b * b;
  }

  /** The rounded square root is unique. */
  lemma RoundedSqrtUnique(num: nat, den: nat, h: nat, k: nat)
    requires IsRoundedSqrt(num, den, h) && IsRoundedSqrt(num, den, k)
    ensures h == k
  {
    if h < k {
      SquareMono(2 * h + 1, 2 * k - 1, den);
    } else if k < h {
      SquareMono(2 * k + 1, 2 * h - 1, den);
    }
  }

  /** The relative sample standard deviation (the sum of squared deviations
      divided by n - 1) as a percentage of the mean, rounded to hundredths:
      the nearest integer to 10^4 * sd / mean. Fewer than two samples, or a
      zero mean, give 0. */
  function RelativeStdHundredths(xs: seq<nat>): (h: nat)
    ensures |xs| < 2 || Sum(xs) == 0 ==> h == 0
    ensures |xs| >= 2 && Sum(xs) > 0 ==>
      IsRoundedSqrt(100000000 * SquaredDeviations(xs, |xs|, Sum(xs)), (|xs| - 1) * Sum(xs) * Sum(xs), h)
  {
    var n, s := |xs|, Sum(xs);
    if n < 2 || s == 0 then 0
    else RoundSqrt(100000000 * SquaredDeviations(xs, n, s), (n - 1) * s * s)
  }

  lemma {:induction false} SumScaled(c: nat, xs: seq<nat>)
    ensures Sum(Scaled(c, xs)) == c * Sum(xs)
  {
    if xs != [] {
      var n := |xs|;
      var ys, init := Scaled(c, xs), xs[..n - 1];
      SumScaled(c, init);
      assert ys[..n - 1] == Scaled(c, init);
      assert Sum(ys) == Sum(Scaled(c, init)) + c * xs[n - 1];
      Distribute(c, Sum(init), xs[n - 1]);
    }
  }

  lemma Distribute(c: int, a: int, b: int)
    ensures c * a + c * b == c * (a + b)
  {
  }

  lemma {:induction false} SquaredDeviationsScaled(c: nat, xs: seq<nat>, n: nat, s: nat)
    ensures SquaredDeviations(Scaled(c, xs), n, c * s) == c * c * SquaredDeviations(xs, n, s)
  {
    if xs != [] {
      var m := |xs|;
      var ys, init := Scaled(c, xs), xs[..m - 1];
      var x, y := xs[m - 1], ys[m - 1];
      SquaredDeviationsScaled(c, init, n, s);
      assert ys[..m - 1] == Scaled(c, init);
      ScaledSquare(c, n, x, y, s);
      Distribute(c * c, SquaredDeviations(init, n, s), (n * x - s) * (n * x - s));
    }
  }

  /** The deviation of a scaled sample from the scaled sum is c times the
      unscaled one. */
  lemma ScaledSquare(c: int, n: int, x: int, y: int, s: int)
    requires y == c * x
    ensures (n * y - c * s) * (n * y - c * s) == c * c * ((n * x - s) * (n * x - s))
  {
    var e := n * x - s;
    assert n * y - c * s == c * e;
    assert (c * e) * (c * e) == c * c * (e * e);
  }

  lemma MulLe(f: nat, a: int, b: int)
    requires a <= b
    ensures f * a <= f * b
  {
  }

  lemma MulLt(f: nat, a: int, b: int)
    requires f > 0 && a < b
    ensures f * a < f * b
  {
  }

  lemma MulSwap(x: int, f: int, y: int)
    ensures x * (f * y) == f * (x * y)
  {
  }

  lemma RoundedSqrtScaled(num: nat, den: nat, f: nat, h: nat)
    requires f > 0 && IsRoundedSqrt(num, den, h)
    ensures IsRoundedSqrt(f * num, f * den, h)
  {
    var aa, bb := (2 * h - 1) * (2 * h - 1), (2 * h + 1) * (2 * h + 1);
    MulLt(f, 4 * num, bb * den);
    MulSwap(4, f, num);
    MulSwap(bb, f, den);
    if h > 0 {
      MulLe(f, aa * den, 4 * num);
      MulSwap(aa, f, den);
    }
  }

  lemma DenominatorScaled(m: int, c: int, s: int)
    ensures m * (c * s) * (c * s) == c * c * (m * s * s)
  {
    assert (c * s) * (c * s) == (c * c) * (s * s);
    assert m * (c * s) * (c * s) == m * ((c * s) * (c * s));
    assert m * s * s == m * (s * s);
  }

  /** Multiplying every sample by the same factor leaves the relative
      deviation unchanged: the table shows 47.14 % both for 1000 and 2000 ns
      and for 1000000 and 2000000 ns. */
  lemma RelativeStdScaleInvariant(c: nat, xs: seq<nat>)
    requires c > 0
    ensures RelativeStdHundredths(Scaled(c, xs)) == RelativeStdHundredths(xs)
  {
    var ys := Scaled(c, xs);
    var n, s := |xs|, Sum(xs);
    SumScaled(c, xs);
    if n >= 2 && s > 0 {
      MulLt(c, 0, s);
      MulLt(c, 0, c);
      SquaredDeviationsScaled(c, xs, n, s);
      var d := SquaredDeviations(xs, n, s);
      MulSwap(100000000, c * c, d);
      DenominatorScaled(n - 1, c, s);
      SameRoundedSqrt(100000000 * d, (n - 1) * s * s, c * c,
        RelativeStdHundredths(xs), RelativeStdHundredths(ys),
        100000000 * SquaredDeviations(ys, n, c * s), (n - 1) * (c * s) * (c * s));
    }
  }

  /** Scaling numerator and denominator by the same factor keeps the rounded
      square root. */
  lemma SameRoundedSqrt(num: nat, den: nat, f: nat, h: nat, k: nat, num': nat, den': nat)
    requires f > 0 && IsRoundedSqrt(num, den, h) && IsRoundedSqrt(num', den', k)
    requires num' == f * num && den' == f * den
    ensures h == k
  {
    RoundedSqrtScaled(num, den, f, h);
    RoundedSqrtUnique(num', den', h, k);
  }

  predicate AllEqual(xs: seq<nat>, v: nat)
  {
    forall i :: 0 <= i < |xs| ==> xs[i] == v
  }

  lemma {:induction false} SumAllEqual(xs: seq<nat>, v: nat)
    requires AllEqual(xs, v)
    ensures Sum(xs) == |xs| * v
  {
    if xs != [] {
      SumAllEqual(xs[..|xs| - 1], v);
    }
  }

  lemma {:induction false} SquaredDeviationsAllEqual(xs: seq<nat>, n: nat, v: nat)
    requires AllEqual(xs, v)
    ensures SquaredDeviations(xs, n, n * v) == 0
  {
    if xs != [] {
      SquaredDeviationsAllEqual(xs[..|xs| - 1], n, v);
    }
  }

  /** Samples that are all the same have no spread. */
  lemma RelativeStdOfEqualSamples(xs: seq<nat>, v: nat)
    requires AllEqual(xs, v)
    ensures RelativeStdHundredths(xs) == 0
  {
    var n := |xs|;
    SumAllEqual(xs, v);
    if n >= 2 && Sum(xs) > 0 {
      SquaredDeviationsAllEqual(xs, n, v);
      RoundedSqrtUnique(0, (n - 1) * Sum(xs) * Sum(xs), 0, RelativeStdHundredths(xs));
    }
  }
}
