/** Fuzzy comparisons, interval tests and small numeric helpers
    (include/YODA/Utils/MathUtils.h), with every `double` taken as a real. */
module MathUtils {
  import opened Wrappers

  /** Default absolute tolerance of isZero: 1E-8. */
  const ZeroTolerance: real := 0.00000001
  /** Default relative tolerance of the fuzzy comparisons: 1E-5. */
  const FuzzyTolerance: real := 0.00001

  function Abs(x: real): real { if x < 0.0 then -x else x }

  // ---------------------------------------------------------------------------
  // Comparisons

  /** isZero(double): |val| < tolerance, a strict test. */
  predicate IsZero(val: real, tolerance: real := ZeroTolerance) {
    Abs(val) < tolerance
  }

  /** isZero(long): exact, the tolerance is ignored. */
  predicate IsZeroLong(val: int, tolerance: real := ZeroTolerance) {
    val == 0
  }

  /** fuzzyEquals(double): both values near zero (always with isZero's own
      default tolerance), or a difference below the tolerance relative to the
      mean absolute value. */
  predicate FuzzyEquals(a: real, b: real, tolerance: real := FuzzyTolerance) {
    (IsZero(a) && IsZero(b)) || Abs(a - b) < tolerance * ((Abs(a) + Abs(b)) / 2.0)
  }

  /** fuzzyEquals(long): exact. */
  predicate FuzzyEqualsLong(a: int, b: int, tolerance: real := FuzzyTolerance) {
    a == b
  }

  predicate FuzzyGtrEquals(a: real, b: real, tolerance: real := FuzzyTolerance) {
    a > b || FuzzyEquals(a, b, tolerance)
  }

  predicate FuzzyGtrEqualsLong(a: int, b: int, tolerance: real := FuzzyTolerance) {
    a >= b
  }

  predicate FuzzyLessEquals(a: real, b: real, tolerance: real := FuzzyTolerance) {
    a < b || FuzzyEquals(a, b, tolerance)
  }

  predicate FuzzyLessEqualsLong(a: int, b: int, tolerance: real := FuzzyTolerance) {
    a <= b
  }

  lemma FuzzyEqualsSymmetric(a: real, b: real, tolerance: real)
    ensures FuzzyEquals(a, b, tolerance) == FuzzyEquals(b, a, tolerance)
  {
    assert Abs(a - b) == Abs(b - a);
  }

  lemma FuzzyEqualsReflexive(a: real, tolerance: real)
    requires tolerance > 0.0
    ensures FuzzyEquals(a, a, tolerance)
  {
    if a != 0.0 {
      assert Abs(a) > 0.0;
      assert tolerance * ((Abs(a) + Abs(a)) / 2.0) == tolerance * Abs(a);
    }
  }

  /** The near-zero branch of fuzzyEquals ignores the caller's tolerance: two
      values below 1E-8 in magnitude are equal even for a zero or negative
      tolerance. */
  lemma FuzzyEqualsNearZeroIgnoresTolerance(a: real, b: real, tolerance: real)
    requires Abs(a) < ZeroTolerance && Abs(b) < ZeroTolerance
    ensures FuzzyEquals(a, b, tolerance)
  {
  }

  /** With a non-positive tolerance only the near-zero branch can hold. */
  lemma FuzzyEqualsNonPositiveTolerance(a: real, b: real, tolerance: real)
    requires tolerance <= 0.0
    ensures FuzzyEquals(a, b, tolerance) <==> IsZero(a) && IsZero(b)
  {
    var m := (Abs(a) + Abs(b)) / 2.0;
    assert m >= 0.0;
    assert tolerance * m <= 0.0;
  }

  lemma FuzzyOrderDuality(a: real, b: real, tolerance: real)
    ensures FuzzyGtrEquals(a, b, tolerance) == FuzzyLessEquals(b, a, tolerance)
  {
    FuzzyEqualsSymmetric(a, b, tolerance);
  }

  /** For a positive tolerance, every pair is ordered one way or the other,
      and exact order implies the fuzzy one. */
  lemma FuzzyOrderTotal(a: real, b: real, tolerance: real)
    requires tolerance > 0.0
    ensures FuzzyGtrEquals(a, b, tolerance) || FuzzyLessEquals(a, b, tolerance)
    ensures a >= b ==> FuzzyGtrEquals(a, b, tolerance)
    ensures a <= b ==> FuzzyLessEquals(a, b, tolerance)
  {
    if a == b { FuzzyEqualsReflexive(a, tolerance); }
  }

  // ---------------------------------------------------------------------------
  // Intervals

  /** RangeBoundary: OPEN (= SOFT) excludes the bound, CLOSED (= HARD) includes it. */
  datatype RangeBoundary = Open | Closed

  /** inRange for floating-point values; the default interval is [low, high). */
  predicate InRange(value: real, low: real, high: real,
                    lowbound: RangeBoundary := Closed, highbound: RangeBoundary := Open)
  {
    if lowbound == Open && highbound == Open then value > low && value < high
    else if lowbound == Open && highbound == Closed then value > low && value <= high
    else if lowbound == Closed && highbound == Open then value >= low && value < high
    else value >= low && value <= high
  }

  predicate InRangePair(value: real, lowhigh: (real, real),
                        lowbound: RangeBoundary := Closed, highbound: RangeBoundary := Open)
  {
    InRange(value, lowhigh.0, lowhigh.1, lowbound, highbound)
  }

  /** inRange for ints; unlike the floating-point form, the default is [low, high]. */
  predicate InRangeInt(value: int, low: int, high: int,
                       lowbound: RangeBoundary := Closed, highbound: RangeBoundary := Closed)
  {
    if lowbound == Open && highbound == Open then value > low && value < high
    else if lowbound == Open && highbound == Closed then value > low && value <= high
    else if lowbound == Closed && highbound == Open then value >= low && value < high
    else value >= low && value <= high
  }

  /** The pair form for ints defaults to [low, high) again. */
  predicate InRangeIntPair(value: int, lowhigh: (int, int),
                           lowbound: RangeBoundary := Closed, highbound: RangeBoundary := Open)
  {
    InRangeInt(value, lowhigh.0, lowhigh.1, lowbound, highbound)
  }

  /** What each overload's defaults mean, and how the four interval kinds nest. */
  lemma InRangeDefaults(v: real, lo: real, hi: real, i: int, ilo: int, ihi: int)
    ensures InRange(v, lo, hi) <==> lo <= v < hi
    ensures InRangePair(v, (lo, hi)) <==> lo <= v < hi
    ensures InRangeInt(i, ilo, ihi) <==> ilo <= i <= ihi
    ensures InRangeIntPair(i, (ilo, ihi)) <==> ilo <= i < ihi
    ensures InRange(v, lo, hi, Open, Open) ==> InRange(v, lo, hi, Closed, Open) && InRange(v, lo, hi, Open, Closed)
    ensures InRange(v, lo, hi, Closed, Open) || InRange(v, lo, hi, Open, Closed) ==> InRange(v, lo, hi, Closed, Closed)
  {
  }

  // ---------------------------------------------------------------------------
  // Miscellaneous helpers

  function Sqr(a: real): (r: real)
    ensures r >= 0.0
    ensures r == Abs(a) * Abs(a)
  {
    a * a
  }

  /** sign(double): ZERO (0) inside the isZero band, otherwise PLUS (1) or MINUS (-1). */
  function Sign(val: real): (r: int)
    ensures r == 0 <==> Abs(val) < ZeroTolerance
    ensures r == 1 <==> val >= ZeroTolerance
    ensures r == -1 <==> val <= -ZeroTolerance
  {
    assert IsZero(val) <==> Abs(val) < ZeroTolerance;
    if IsZero(val) then 0 else if val > 0.0 then 1 else -1
  }

  /** sign(int) and sign(long): exact zero test. */
  function SignInt(val: int): (r: int)
    ensures r * val >= 0 && (r == 0 <==> val == 0) && -1 <= r <= 1
  {
    if val == 0 then 0 else if val > 0 then 1 else -1
  }

  // ---------------------------------------------------------------------------
  // Binning helpers

  /** linspace: nbins equal steps from start; the last value is `end` itself,
      not start + nbins * interval. The source asserts end >= start and nbins > 0. */
  method Linspace(nbins: nat, start: real, end: real, includeEnd: bool := true) returns (rtn: seq<real>)
    requires end >= start
    requires nbins > 0
    ensures |rtn| == if includeEnd then nbins + 1 else nbins
    ensures forall i :: 0 <= i < nbins ==> rtn[i] == start + (i as real) * ((end - start) / (nbins as real))
    ensures includeEnd ==> rtn[nbins] == end && rtn == LinspaceValues(nbins, start, end)
  {
    var interval := (end - start) / (nbins as real);
    var edge := start;
    rtn := [];
    var i := 0;
    while i < nbins
      invariant 0 <= i <= nbins
      invariant |rtn| == i
      invariant edge == start + (i as real) * interval
      invariant forall j :: 0 <= j < i ==> rtn[j] == start + (j as real) * interval
    {
      rtn := rtn + [edge];
      edge := edge + interval;
      i := i + 1;
    }
    if includeEnd {
      rtn := rtn + [end];
      assert forall j :: 0 <= j <= nbins ==> rtn[j] == LinspaceValues(nbins, start, end)[j];
    }
  }

  /** The values linspace produces, as a function. */
  function LinspaceValues(nbins: nat, start: real, end: real): (r: seq<real>)
    requires nbins > 0
    ensures |r| == nbins + 1
  {
    seq(nbins + 1, i requires 0 <= i <= nbins =>
      if i == nbins then end else start + (i as real) * ((end - start) / (nbins as real)))
  }

  /** linspace with end > start yields strictly increasing edges, from start to end. */
  lemma LinspaceIncreasing(nbins: nat, start: real, end: real)
    requires nbins > 0 && end > start
    ensures LinspaceValues(nbins, start, end)[0] == start
    ensures LinspaceValues(nbins, start, end)[nbins] == end
    ensures forall i :: 0 < i <= nbins ==> LinspaceValues(nbins, start, end)[i - 1] < LinspaceValues(nbins, start, end)[i]
  {
    var r := LinspaceValues(nbins, start, end);
    var interval := (end - start) / (nbins as real);
    assert interval > 0.0;
    forall i | 0 < i <= nbins
      ensures r[i - 1] < r[i]
    {
      if i < nbins {
        assert r[i] == r[i - 1] + interval;
      } else {
        assert (nbins as real) * interval == end - start;
        assert ((nbins - 1) as real) * interval < (nbins as real) * interval;
      }
    }
  }

  /** index_between: -1 when val is outside [front, back); otherwise the first
      k with val < edges[k+1]. The front() call needs a non-empty vector. */
  method IndexBetween(val: real, binedges: seq<real>) returns (index: int)
    requires |binedges| > 0
    ensures -1 <= index <= |binedges| - 2
    ensures index == -1 <==> !InRange(val, binedges[0], binedges[|binedges| - 1])
    ensures index >= 0 ==> binedges[index] <= val < binedges[index + 1]
    ensures index >= 0 ==> forall j :: 0 < j <= index ==> binedges[j] <= val
  {
    if !InRange(val, binedges[0], binedges[|binedges| - 1]) {
      return -1;
    }
    index := -1;
    var i := 1;
    while i < |binedges|
      invariant 1 <= i <= |binedges|
      invariant forall j :: 0 <= j < i ==> binedges[j] <= val
    {
      if val < binedges[i] {
        index := i - 1;
        return;
      }
      i := i + 1;
    }
    assert false;
  }

  /** For sorted edges the index_between result is the unique k with
      edges[k] <= val < edges[k+1]. */
  lemma IndexBetweenUnique(binedges: seq<real>, val: real, k: int, k2: int)
    requires forall i, j :: 0 <= i < j < |binedges| ==> binedges[i] <= binedges[j]
    requires 0 <= k < |binedges| - 1 && binedges[k] <= val < binedges[k + 1]
    requires 0 <= k2 < |binedges| - 1 && binedges[k2] <= val < binedges[k2 + 1]
    ensures k == k2
  {
  }

  // ---------------------------------------------------------------------------
  // Statistics

  function SumInts(s: seq<int>): int {
    if s == [] then 0 else SumInts(s[..|s| - 1]) + s[|s| - 1]
  }

  /** mean: sum over size; an empty sample gives 0.0/0, i.e. NaN. */
  function MeanOf(s: seq<int>): Double {
    if |s| == 0 then NaN else Num((SumInts(s) as real) / (|s| as real))
  }

  method Mean(sample: seq<int>) returns (m: Double)
    ensures m == MeanOf(sample)
    ensures |sample| == 0 <==> m.NaN?
  {
    var total := 0.0;
    var i := 0;
    while i < |sample|
      invariant 0 <= i <= |sample|
      invariant total == SumInts(sample[..i]) as real
    {
      assert sample[..i + 1][..i] == sample[..i];
      total := total + (sample[i] as real);
      i := i + 1;
    }
    assert sample[..|sample|] == sample;
    if |sample| == 0 {
      m := NaN;
    } else {
      m := Num(total / (|sample| as real));
    }
  }

  /** The mean of a sample of k copies of c is c. */
  lemma {:induction false} SumIntsConstant(s: seq<int>, c: int)
    requires forall i :: 0 <= i < |s| ==> s[i] == c
    ensures SumInts(s) == |s| * c
  {
    if s != [] {
      SumIntsConstant(s[..|s| - 1], c);
    }
  }

  lemma MeanOfConstant(s: seq<int>, c: int)
    requires |s| > 0
    requires forall i :: 0 <= i < |s| ==> s[i] == c
    ensures MeanOf(s) == Num(c as real)
  {
    SumIntsConstant(s, c);
    assert (SumInts(s) as real) == (|s| as real) * (c as real);
  }

  /** Sum of (s1[i] - m1)(s2[i] - m2) over the first n positions. */
  function CovSum(s1: seq<int>, s2: seq<int>, m1: real, m2: real, n: nat): real
    requires n <= |s1| && n <= |s2|
  {
    if n == 0 then 0.0
    else CovSum(s1, s2, m1, m2, n - 1) + ((s1[n - 1] as real) - m1) * ((s2[n - 1] as real) - m2)
  }

  /** covariance: the loop runs over sample1's length; samples of 0 or 1
      entries give 0. */
  function CovarianceOf(s1: seq<int>, s2: seq<int>): real
    requires |s1| <= |s2|
  {
    var n := |s1|;
    if n > 1 then
      CovSum(s1, s2, MeanOf(s1).v, MeanOf(s2).v, n) / ((n - 1) as real)
    else 0.0
  }

  /** The second sample is read at every index of the first. */
  method Covariance(sample1: seq<int>, sample2: seq<int>) returns (c: real)
    requires |sample1| <= |sample2|
    ensures c == CovarianceOf(sample1, sample2)
  {
    var mean1 := Mean(sample1);
    var mean2 := Mean(sample2);
    var n := |sample1|;
    if n <= 1 {
      return 0.0;
    }
    var cov := 0.0;
    var i := 0;
    while i < n
      invariant 0 <= i <= n
      invariant cov == CovSum(sample1, sample2, mean1.v, mean2.v, i)
    {
      cov := cov + ((sample1[i] as real) - mean1.v) * ((sample2[i] as real) - mean2.v);
      i := i + 1;
    }
    c := cov / ((n - 1) as real);
  }

  lemma {:induction false} CovSumSymmetric(s1: seq<int>, s2: seq<int>, m1: real, m2: real, n: nat)
    requires n <= |s1| && n <= |s2|
    ensures CovSum(s1, s2, m1, m2, n) == CovSum(s2, s1, m2, m1, n)
  {
    if n > 0 {
      CovSumSymmetric(s1, s2, m1, m2, n - 1);
      var a := (s1[n - 1] as real) - m1;
      var b := (s2[n - 1] as real) - m2;
      assert a * b == b * a;
    }
  }

  lemma {:induction false} CovSumConstantFirst(s1: seq<int>, s2: seq<int>, c: int, m2: real, n: nat)
    requires n <= |s1| && n <= |s2|
    requires forall i :: 0 <= i < |s1| ==> s1[i] == c
    ensures CovSum(s1, s2, c as real, m2, n) == 0.0
  {
    if n > 0 {
      CovSumConstantFirst(s1, s2, c, m2, n - 1);
      var a := (s1[n - 1] as real) - (c as real);
      var b := (s2[n - 1] as real) - m2;
      assert CovSum(s1, s2, c as real, m2, n) == CovSum(s1, s2, c as real, m2, n - 1) + a * b;
      assert a == 0.0;
      assert a * b == 0.0;
    }
  }

  /** Covariance of equal-length samples is symmetric, and a constant sample has
      zero covariance with anything. */
  lemma CovarianceProperties(s1: seq<int>, s2: seq<int>)
    requires |s1| == |s2|
    ensures CovarianceOf(s1, s2) == CovarianceOf(s2, s1)
    ensures (forall i :: 0 <= i < |s1| ==> s1[i] == s1[0]) ==> CovarianceOf(s1, s2) == 0.0
  {
    if |s1| > 1 {
      CovSumSymmetric(s1, s2, MeanOf(s1).v, MeanOf(s2).v, |s1|);
      if forall i :: 0 <= i < |s1| ==> s1[i] == s1[0] {
        MeanOfConstant(s1, s1[0]);
        CovSumConstantFirst(s1, s2, s1[0], MeanOf(s2).v, |s1|);
      }
    }
  }

  // ---------------------------------------------------------------------------
  // Integer division

  lemma MulLe(x: int, y: int, n: int)
    requires x <= y && n >= 0
    ensures x * n <= y * n
  {
    var d := y - x;
    assert y * n == x * n + d * n;
  }

  /** Euclidean division is determined by quotient and remainder. */
  lemma DivUnique(a: int, n: int, q: int, r: int)
    requires n > 0 && 0 <= r < n && a == q * n + r
    ensures a / n == q
  {
    var q0, r0 := a / n, a % n;
    assert a == q0 * n + r0;
    if q0 < q {
      assert (q0 + 1) * n == q0 * n + n;
      MulLe(q0 + 1, q, n);
    } else if q0 > q {
      assert (q + 1) * n == q * n + n;
      MulLe(q + 1, q0, n);
    }
  }
}
