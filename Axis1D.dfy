/** The 1D bin container of include/YODA/Axis1D.h, for Histo1D's bins and
    distributions (Axis1D<HistoBin1D, Dbn1D>).

    The axis owns the bin vector, the total, underflow and overflow
    distributions, the lock flag, and the table the bin searcher is built
    from: the searcher `edges` and the slot-to-bin `indexes` (-1 for a gap or
    an outflow). Every structural change goes through `UpdateAxis`.
 */
module Axis1D {
  import opened Wrappers
  import opened MathUtils
  import opened Dbn
  import opened Bins
  import opened AxisLayout

  /** The bins [e[i], e[i+1]) for i < n, or the RangeError of the first
      bin that would have zero or negative width. */
  function EdgeBins(e: seq<real>, n: nat): (r: Result<seq<HistoBin1D>>)
    requires n < |e|
    ensures r.Ok? <==> forall i :: 0 <= i < n ==> e[i] < e[i + 1]
    ensures r.Err? ==> r.error == RangeError
    ensures r.Ok? ==> |r.value| == n && ValidBins(r.value)
    ensures r.Ok? ==> forall i :: 0 <= i < n ==> r.value[i] == HistoBin1D(e[i], e[i + 1], Zero1D())
  {
    if n == 0 then Ok([])
    else
      var prev :- EdgeBins(e, n - 1);
      var b :- MkBin(e[n - 1], e[n]);
      Ok(prev + [b])
  }

  /** A pair of consecutive edges out of order makes every longer prefix
      fail with the RangeError. */
  lemma EdgeBinsStopped(e: seq<real>, i: nat)
    requires 0 < i < |e| && !(e[i - 1] < e[i])
    ensures EdgeBins(e, |e| - 1) == Err(RangeError)
  {
  }

  /** The bins of (low, high) pairs, or the RangeError of the first invalid pair. */
  function PairBins(pairs: seq<(real, real)>): (r: Result<seq<HistoBin1D>>)
    ensures r.Ok? <==> forall i :: 0 <= i < |pairs| ==> pairs[i].0 < pairs[i].1
    ensures r.Err? ==> r.error == RangeError
    ensures r.Ok? ==> |r.value| == |pairs| && ValidBins(r.value)
    ensures r.Ok? ==> forall i :: 0 <= i < |pairs| ==> r.value[i] == HistoBin1D(pairs[i].0, pairs[i].1, Zero1D())
  {
    if pairs == [] then Ok([])
    else
      var prev :- PairBins(pairs[..|pairs| - 1]);
      var b :- MkBin(pairs[|pairs| - 1].0, pairs[|pairs| - 1].1);
      Ok(prev + [b])
  }

  /** `mergeBins`' accumulated bin: bin f after absorbing bins f+1..t. */
  function MergeRange(bins: seq<HistoBin1D>, f: nat, t: nat): (r: HistoBin1D)
    requires f <= t < |bins|
    ensures r.xMin == bins[f].xMin && r.xMax == bins[t].xMax
    ensures r.dbn == SumDbns(bins[f..t + 1])
    decreases t
  {
    if t == f then
      Add1DLaws(Zero1D(), bins[f].dbn, Zero1D());
      assert bins[f..t + 1] == [bins[f]];
      bins[f]
    else
      var r := MergeBin(MergeRange(bins, f, t - 1), bins[t]);
      assert bins[f..t + 1][..t - f] == bins[f..t];
      r
  }

  /** The sum of the distributions of a run of bins. */
  function SumDbns(s: seq<HistoBin1D>): Dbn1D {
    if s == [] then Zero1D() else Add1D(SumDbns(s[..|s| - 1]), s[|s| - 1].dbn)
  }

  /** The bins after merging bins f..t into one. */
  function MergedBins(bins: seq<HistoBin1D>, f: nat, t: nat): (r: seq<HistoBin1D>)
    requires f <= t < |bins|
    ensures |r| == |bins| - (t - f)
    ensures forall i :: 0 <= i < f ==> r[i] == bins[i]
    ensures r[f] == MergeRange(bins, f, t)
    ensures forall i :: f < i < |r| ==> r[i] == bins[i + (t - f)]
  {
    bins[..f] + [MergeRange(bins, f, t)] + bins[t + 1..]
  }

  /** Merging a run of bins of a sorted, laid-out vector leaves it sorted
      and laid out: the merged bin spans the run, so it overlaps neither
      neighbour. */
  lemma MergeKeepsLayout(bins: seq<HistoBin1D>, f: nat, t: nat)
    requires ValidBins(bins) && SortedBins(bins) && Layout(bins).Ok? && f < t < |bins|
    ensures ValidBins(MergedBins(bins, f, t))
    ensures SortedBins(MergedBins(bins, f, t))
    ensures Layout(MergedBins(bins, f, t)).Ok?
  {
    var r := MergedBins(bins, f, t);
    MergedValid(bins, f, t);
    forall i | 0 <= i < |r| - 1 ensures !BinLess(r[i + 1], r[i]) {
      MergedPairSorted(bins, f, t, i);
    }
    forall i | 0 <= i < |r| ensures !Overlap(r, i) {
      MergedNoOverlapAt(bins, f, t, i);
    }
  }

  lemma MergedValid(bins: seq<HistoBin1D>, f: nat, t: nat)
    requires ValidBins(bins) && Layout(bins).Ok? && f < t < |bins|
    ensures ValidBins(MergedBins(bins, f, t))
    ensures XWidth(bins[f]) < XWidth(MergedBins(bins, f, t)[f])
  {
    UpperEdgesIncrease(bins, f, t);
  }

  lemma MergedPairSorted(bins: seq<HistoBin1D>, f: nat, t: nat, i: nat)
    requires ValidBins(bins) && SortedBins(bins) && Layout(bins).Ok? && f < t < |bins|
    requires i < |MergedBins(bins, f, t)| - 1
    ensures !BinLess(MergedBins(bins, f, t)[i + 1], MergedBins(bins, f, t)[i])
  {
    var r := MergedBins(bins, f, t);
    var d := t - f;
    if i + 1 < f {
      assert !BinLess(bins[i + 1], bins[i]);
    } else if i + 1 == f {
      assert !BinLess(bins[f], bins[f - 1]);
      UpperEdgesIncrease(bins, f, t);
    } else if i == f {
      SortedLowerEdges(bins, f, t + 1);
      UpperEdgesIncrease(bins, t, t + 1);
    } else {
      assert r[i + 1] == bins[i + 1 + d] && r[i] == bins[i + d];
      assert !BinLess(bins[i + 1 + d], bins[i + d]);
    }
  }

  lemma MergedNoOverlapAt(bins: seq<HistoBin1D>, f: nat, t: nat, i: nat)
    requires ValidBins(bins) && Layout(bins).Ok? && f < t < |bins|
    requires i < |MergedBins(bins, f, t)|
    ensures ValidBins(MergedBins(bins, f, t)) && !Overlap(MergedBins(bins, f, t), i)
  {
    MergedValid(bins, f, t);
    var r := MergedBins(bins, f, t);
    var d := t - f;
    if 0 < i < f {
      assert !Overlap(bins, i);
    } else if 0 < i == f {
      assert !Overlap(bins, f);
      assert r[f - 1] == bins[f - 1] && r[f].xMin == bins[f].xMin;
      WiderSpanNoOverlap(bins[f].xMin - bins[f - 1].xMax, XWidth(bins[f]), XWidth(r[f]));
    } else if i == f + 1 {
      assert !Overlap(bins, t + 1);
      assert RelDiff(r, i) == RelDiff(bins, t + 1);
    } else if i > f + 1 {
      assert !Overlap(bins, i + d);
      assert RelDiff(r, i) == RelDiff(bins, i + d);
    }
  }

  /** A relative difference that is not below -tolerance stays so for a
      wider bin. */
  lemma WiderSpanNoOverlap(d: real, w0: real, w1: real)
    requires 0.0 < w0 <= w1 && d / w0 >= -RelTolerance
    ensures d / w1 >= -RelTolerance
  {
    assert d >= -RelTolerance * w0 by {
      assert (d / w0) * w0 == d;
    }
    if d < 0.0 {
      assert -RelTolerance * w1 <= -RelTolerance * w0;
      assert (d / w1) * w1 == d;
    }
  }

  /** The end index of rebin's merge at m: m + n - 1 as a size_t, or the
      last bin when that is not a bin index. */
  function RebinEnd(count: nat, n: ULong, m: nat): (r: nat)
    requires m < count
    ensures r < count
    ensures 1 <= m + n <= ULongModulus && m + n - 1 < count ==> r == m + n - 1
    ensures 1 <= m + n <= ULongModulus && m + n - 1 >= count ==> r == count - 1
  {
    var e := (m + n + ULongModulus - 1) % ULongModulus;
    assert 1 <= m + n <= ULongModulus ==> e == m + n - 1;
    if e < count then e else count - 1
  }

  /** What `rebin(n)` produces from step m on, for sorted laid-out bins:
      each merge of bins m..end either meets a gap (a RangeError) or
      replaces them by their merged bin. */
  function RebinBins(bins: seq<HistoBin1D>, n: ULong, m: nat): Result<seq<HistoBin1D>>
    requires ValidBins(bins) && SortedBins(bins) && Layout(bins).Ok? && m <= |bins|
    decreases |bins| - m
  {
    if m == |bins| then Ok(bins)
    else
      var end := RebinEnd(|bins|, n, m);
      if end <= m then RebinBins(bins, n, m + 1)
      else if exists j :: m < j <= end && Gap(bins, j) then Err(RangeError)
      else
        MergeKeepsLayout(bins, m, end);
        RebinBins(MergedBins(bins, m, end), n, m + 1)
  }

  /** What `rebin(n)` leaves from step m on: the bins as the completed
      merges left them, and whether a merge met a gap and threw. */
  datatype Rebinned = Rebinned(bins: seq<HistoBin1D>, threw: bool)

  function RebinRun(bins: seq<HistoBin1D>, n: ULong, m: nat): Rebinned
    requires ValidBins(bins) && SortedBins(bins) && Layout(bins).Ok? && m <= |bins|
    decreases |bins| - m
  {
    if m == |bins| then Rebinned(bins, false)
    else
      var end := RebinEnd(|bins|, n, m);
      if end <= m then RebinRun(bins, n, m + 1)
      else if exists j :: m < j <= end && Gap(bins, j) then Rebinned(bins, true)
      else
        MergeKeepsLayout(bins, m, end);
        RebinRun(MergedBins(bins, m, end), n, m + 1)
  }

  /** One step of RebinBins. */
  lemma RebinUnfold(bins: seq<HistoBin1D>, n: ULong, m: nat)
    requires ValidBins(bins) && SortedBins(bins) && Layout(bins).Ok? && m < |bins|
    ensures var end := RebinEnd(|bins|, n, m);
      && (end <= m ==> RebinBins(bins, n, m) == RebinBins(bins, n, m + 1))
      && (end > m && (exists j :: m < j <= end && Gap(bins, j)) ==> RebinBins(bins, n, m) == Err(RangeError))
      && (end > m && !(exists j :: m < j <= end && Gap(bins, j)) ==>
            ValidBins(MergedBins(bins, m, end)) && SortedBins(MergedBins(bins, m, end))
            && Layout(MergedBins(bins, m, end)).Ok?
            && RebinBins(bins, n, m) == RebinBins(MergedBins(bins, m, end), n, m + 1))
  {
    var end := RebinEnd(|bins|, n, m);
    if end > m {
      MergeKeepsLayout(bins, m, end);
    }
  }

  /** The rebin throws exactly when RebinBins fails, and otherwise leaves
      the bins RebinBins yields. */
  lemma {:induction false} RebinRunAgrees(bins: seq<HistoBin1D>, n: ULong, m: nat)
    requires ValidBins(bins) && SortedBins(bins) && Layout(bins).Ok? && m <= |bins|
    ensures RebinRun(bins, n, m).threw <==> RebinBins(bins, n, m).Err?
    ensures RebinBins(bins, n, m).Ok? ==> RebinRun(bins, n, m).bins == RebinBins(bins, n, m).value
    decreases |bins| - m
  {
    if m < |bins| {
      RebinUnfold(bins, n, m);
      RebinRunUnfold(bins, n, m);
      var end := RebinEnd(|bins|, n, m);
      if end <= m {
        RebinRunAgrees(bins, n, m + 1);
      } else if !exists j :: m < j <= end && Gap(bins, j) {
        RebinRunAgrees(MergedBins(bins, m, end), n, m + 1);
      }
    }
  }

  /** One step of RebinRun. */
  lemma RebinRunUnfold(bins: seq<HistoBin1D>, n: ULong, m: nat)
    requires ValidBins(bins) && SortedBins(bins) && Layout(bins).Ok? && m < |bins|
    ensures var end := RebinEnd(|bins|, n, m);
      && (end <= m ==> RebinRun(bins, n, m) == RebinRun(bins, n, m + 1))
      && (end > m && (exists j :: m < j <= end && Gap(bins, j)) ==> RebinRun(bins, n, m) == Rebinned(bins, true))
      && (end > m && !(exists j :: m < j <= end && Gap(bins, j)) ==>
            ValidBins(MergedBins(bins, m, end)) && SortedBins(MergedBins(bins, m, end))
            && Layout(MergedBins(bins, m, end)).Ok?
            && RebinRun(bins, n, m) == RebinRun(MergedBins(bins, m, end), n, m + 1))
  {
    var end := RebinEnd(|bins|, n, m);
    if end > m {
      MergeKeepsLayout(bins, m, end);
    }
  }

  /** rebin(1) changes nothing. */
  lemma {:induction false} RebinByOne(bins: seq<HistoBin1D>, m: nat)
    requires ValidBins(bins) && SortedBins(bins) && Layout(bins).Ok? && m <= |bins| < ULongModulus
    ensures RebinBins(bins, 1, m) == Ok(bins)
    decreases |bins| - m
  {
    if m < |bins| {
      assert RebinEnd(|bins|, 1, m) == m;
      RebinByOne(bins, m + 1);
    }
  }

  /** rebin(0): m + n - 1 wraps to the largest size_t at m = 0, so all bins
      are merged into one, unless there is a gap. */
  lemma RebinByZero(bins: seq<HistoBin1D>)
    requires ValidBins(bins) && SortedBins(bins) && Layout(bins).Ok? && 2 <= |bins| < ULongModulus
    ensures RebinBins(bins, 0, 0) ==
      if exists j :: 0 < j < |bins| && Gap(bins, j) then Err(RangeError)
      else Ok([MergeRange(bins, 0, |bins| - 1)])
  {
    var last := |bins| - 1;
    assert RebinEnd(|bins|, 0, 0) == last;
    if !exists j :: 0 < j <= last && Gap(bins, j) {
      MergeKeepsLayout(bins, 0, last);
      assert MergedBins(bins, 0, last) == [MergeRange(bins, 0, last)];
    }
  }

  /** rebin(n) for n >= 1 leaves ceil(N / n) bins, counting from step m. */
  lemma {:induction false} RebinCount(bins: seq<HistoBin1D>, n: ULong, m: nat)
    requires ValidBins(bins) && SortedBins(bins) && Layout(bins).Ok? && m <= |bins|
    requires 1 <= n && |bins| + n <= ULongModulus
    ensures RebinBins(bins, n, m).Ok? ==> |RebinBins(bins, n, m).value| == m + CeilDiv(|bins| - m, n)
    decreases |bins| - m, 1
  {
    var L := |bins|;
    if m < L {
      var end := RebinEnd(L, n, m);
      if end <= m {
        assert RebinBins(bins, n, m) == RebinBins(bins, n, m + 1);
        RebinStepCount(L, n, m, end, L);
        RebinCount(bins, n, m + 1);
      } else if !exists j :: m < j <= end && Gap(bins, j) {
        RebinCountMerge(bins, n, m, end);
      }
    }
  }

  lemma {:induction false} RebinCountMerge(bins: seq<HistoBin1D>, n: ULong, m: nat, end: nat)
    requires ValidBins(bins) && SortedBins(bins) && Layout(bins).Ok? && m < |bins|
    requires 1 <= n && |bins| + n <= ULongModulus
    requires end == RebinEnd(|bins|, n, m) && end > m && !exists j :: m < j <= end && Gap(bins, j)
    ensures RebinBins(bins, n, m).Ok? ==> |RebinBins(bins, n, m).value| == m + CeilDiv(|bins| - m, n)
    decreases |bins| - m, 0
  {
    var merged := MergedBins(bins, m, end);
    RebinMergeStep(bins, n, m, end);
    RebinStepCount(|bins|, n, m, end, |merged|);
    RebinCount(merged, n, m + 1);
  }

  /** A merging step of RebinBins. */
  lemma RebinMergeStep(bins: seq<HistoBin1D>, n: ULong, m: nat, end: nat)
    requires ValidBins(bins) && SortedBins(bins) && Layout(bins).Ok? && m < |bins|
    requires end == RebinEnd(|bins|, n, m) && end > m && !exists j :: m < j <= end && Gap(bins, j)
    ensures ValidBins(MergedBins(bins, m, end)) && SortedBins(MergedBins(bins, m, end))
    ensures Layout(MergedBins(bins, m, end)).Ok?
    ensures RebinBins(bins, n, m) == RebinBins(MergedBins(bins, m, end), n, m + 1)
  {
    RebinUnfold(bins, n, m);
  }

  /** One step of rebin takes ceil((L - m) / n) down by one while m moves on. */
  lemma RebinStepCount(L: nat, n: nat, m: nat, end: nat, L1: nat)
    requires m < L && 1 <= n && L + n <= ULongModulus
    requires end == RebinEnd(L, n, m)
    requires L1 == if end > m then L - (end - m) else L
    ensures L1 >= m + 1
    ensures m + 1 + CeilDiv(L1 - (m + 1), n) == m + CeilDiv(L - m, n)
  {
    if m + n - 1 < L {
      assert end == m + n - 1;
    } else {
      assert end == L - 1;
    }
  }

  /** ceil(k / n), by whole steps of n. */
  function CeilDiv(k: nat, n: nat): nat
    requires n >= 1
    decreases k
  {
    if k == 0 then 0 else if k <= n then 1 else 1 + CeilDiv(k - n, n)
  }

  /** CeilDiv is the ceiling of k / n. */
  lemma {:induction false} CeilDivIsCeiling(k: nat, n: nat)
    requires n >= 1
    ensures CeilDiv(k, n) == (k + n - 1) / n
    decreases k
  {
    if k == 0 {
      DivUnique(n - 1, n, 0, n - 1);
    } else {
      CeilStep(k, n);
      if k > n {
        CeilDivIsCeiling(k - n, n);
        CeilStep(k - n, n);
        assert (k - 1) / n == 1 + (k - n - 1) / n by {
          var q, r := (k - n - 1) / n, (k - n - 1) % n;
          DivUnique(k - 1, n, q + 1, r);
        }
      }
    }
  }

  /** ceil(k / n) for k >= 1 is one more than ceil((k - n) / n), or 1 when k <= n. */
  lemma CeilStep(k: nat, n: nat)
    requires k >= 1 && n >= 1
    ensures (k + n - 1) / n == 1 + (k - 1) / n
    ensures k <= n ==> (k + n - 1) / n == 1
  {
    var q, r := (k - 1) / n, (k - 1) % n;
    assert k - 1 == q * n + r;
    assert k + n - 1 == (q + 1) * n + r;
    DivUnique(k + n - 1, n, q + 1, r);
    if k <= n {
      DivUnique(k - 1, n, 0, k - 1);
    }
  }

  function ScaleWBins(bins: seq<HistoBin1D>, s: real): (r: seq<HistoBin1D>)
    ensures |r| == |bins|
    ensures forall i :: 0 <= i < |bins| ==> r[i] == ScaleWBin(bins[i], s)
  {
    seq(|bins|, i requires 0 <= i < |bins| => ScaleWBin(bins[i], s))
  }

  /** Bin-wise `+=` of two equally binned vectors. */
  function AddBinsStats(a: seq<HistoBin1D>, b: seq<HistoBin1D>): (r: seq<HistoBin1D>)
    requires |a| == |b|
    ensures |r| == |a|
    ensures forall i :: 0 <= i < |a| ==> r[i] == AddStats(a[i], b[i])
  {
    seq(|a|, i requires 0 <= i < |a| => AddStats(a[i], b[i]))
  }

  /** Bin-wise `-=` of two equally binned vectors. */
  function SubBinsStats(a: seq<HistoBin1D>, b: seq<HistoBin1D>): (r: seq<HistoBin1D>)
    requires |a| == |b|
    ensures |r| == |a|
    ensures forall i :: 0 <= i < |a| ==> r[i] == SubStats(a[i], b[i])
  {
    seq(|a|, i requires 0 <= i < |a| => SubStats(a[i], b[i]))
  }

  /** Subtracting what was added restores every bin, fill counts included. */
  lemma SubtractUndoesAdd(a: seq<HistoBin1D>, b: seq<HistoBin1D>)
    requires |a| == |b|
    ensures SubBinsStats(AddBinsStats(a, b), b) == a
  {
    var r := SubBinsStats(AddBinsStats(a, b), b);
    forall i | 0 <= i < |a| ensures r[i] == a[i] {
      Add1DLaws(a[i].dbn, b[i].dbn, b[i].dbn);
    }
  }

  /** Equality of axes: bin count and fuzzy-equal edges, statistics ignored. */
  predicate SameBinning(a: seq<HistoBin1D>, b: seq<HistoBin1D>) {
    |a| == |b| &&
    forall i :: 0 <= i < |a| ==> FuzzyEquals(a[i].xMin, b[i].xMin) && FuzzyEquals(a[i].xMax, b[i].xMax)
  }

  lemma SameBinningEquivalence(a: seq<HistoBin1D>, b: seq<HistoBin1D>)
    ensures SameBinning(a, a)
    ensures SameBinning(a, b) == SameBinning(b, a)
  {
    forall i | 0 <= i < |a| ensures FuzzyEquals(a[i].xMin, a[i].xMin) && FuzzyEquals(a[i].xMax, a[i].xMax) {
      FuzzyEqualsReflexive(a[i].xMin, FuzzyTolerance);
      FuzzyEqualsReflexive(a[i].xMax, FuzzyTolerance);
    }
    if |a| == |b| {
      forall i | 0 <= i < |a| ensures FuzzyEquals(a[i].xMin, b[i].xMin) == FuzzyEquals(b[i].xMin, a[i].xMin)
        && FuzzyEquals(a[i].xMax, b[i].xMax) == FuzzyEquals(b[i].xMax, a[i].xMax)
      {
        FuzzyEqualsSymmetric(a[i].xMin, b[i].xMin, FuzzyTolerance);
        FuzzyEqualsSymmetric(a[i].xMax, b[i].xMax, FuzzyTolerance);
      }
    }
  }

  /** The loop of `_updateAxis` over sorted bins: track the previous upper
      edge (minus infinity at first), stop at the first overlap, emit a gap
      slot before a bin that starts clearly after it, then the bin's slot,
      and finally the overflow slot. */
  method WalkBins(sorted: seq<HistoBin1D>) returns (ok: bool, newEdges: seq<real>, newIndexes: seq<int>)
    requires ValidBins(sorted)
    ensures ok <==> Layout(sorted).Ok?
    ensures ok ==> Table(newEdges, newIndexes) == Layout(sorted).value
  {
    newEdges, newIndexes := [], [];
    var lastHigh: Option<real> := None;  // minus infinity
    var i := 0;
    while i < |sorted|
      invariant 0 <= i <= |sorted|
      invariant NoOverlap(sorted, i)
      invariant newEdges == WalkEdges(sorted, i) && newIndexes == WalkIndexes(sorted, i)
      invariant lastHigh == if i == 0 then None else Some(sorted[i - 1].xMax)
    {
      var b := sorted[i];
      var gap := true;  // a gap after minus infinity
      if lastHigh.Some? {
        var reldiff := (b.xMin - lastHigh.value) / XWidth(b);
        if reldiff < -RelTolerance {
          assert Overlap(sorted, i);
          return false, newEdges, newIndexes;
        }
        gap := reldiff > RelTolerance;
      }
      assert gap == Gap(sorted, i) && !Overlap(sorted, i);
      WalkStep(sorted, i + 1);
      if gap {
        newIndexes := newIndexes + [-1];
        newEdges := newEdges + [b.xMin];
      }
      newIndexes := newIndexes + [i];
      newEdges := newEdges + [b.xMax];
      lastHigh := Some(b.xMax);
      i := i + 1;
    }
    newIndexes := newIndexes + [-1];
    ok := true;
  }

  /** The lookup as written: slot Slot(edges, x) of the index vector, which
      the source reads whether or not it exists. */
  function RawBinIndexAt(t: Table, x: real): (r: Option<int>)
    ensures r.Some? <==> Slot(t.edges, x) < |t.indexes|
    ensures r.Some? ==> r.value == t.indexes[Slot(t.edges, x)]
  {
    var k := Slot(t.edges, x);
    if k < |t.indexes| then Some(t.indexes[k]) else None
  }

  /** The searcher table the default constructor leaves as written: no edges
      and no slots at all. */
  function DefaultTableAsWritten(): Table { Table([], []) }

  /** binIndexAt on a default-constructed axis reads past the end of an
      empty index vector, for every x. */
  lemma DefaultLookupOutOfRange(x: real)
    ensures Slot(DefaultTableAsWritten().edges, x) == 0
    ensures RawBinIndexAt(DefaultTableAsWritten(), x) == None
  {
  }

  /** With the overflow slot the comment promises, it finds "no bin". */
  lemma CorrectedDefaultLookup(x: real)
    ensures RawBinIndexAt(Table([], [-1]), x) == Some(-1)
  {
  }

  class Axis1D {
    var bins: seq<HistoBin1D>
    var dbn: Dbn1D
    var underflow: Dbn1D
    var overflow: Dbn1D
    /** The edges the bin searcher is built from. */
    var edges: seq<real>
    /** Slot k of the searcher holds bin indexes[k], or -1 for a gap or outflow. */
    var indexes: seq<int>
    var locked: bool

    /** What holds in every reachable state: bins have positive width and the
        slot table has one more slot than edges. */
    ghost predicate Valid()
      reads this
    {
      ValidBins(bins) && |indexes| == |edges| + 1 && (forall k :: 0 <= k < |indexes| ==> -1 <= indexes[k])
    }

    /** The bins are sorted and the table is their layout, as after every
        successful rebuild. */
    ghost predicate Synced()
      reads this
    {
      Valid() && SortedBins(bins) && Layout(bins) == Ok(Table(edges, indexes))
    }

    /** The effect of `_updateAxis(candidate)`: a LockError that changes
        nothing; a RangeError for overlapping bins that keeps the old table
        (and, when the candidate is the axis' own vector, leaves it sorted in
        place); or the sorted candidate with its layout. */
    twostate predicate Rebuilt(candidate: seq<HistoBin1D>, inPlace: bool, o: Outcome)
      reads this
      requires ValidBins(candidate)
    {
      dbn == old(dbn) && underflow == old(underflow) && overflow == old(overflow) && locked == old(locked)
      && if old(locked) then
           o == Fail(LockError) && bins == old(bins) && edges == old(edges) && indexes == old(indexes)
         else if Layout(SortBins(candidate)).Ok? then
           o == Pass && bins == SortBins(candidate) && Table(edges, indexes) == Layout(SortBins(candidate)).value
         else
           o == Fail(RangeError) && edges == old(edges) && indexes == old(indexes)
           && bins == (if inPlace then SortBins(candidate) else old(bins))
    }

    /** The default constructor. The table gets its single outflow slot (see
        the finding on the default constructor). */
    constructor ()
      ensures Synced() && bins == [] && !locked
      ensures dbn == Zero1D() && underflow == Zero1D() && overflow == Zero1D()
      ensures forall x :: BinIndexAt(x) == -1
    {
      bins := [];
      dbn := Zero1D();
      underflow := Zero1D();
      overflow := Zero1D();
      edges := [];
      indexes := [-1];
      locked := false;
      assert WalkIndexes([], 0) + [-1] == [-1];
    }

    /** Axis1D(binedges): contiguous bins between consecutive edges. */
    static method FromEdges(binedges: seq<real>) returns (a: Axis1D, o: Outcome)
      ensures fresh(a) && a.Valid() && a.dbn == Zero1D() && a.underflow == Zero1D() && a.overflow == Zero1D()
      ensures o == Pass <==> forall i :: 0 <= i < |binedges| - 1 ==> binedges[i] < binedges[i + 1]
      ensures o.Fail? ==> o == Fail(RangeError) && a.bins == []
      ensures o == Pass ==> a.Synced() && !a.locked
      ensures o == Pass && |binedges| < 2 ==> a.bins == []
      ensures o == Pass && |binedges| >= 2 ==> a.bins == EdgeBins(binedges, |binedges| - 1).value
    {
      a := new Axis1D();
      if |binedges| >= 1 {
        var eb := EdgeBins(binedges, |binedges| - 1);
        if eb.Ok? {
          if |binedges| >= 2 {
            EdgeBinsIncreasingLayout(binedges);
          } else {
            assert eb.value == [];
            assert WalkIndexes([], 0) + [-1] == [-1];
          }
          assert a.bins + eb.value == eb.value;
          assert SortBins(eb.value) == eb.value;
        }
      }
      o := a.AddBinsEdges(binedges);
    }

    /** Axis1D(bins). */
    static method FromBins(newBins: seq<HistoBin1D>) returns (a: Axis1D, o: Outcome)
      requires ValidBins(newBins)
      ensures fresh(a) && a.Valid() && a.dbn == Zero1D() && a.underflow == Zero1D() && a.overflow == Zero1D()
      ensures o == (if Layout(SortBins(newBins)).Ok? then Pass else Fail(RangeError))
      ensures o == Pass ==> a.Synced() && a.bins == SortBins(newBins)
    {
      a := new Axis1D();
      assert a.bins + newBins == newBins;
      o := a.AddBinsBins(newBins);
    }

    /** Axis1D(nbins, lower, upper): nbins equal-width bins from linspace;
        a zero-width range makes every bin invalid. */
    static method FromRange(nbins: nat, lower: real, upper: real) returns (a: Axis1D, o: Outcome)
      requires nbins > 0 && upper >= lower
      ensures fresh(a) && a.Valid()
      ensures o == Pass <==> lower < upper
      ensures o.Fail? ==> o == Fail(RangeError) && a.bins == []
      ensures o == Pass ==> (a.Synced() && |a.bins| == nbins && a.bins[0].xMin == lower
        && a.bins[nbins - 1].xMax == upper)
    {
      var e := Linspace(nbins, lower, upper);
      a := new Axis1D();
      LinspaceBins(nbins, lower, upper);
      if lower < upper {
        assert a.bins + EdgeBins(e, nbins).value == EdgeBins(e, nbins).value;
      }
      o := a.AddBinsEdges(e);
    }

    /** Axis1D(bins, total, underflow, overflow). */
    static method FromBinsAndDbns(newBins: seq<HistoBin1D>, tot: Dbn1D, uflow: Dbn1D, oflow: Dbn1D)
      returns (a: Axis1D, o: Outcome)
      requires ValidBins(newBins)
      ensures fresh(a) && a.Valid() && a.dbn == tot && a.underflow == uflow && a.overflow == oflow
      ensures o == (if Layout(SortBins(newBins)).Ok? then Pass else Fail(RangeError))
      ensures o == Pass ==> a.Synced() && a.bins == SortBins(newBins)
    {
      a := new Axis1D();
      a.dbn, a.underflow, a.overflow := tot, uflow, oflow;
      assert a.bins + newBins == newBins;
      o := a.AddBinsBins(newBins);
    }

    // -------------------------------------------------------------------------
    // Accessors

    function XMin(): (r: Result<real>)
      reads this
      ensures r.Ok? <==> |bins| > 0
      ensures r.Err? ==> r.error == RangeError
      ensures r.Ok? ==> r.value == bins[0].xMin
    {
      if |bins| == 0 then Err(RangeError) else Ok(bins[0].xMin)
    }

    function XMax(): (r: Result<real>)
      reads this
      ensures r.Ok? <==> |bins| > 0
      ensures r.Err? ==> r.error == RangeError
      ensures r.Ok? ==> r.value == bins[|bins| - 1].xMax
    {
      if |bins| == 0 then Err(RangeError) else Ok(bins[|bins| - 1].xMax)
    }

    function Bin(index: nat): (r: Result<HistoBin1D>)
      reads this
      ensures r.Ok? <==> index < |bins|
      ensures r.Err? ==> r.error == RangeError
      ensures r.Ok? ==> r.value == bins[index]
    {
      if index >= |bins| then Err(RangeError) else Ok(bins[index])
    }

    /** The bin index of the searcher slot of x, or -1. */
    function BinIndexAt(x: real): (r: int)
      reads this
      requires Valid()
      ensures -1 <= r
    {
      indexes[Slot(edges, x)]
    }

    function BinAt(x: real): (r: Result<HistoBin1D>)
      reads this
      requires Valid()
      ensures BinIndexAt(x) == -1 ==> r == Err(RangeError)
      ensures BinIndexAt(x) >= 0 ==> r == Bin(BinIndexAt(x))
    {
      var index := BinIndexAt(x);
      if index == -1 then Err(RangeError) else Bin(index)
    }

    /** On a synced axis, x is found in bin i exactly when it lies in bin i's
        slot: from EffLow(i), the bin's lower edge or, without a gap, the
        previous upper edge, up to the bin's upper edge. */
    lemma BinIndexAtSpec(x: real, i: nat)
      requires Synced() && i < |bins|
      ensures BinIndexAt(x) == i <==> EffLow(bins, i) <= x < bins[i].xMax
    {
      LayoutLookup(bins, x, i);
    }

    /** On a synced axis, `binAt` throws exactly when x is in no bin's slot. */
    lemma BinAtSpec(x: real)
      requires Synced()
      ensures BinAt(x).Err? <==> forall i :: 0 <= i < |bins| ==> !(EffLow(bins, i) <= x < bins[i].xMax)
      ensures BinAt(x).Ok? ==> exists i :: (0 <= i < |bins| && BinAt(x).value == bins[i]
        && EffLow(bins, i) <= x < bins[i].xMax)
    {
      LayoutLookupNone(bins, x);
      var k := BinIndexAt(x);
      if k >= 0 {
        WalkLength(bins, |bins|);
        assert Slot(edges, x) < |WalkIndexes(bins, |bins|)|;
        WalkSlotKind(bins, |bins|, Slot(edges, x));
        LayoutLookup(bins, x, k);
      }
    }

    // -------------------------------------------------------------------------
    // Structural changes

    /** `_updateAxis(candidate)`: refuse on a locked axis, sort (in place when
        the candidate is the axis' own vector), walk the sorted bins, and
        commit the new table and bins only when the walk found no overlap. */
    method UpdateAxis(candidate: seq<HistoBin1D>, inPlace: bool) returns (o: Outcome)
      requires Valid() && ValidBins(candidate)
      requires inPlace ==> candidate == bins
      modifies this
      ensures Valid() && Rebuilt(candidate, inPlace, o)
      ensures o == Pass ==> Synced()
    {
      if locked {
        return Fail(LockError);
      }
      var sorted := SortBins(candidate);
      if inPlace {
        bins := sorted;
      }
      var ok, newEdges, newIndexes := WalkBins(sorted);
      if !ok {
        return Fail(RangeError);
      }
      LayoutShape(sorted);
      edges := newEdges;
      indexes := newIndexes;
      bins := sorted;
      o := Pass;
    }

    /** `addBin(low, high)`. */
    method AddBin(low: real, high: real) returns (o: Outcome)
      requires Valid()
      modifies this
      ensures Valid()
      ensures high <= low ==> o == Fail(RangeError) && unchanged(this)
      ensures low < high ==> Rebuilt(old(bins) + [HistoBin1D(low, high, Zero1D())], false, o)
      ensures o == Pass ==> Synced()
    {
      var b := MkBin(low, high);
      if b.Err? {
        return Fail(b.error);
      }
      o := UpdateAxis(bins + [b.value], false);
    }

    /** `addBins(binedges)`: contiguous bins between consecutive edges; an
        empty edge list returns at once. */
    method AddBinsEdges(binedges: seq<real>) returns (o: Outcome)
      requires Valid()
      modifies this
      ensures Valid()
      ensures binedges == [] ==> o == Pass && unchanged(this)
      ensures binedges != [] && EdgeBins(binedges, |binedges| - 1).Err? ==> o == Fail(RangeError) && unchanged(this)
      ensures binedges != [] && EdgeBins(binedges, |binedges| - 1).Ok? ==>
        Rebuilt(old(bins) + EdgeBins(binedges, |binedges| - 1).value, false, o)
      ensures o == Pass ==> Synced() || (binedges == [] && unchanged(this))
    {
      if |binedges| == 0 {
        return Pass;
      }
      var added := EdgeBinsLoop(binedges);
      if added.Err? {
        return Fail(added.error);
      }
      o := UpdateAxis(bins + added.value, false);
    }

    /** The loop of `addBins(binedges)` that makes a bin of each pair of
        consecutive edges, stopping at the first RangeError. */
    static method EdgeBinsLoop(binedges: seq<real>) returns (r: Result<seq<HistoBin1D>>)
      requires binedges != []
      ensures r == EdgeBins(binedges, |binedges| - 1)
    {
      var newBins := [];
      var low := binedges[0];
      var i := 1;
      while i < |binedges|
        invariant 1 <= i <= |binedges|
        invariant low == binedges[i - 1]
        invariant EdgeBins(binedges, i - 1) == Ok(newBins)
      {
        var high := binedges[i];
        var b := MkBin(low, high);
        if b.Err? {
          EdgeBinsStopped(binedges, i);
          return Err(b.error);
        }
        newBins := newBins + [b.value];
        low := high;
        i := i + 1;
      }
      r := Ok(newBins);
    }

    /** `addBins(binpairs)`. */
    method AddBinsPairs(pairs: seq<(real, real)>) returns (o: Outcome)
      requires Valid()
      modifies this
      ensures Valid()
      ensures PairBins(pairs).Err? ==> o == Fail(RangeError) && unchanged(this)
      ensures PairBins(pairs).Ok? ==> Rebuilt(old(bins) + PairBins(pairs).value, false, o)
      ensures o == Pass ==> Synced()
    {
      var newBins := bins;
      var i := 0;
      while i < |pairs|
        invariant 0 <= i <= |pairs|
        invariant PairBins(pairs[..i]).Ok? && newBins == bins + PairBins(pairs[..i]).value
      {
        assert pairs[..i + 1][..i] == pairs[..i];
        var b := MkBin(pairs[i].0, pairs[i].1);
        if b.Err? {
          assert PairBins(pairs[..i + 1]).Err?;
          return Fail(b.error);
        }
        newBins := newBins + [b.value];
        i := i + 1;
      }
      assert pairs[..|pairs|] == pairs;
      o := UpdateAxis(newBins, false);
    }

    /** `addBins(bins)`: copies of the given bins, statistics included. */
    method AddBinsBins(newBins: seq<HistoBin1D>) returns (o: Outcome)
      requires Valid() && ValidBins(newBins)
      modifies this
      ensures Valid() && Rebuilt(old(bins) + newBins, false, o)
      ensures o == Pass ==> Synced()
    {
      var all := bins;
      var i := 0;
      while i < |newBins|
        invariant 0 <= i <= |newBins|
        invariant all == bins + newBins[..i]
      {
        all := all + [newBins[i]];
        i := i + 1;
      }
      assert newBins[..|newBins|] == newBins;
      o := UpdateAxis(all, false);
    }

    /** `eraseBin(i)`: remove one bin, rebuilding with the lock lifted; the
        lock is restored when the rebuild succeeds. */
    method EraseBin(i: nat) returns (o: Outcome)
      requires Valid()
      modifies this
      ensures Valid()
      ensures i >= old(|bins|) ==> o == Fail(RangeError) && unchanged(this)
      ensures i < old(|bins|) ==> ErasedTo(old(bins)[..i] + old(bins)[i + 1..], old(locked), o)
    {
      if i >= |bins| {
        return Fail(RangeError);
      }
      var wasLocked := locked;
      locked := false;
      bins := bins[..i] + bins[i + 1..];
      o := UpdateAxis(bins, true);
      if o.Fail? {
        return;
      }
      locked := wasLocked;
    }

    /** `eraseBins(from, to)`: remove bins from..to inclusive. */
    method EraseBins(from: nat, to: nat) returns (o: Outcome)
      requires Valid()
      modifies this
      ensures Valid()
      ensures (from >= old(|bins|) || to >= old(|bins|) || from > to) ==> o == Fail(RangeError) && unchanged(this)
      ensures from <= to < old(|bins|) ==> ErasedTo(old(bins)[..from] + old(bins)[to + 1..], old(locked), o)
    {
      if from >= |bins| {
        return Fail(RangeError);
      }
      if to >= |bins| {
        return Fail(RangeError);
      }
      if from > to {
        return Fail(RangeError);
      }
      var wasLocked := locked;
      locked := false;
      bins := bins[..from] + bins[to + 1..];
      o := UpdateAxis(bins, true);
      if o.Fail? {
        return;
      }
      locked := wasLocked;
    }

    /** The state after erasing down to `rest`: sorted in place; on success
        the layout of the result and the previous lock, on an overlap the old
        table and the lock left lifted. */
    twostate predicate ErasedTo(rest: seq<HistoBin1D>, wasLocked: bool, o: Outcome)
      reads this
      requires ValidBins(rest)
    {
      dbn == old(dbn) && underflow == old(underflow) && overflow == old(overflow)
      && bins == SortBins(rest)
      && if Layout(SortBins(rest)).Ok? then
           o == Pass && locked == wasLocked && Table(edges, indexes) == Layout(SortBins(rest)).value
         else
           o == Fail(RangeError) && !locked && edges == old(edges) && indexes == old(indexes)
    }

    /** `reset()`: zero every distribution and unlock; the edges stay. */
    method Reset()
      requires Valid()
      modifies this
      ensures Valid()
      ensures dbn == Zero1D() && underflow == Zero1D() && overflow == Zero1D() && !locked
      ensures bins == ResetAll(old(bins)) && edges == old(edges) && indexes == old(indexes)
      ensures old(Synced()) ==> Synced()
    {
      dbn, underflow, overflow := Zero1D(), Zero1D(), Zero1D();
      var bs := bins;
      var i := 0;
      while i < |bs|
        invariant 0 <= i <= |bs| == |old(bins)|
        invariant forall j :: 0 <= j < i ==> bs[j] == ResetBin(old(bins)[j])
        invariant forall j :: i <= j < |bs| ==> bs[j] == old(bins)[j]
      {
        bs := bs[i := ResetBin(bs[i])];
        i := i + 1;
      }
      bins := bs;
      locked := false;
      LayoutSameEdges(old(bins), bins);
    }

    /** `_setLock(l)`. */
    method SetLock(l: bool)
      modifies this
      ensures locked == l
      ensures bins == old(bins) && dbn == old(dbn) && underflow == old(underflow) && overflow == old(overflow)
      ensures edges == old(edges) && indexes == old(indexes)
    {
      locked := l;
    }

    /** `_gapInRange(ifrom, ito)`: look up the slots of the two bins'
        midpoints and scan the slots between them, inclusive, for a -1. The
        source asserts ifrom < ito < numBins() unless ifrom == ito. */
    method GapInRange(ifrom: nat, ito: nat) returns (r: bool)
      requires Valid()
      requires ifrom == ito || ifrom < ito < |bins|
      ensures ifrom == ito ==> !r
      ensures ifrom < ito ==>
        r == GapBetween(indexes, Slot(edges, XMid(bins[ifrom])), Slot(edges, XMid(bins[ito])))
      ensures Synced() && ifrom < ito ==> (r <==> exists j :: ifrom < j <= ito && Gap(bins, j))
    {
      if ifrom == ito {
        return false;
      }
      var fromIx := Slot(edges, XMid(bins[ifrom]));
      var toIx := Slot(edges, XMid(bins[ito]));
      var i := fromIx;
      while i <= toIx
        invariant fromIx <= i && (i <= toIx + 1 || i == fromIx)
        invariant forall k :: fromIx <= k < i ==> indexes[k] != -1
      {
        if indexes[i] == -1 {
          r := true;
          break;
        }
        i := i + 1;
      }
      if i > toIx {
        r := false;
      }
      if Synced() {
        MidSlot(bins, ifrom);
        MidSlot(bins, ito);
        GapBetweenMeansGap(bins, ifrom, ito);
      }
    }

    /** `mergeBins(from, to)`: after the range checks and the gap check,
        bin `from` absorbs bins from+1..to in order and those are erased.
        With from == to nothing is merged and the erase of the empty range
        from+1..from is itself a RangeError. */
    method MergeBins(from: nat, to: nat) returns (o: Outcome)
      requires Synced()
      modifies this
      ensures Valid()
      ensures (from >= old(|bins|) || to >= old(|bins|) || from >= to) ==> o == Fail(RangeError) && unchanged(this)
      ensures from < to < old(|bins|) && (exists j :: from < j <= to && Gap(old(bins), j)) ==>
        o == Fail(RangeError) && unchanged(this)
      ensures from < to < old(|bins|) && !(exists j :: from < j <= to && Gap(old(bins), j)) ==>
        (o == Pass && Synced() && bins == MergedBins(old(bins), from, to) && locked == old(locked)
        && dbn == old(dbn) && underflow == old(underflow) && overflow == old(overflow))
    {
      if from >= |bins| {
        return Fail(RangeError);
      }
      if to >= |bins| {
        return Fail(RangeError);
      }
      if from > to {
        return Fail(RangeError);
      }
      var gap := GapInRange(from, to);
      if gap {
        return Fail(RangeError);
      }
      if from == to {
        // No bin to absorb; the erase of from+1..from fails.
        o := EraseBins(from + 1, to);
        return;
      }
      o := MergeRun(from, to);
    }

    /** The merge loop of `mergeBins` and the erase of the absorbed bins, for a
        run without gaps. */
    method MergeRun(from: nat, to: nat) returns (o: Outcome)
      requires Synced() && from < to < |bins|
      requires !exists j :: from < j <= to && Gap(bins, j)
      modifies this
      ensures o == Pass && Synced() && bins == MergedBins(old(bins), from, to) && locked == old(locked)
      ensures dbn == old(dbn) && underflow == old(underflow) && overflow == old(overflow)
    {
      var b := bins[from];
      var i := from + 1;
      while i <= to
        invariant from + 1 <= i <= to + 1
        invariant b == MergeRange(bins, from, i - 1)
      {
        b := MergeBin(b, bins[i]);
        i := i + 1;
      }
      ghost var merged := MergedBins(bins, from, to);
      MergeKeepsLayout(bins, from, to);
      assert ValidBin(merged[from]);
      bins := bins[from := b];
      assert bins[..from + 1] + bins[to + 1..] == merged;
      o := EraseBins(from + 1, to);
    }

    /** `rebin(n)`: for m = 0, 1, ... while m < numBins(), merge bins m..end
        where end is m + n - 1 in unsigned arithmetic, or the last bin when
        that is out of range, whenever end > m. A merge that meets a gap
        throws, and the merges already done stay. */
    method Rebin(n: ULong) returns (o: Outcome)
      requires Synced()
      modifies this
      ensures Synced() && locked == old(locked)
      ensures o == Pass || o == Fail(RangeError)
      ensures o == Pass <==> RebinBins(old(bins), n, 0).Ok?
      ensures o == Pass ==> Ok(bins) == RebinBins(old(bins), n, 0)
      ensures bins == RebinRun(old(bins), n, 0).bins
    {
      ghost var start, wasLocked := bins, locked;
      var m := 0;
      while m < |bins|
        invariant Synced() && m <= |bins| && locked == wasLocked
        invariant RebinRun(bins, n, m) == RebinRun(start, n, 0)
        decreases |bins| - m
      {
        o := RebinTurn(n, m);
        if o.Fail? {
          assert RebinRun(start, n, 0) == Rebinned(bins, true);
          RebinRunAgrees(start, n, 0);
          return;
        }
        m := m + 1;
      }
      RebinRunAgrees(start, n, 0);
      o := Pass;
    }

    /** One turn of rebin's loop at m: the merge of bins m..end when
        end > m, which throws on a gap and otherwise leaves the rest of the
        rebin to do from m + 1. */
    method RebinTurn(n: ULong, m: nat) returns (o: Outcome)
      requires Synced() && m < |bins|
      modifies this
      ensures Synced() && locked == old(locked)
      ensures o == Pass || o == Fail(RangeError)
      ensures o == Pass ==> m < |bins| <= old(|bins|) && RebinRun(bins, n, m + 1) == RebinRun(old(bins), n, m)
      ensures o.Fail? ==> bins == old(bins) && RebinRun(old(bins), n, m) == Rebinned(bins, true)
    {
      var end := RebinEnd(|bins|, n, m);
      RebinRunUnfold(bins, n, m);
      o := Pass;
      if end > m {
        o := MergeBins(m, end);
      }
    }

    /** `scaleX(s)`: scale the x moments and every bin's edges, then rebuild
        in place. Only positive factors are modelled. */
    method ScaleX(s: real) returns (o: Outcome)
      requires Valid() && s > 0.0
      modifies this
      ensures Valid() && locked == old(locked)
      ensures dbn == ScaleX1D(old(dbn), s) && underflow == ScaleX1D(old(underflow), s)
        && overflow == ScaleX1D(old(overflow), s)
      ensures old(locked) ==> (o == Fail(LockError) && bins == ScaleXBins(old(bins), s)
        && edges == old(edges) && indexes == old(indexes))
      ensures !old(locked) ==> bins == SortBins(ScaleXBins(old(bins), s))
      ensures !old(locked) && Layout(SortBins(ScaleXBins(old(bins), s))).Ok? ==> o == Pass && Synced()
      ensures !old(locked) && !Layout(SortBins(ScaleXBins(old(bins), s))).Ok? ==>
        o == Fail(RangeError) && edges == old(edges) && indexes == old(indexes)
      ensures old(Synced()) && !old(locked) ==> o == Pass && Synced() && bins == ScaleXBins(old(bins), s)
    {
      dbn := ScaleX1D(dbn, s);
      underflow := ScaleX1D(underflow, s);
      overflow := ScaleX1D(overflow, s);
      var bs := bins;
      var i := 0;
      while i < |bs|
        invariant 0 <= i <= |bs| == |old(bins)|
        invariant forall j :: 0 <= j < i ==> bs[j] == ScaleXBin(old(bins)[j], s)
        invariant forall j :: i <= j < |bs| ==> bs[j] == old(bins)[j]
      {
        bs := bs[i := ScaleXBin(bs[i], s)];
        i := i + 1;
      }
      bins := bs;
      assert bins == ScaleXBins(old(bins), s);
      ScaleKeepsLayout(old(bins), s);
      o := UpdateAxis(bins, true);
    }

    /** `scaleW(s)`: scale the weights of every distribution. */
    method ScaleW(s: real)
      requires Valid()
      modifies this
      ensures Valid()
      ensures dbn == ScaleW1D(old(dbn), s) && underflow == ScaleW1D(old(underflow), s)
        && overflow == ScaleW1D(old(overflow), s)
      ensures bins == ScaleWBins(old(bins), s)
      ensures edges == old(edges) && indexes == old(indexes) && locked == old(locked)
      ensures old(Synced()) ==> Synced()
    {
      dbn := ScaleW1D(dbn, s);
      underflow := ScaleW1D(underflow, s);
      overflow := ScaleW1D(overflow, s);
      var bs := bins;
      var i := 0;
      while i < |bs|
        invariant 0 <= i <= |bs| == |old(bins)|
        invariant forall j :: 0 <= j < i ==> bs[j] == ScaleWBin(old(bins)[j], s)
        invariant forall j :: i <= j < |bs| ==> bs[j] == old(bins)[j]
      {
        bs := bs[i := ScaleWBin(bs[i], s)];
        i := i + 1;
      }
      bins := bs;
      LayoutSameEdges(old(bins), bins);
    }

    /** `operator==`: same number of bins and fuzzy-equal edges. */
    method Equals(other: Axis1D) returns (r: bool)
      ensures r == SameBinning(bins, other.bins)
    {
      if |bins| != |other.bins| {
        return false;
      }
      var i := 0;
      while i < |bins|
        invariant 0 <= i <= |bins|
        invariant forall j :: 0 <= j < i ==>
          FuzzyEquals(bins[j].xMin, other.bins[j].xMin) && FuzzyEquals(bins[j].xMax, other.bins[j].xMax)
      {
        if !(FuzzyEquals(bins[i].xMin, other.bins[i].xMin) && FuzzyEquals(bins[i].xMax, other.bins[i].xMax)) {
          return false;
        }
        i := i + 1;
      }
      return true;
    }

    /** `operator!=`. */
    method NotEquals(other: Axis1D) returns (r: bool)
      ensures r == !SameBinning(bins, other.bins)
    {
      var eq := Equals(other);
      r := !eq;
    }

    /** `operator+=`: a LogicError for a different binning, else bin-wise and
        outflow-wise addition of the statistics; the edges stay. The other
        axis may be this one. */
    method AddAxis(other: Axis1D) returns (o: Outcome)
      requires Valid()
      modifies this
      ensures Valid()
      ensures !SameBinning(old(bins), old(other.bins)) ==> o == Fail(LogicError) && unchanged(this)
      ensures SameBinning(old(bins), old(other.bins)) ==>
        (o == Pass && bins == AddBinsStats(old(bins), old(other.bins))
        && dbn == Add1D(old(dbn), old(other.dbn)) && underflow == Add1D(old(underflow), old(other.underflow))
        && overflow == Add1D(old(overflow), old(other.overflow))
        && edges == old(edges) && indexes == old(indexes) && locked == old(locked))
      ensures old(Synced()) ==> Synced()
    {
      var ne := NotEquals(other);
      if ne {
        return Fail(LogicError);
      }
      var ob, od, ou, oo := other.bins, other.dbn, other.underflow, other.overflow;
      var bs := bins;
      var i := 0;
      while i < |bs|
        invariant 0 <= i <= |bs| == |old(bins)| == |ob|
        invariant forall j :: 0 <= j < i ==> bs[j] == AddStats(old(bins)[j], ob[j])
        invariant forall j :: i <= j < |bs| ==> bs[j] == old(bins)[j]
      {
        bs := bs[i := AddStats(bs[i], ob[i])];
        i := i + 1;
      }
      bins := bs;
      dbn := Add1D(dbn, od);
      underflow := Add1D(underflow, ou);
      overflow := Add1D(overflow, oo);
      LayoutSameEdges(old(bins), bins);
      o := Pass;
    }

    /** `operator-=`, the same with subtraction. */
    method SubtractAxis(other: Axis1D) returns (o: Outcome)
      requires Valid()
      modifies this
      ensures Valid()
      ensures !SameBinning(old(bins), old(other.bins)) ==> o == Fail(LogicError) && unchanged(this)
      ensures SameBinning(old(bins), old(other.bins)) ==>
        (o == Pass && bins == SubBinsStats(old(bins), old(other.bins))
        && dbn == Sub1D(old(dbn), old(other.dbn)) && underflow == Sub1D(old(underflow), old(other.underflow))
        && overflow == Sub1D(old(overflow), old(other.overflow))
        && edges == old(edges) && indexes == old(indexes) && locked == old(locked))
      ensures old(Synced()) ==> Synced()
    {
      var ne := NotEquals(other);
      if ne {
        return Fail(LogicError);
      }
      var ob, od, ou, oo := other.bins, other.dbn, other.underflow, other.overflow;
      var bs := bins;
      var i := 0;
      while i < |bs|
        invariant 0 <= i <= |bs| == |old(bins)| == |ob|
        invariant forall j :: 0 <= j < i ==> bs[j] == SubStats(old(bins)[j], ob[j])
        invariant forall j :: i <= j < |bs| ==> bs[j] == old(bins)[j]
      {
        bs := bs[i := SubStats(bs[i], ob[i])];
        i := i + 1;
      }
      bins := bs;
      dbn := Sub1D(dbn, od);
      underflow := Sub1D(underflow, ou);
      overflow := Sub1D(overflow, oo);
      LayoutSameEdges(old(bins), bins);
      o := Pass;
    }

    /** On a synced axis the range [xMin, xMax) spans every bin. */
    lemma RangeSpansBins(i: nat)
      requires Synced() && i < |bins|
      ensures XMin().value <= bins[i].xMin && bins[i].xMax <= XMax().value
    {
      SortedFirstIsLeast(bins, i);
      var n := |bins|;
      if i < n - 1 {
        WalkBinSlot(bins, n, i);
        WalkBinSlot(bins, n, n - 1);
        PosIncreasing(bins, i, n - 1);
        WalkEdgesIncreasing(bins, n);
      }
    }
  }

  /** Increasing edges lay out without overlaps into contiguous, sorted bins. */
  lemma EdgeBinsIncreasingLayout(e: seq<real>)
    requires |e| >= 2
    ensures EdgeBins(e, |e| - 1).Ok? ==> (SortedBins(EdgeBins(e, |e| - 1).value)
      && Layout(EdgeBins(e, |e| - 1).value).Ok?)
  {
    if EdgeBins(e, |e| - 1).Ok? {
      var b := EdgeBins(e, |e| - 1).value;
      forall i | 0 <= i < |b| - 1 ensures !BinLess(b[i + 1], b[i]) {
        assert b[i] == HistoBin1D(e[i], e[i + 1], Zero1D());
        assert b[i + 1] == HistoBin1D(e[i + 1], e[i + 2], Zero1D());
      }
      forall i | 0 <= i < |b| ensures !Overlap(b, i) {
        if i > 0 {
          assert b[i] == HistoBin1D(e[i], e[i + 1], Zero1D());
          assert b[i - 1] == HistoBin1D(e[i - 1], e[i], Zero1D());
          assert RelDiff(b, i) == 0.0;
        }
      }
    }
  }

  /** The bins of linspace(nbins, lower, upper): none for an empty range,
      otherwise nbins sorted contiguous bins from lower to upper. */
  lemma LinspaceBins(nbins: nat, lower: real, upper: real)
    requires nbins > 0 && upper >= lower
    ensures EdgeBins(LinspaceValues(nbins, lower, upper), nbins).Ok? <==> lower < upper
    ensures lower < upper ==> (var b := EdgeBins(LinspaceValues(nbins, lower, upper), nbins).value;
      |b| == nbins && b[0].xMin == lower && b[nbins - 1].xMax == upper
      && SortBins(b) == b && Layout(b).Ok?)
  {
    var e := LinspaceValues(nbins, lower, upper);
    if lower < upper {
      LinspaceIncreasing(nbins, lower, upper);
      EdgeBinsIncreasingLayout(e);
      var b := EdgeBins(e, nbins).value;
      assert b[0] == HistoBin1D(e[0], e[1], Zero1D());
      assert b[nbins - 1] == HistoBin1D(e[nbins - 1], e[nbins], Zero1D());
    } else {
      assert e[0] == e[1];
    }
  }
}
