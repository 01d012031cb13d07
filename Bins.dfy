/** One-dimensional histogram bins and the ordering the axis sorts them by.

    Bin.h is not part of this model. A bin is a half-open interval
    [xMin, xMax) with xMin < xMax, carrying one Dbn1D. Constructing a bin with
    high <= low is a RangeError. Bins are ordered by xMin, then by xMax.
 */
module Bins {
  import opened Wrappers
  import opened Dbn

  datatype HistoBin1D = HistoBin1D(xMin: real, xMax: real, dbn: Dbn1D)

  predicate ValidBin(b: HistoBin1D) { b.xMin < b.xMax }

  predicate ValidBins(s: seq<HistoBin1D>) { forall i :: 0 <= i < |s| ==> ValidBin(s[i]) }

  function XWidth(b: HistoBin1D): real { b.xMax - b.xMin }

  function XMid(b: HistoBin1D): (r: real)
    requires ValidBin(b)
    ensures b.xMin < r < b.xMax
  {
    (b.xMin + b.xMax) / 2.0
  }

  /** Bin(low, high): an empty bin, or a RangeError for a zero or negative width. */
  function MkBin(low: real, high: real): (r: Result<HistoBin1D>)
    ensures r.Ok? <==> low < high
    ensures r.Ok? ==> r.value == HistoBin1D(low, high, Zero1D()) && ValidBin(r.value)
  {
    if high <= low then Err(RangeError) else Ok(HistoBin1D(low, high, Zero1D()))
  }

  function FillBin(b: HistoBin1D, x: real, w: real): HistoBin1D {
    b.(dbn := Fill1D(b.dbn, x, w))
  }

  function ResetBin(b: HistoBin1D): HistoBin1D { b.(dbn := Zero1D()) }

  function ScaleWBin(b: HistoBin1D, s: real): HistoBin1D { b.(dbn := ScaleW1D(b.dbn, s)) }

  /** Scaling x moves both edges and the x moments. */
  function ScaleXBin(b: HistoBin1D, s: real): (r: HistoBin1D)
    requires s > 0.0
    ensures ValidBin(b) ==> ValidBin(r)
  {
    HistoBin1D(b.xMin * s, b.xMax * s, ScaleX1D(b.dbn, s))
  }

  /** `+=` and `-=` of bins combine the statistics; the edges stay. */
  function AddStats(b: HistoBin1D, o: HistoBin1D): HistoBin1D { b.(dbn := Add1D(b.dbn, o.dbn)) }

  function SubStats(b: HistoBin1D, o: HistoBin1D): HistoBin1D { b.(dbn := Sub1D(b.dbn, o.dbn)) }

  /** `b.merge(o)` absorbs the statistics of the next bin `o` and extends b's
      upper edge to o's upper edge. */
  function MergeBin(b: HistoBin1D, o: HistoBin1D): HistoBin1D {
    HistoBin1D(b.xMin, o.xMax, Add1D(b.dbn, o.dbn))
  }

  function ResetAll(s: seq<HistoBin1D>): (r: seq<HistoBin1D>)
    ensures |r| == |s|
    ensures forall i :: 0 <= i < |s| ==> r[i] == ResetBin(s[i])
  {
    seq(|s|, i requires 0 <= i < |s| => ResetBin(s[i]))
  }

  // ---------------------------------------------------------------------------
  // Ordering and sorting

  predicate BinLess(a: HistoBin1D, b: HistoBin1D) {
    a.xMin < b.xMin || (a.xMin == b.xMin && a.xMax < b.xMax)
  }

  /** No adjacent pair is out of order (what std::is_sorted checks). */
  predicate SortedBins(s: seq<HistoBin1D>) {
    forall i :: 0 <= i < |s| - 1 ==> !BinLess(s[i + 1], s[i])
  }

  /** Insert b before the first element that is not less than it. */
  function InsertBin(b: HistoBin1D, t: seq<HistoBin1D>): seq<HistoBin1D> {
    if t == [] || !BinLess(t[0], b) then [b] + t else [t[0]] + InsertBin(b, t[1..])
  }

  /** Insertion sort, stable for bins with equal edges. */
  function InsertionSort(s: seq<HistoBin1D>): seq<HistoBin1D> {
    if s == [] then [] else InsertBin(s[0], InsertionSort(s[1..]))
  }

  /** The std::sort of a bin vector: a sorted permutation that leaves an
      already sorted vector as it is. */
  function SortBins(s: seq<HistoBin1D>): (r: seq<HistoBin1D>)
    ensures SortedBins(r) && multiset(r) == multiset(s) && |r| == |s|
    ensures ValidBins(s) ==> ValidBins(r)
    ensures SortedBins(s) ==> r == s
  {
    SortBinsProperties(s);
    ValidBinsOfPermutation(s, InsertionSort(s));
    if SortedBins(s) then SortBinsOfSorted(s); InsertionSort(s) else InsertionSort(s)
  }

  lemma {:induction false} InsertBinProperties(b: HistoBin1D, t: seq<HistoBin1D>)
    requires SortedBins(t)
    ensures SortedBins(InsertBin(b, t))
    ensures multiset(InsertBin(b, t)) == multiset(t) + multiset{b}
    ensures InsertBin(b, t)[0] == b || (t != [] && InsertBin(b, t)[0] == t[0])
  {
    if t == [] || !BinLess(t[0], b) {
      assert InsertBin(b, t) == [b] + t;
    } else {
      var rest := InsertBin(b, t[1..]);
      assert SortedBins(t[1..]) by {
        forall i | 0 <= i < |t[1..]| - 1 ensures !BinLess(t[1..][i + 1], t[1..][i]) {
          assert t[1..][i] == t[i + 1] && t[1..][i + 1] == t[i + 2];
        }
      }
      InsertBinProperties(b, t[1..]);
      assert InsertBin(b, t) == [t[0]] + rest;
      assert t == [t[0]] + t[1..];
      forall i | 0 <= i < |[t[0]] + rest| - 1
        ensures !BinLess(([t[0]] + rest)[i + 1], ([t[0]] + rest)[i])
      {
        if i > 0 {
          assert ([t[0]] + rest)[i + 1] == rest[i] && ([t[0]] + rest)[i] == rest[i - 1];
        } else {
          assert ([t[0]] + rest)[1] == rest[0];
        }
      }
    }
  }

  /** Sorting yields a sorted permutation of its input. */
  lemma {:induction false} SortBinsProperties(s: seq<HistoBin1D>)
    ensures SortedBins(InsertionSort(s))
    ensures multiset(InsertionSort(s)) == multiset(s)
    ensures |InsertionSort(s)| == |s|
  {
    if s != [] {
      SortBinsProperties(s[1..]);
      InsertBinProperties(s[0], InsertionSort(s[1..]));
      assert s == [s[0]] + s[1..];
      assert multiset(s) == multiset{s[0]} + multiset(s[1..]);
    }
  }

  /** Sorting an already sorted vector changes nothing. */
  lemma {:induction false} SortBinsOfSorted(s: seq<HistoBin1D>)
    requires SortedBins(s)
    ensures InsertionSort(s) == s
  {
    if s != [] {
      assert SortedBins(s[1..]) by {
        forall i | 0 <= i < |s[1..]| - 1 ensures !BinLess(s[1..][i + 1], s[1..][i]) {
          assert s[1..][i] == s[i + 1] && s[1..][i + 1] == s[i + 2];
        }
      }
      SortBinsOfSorted(s[1..]);
      assert s == [s[0]] + s[1..];
    }
  }

  lemma ValidBinsOfPermutation(s: seq<HistoBin1D>, t: seq<HistoBin1D>)
    requires multiset(s) == multiset(t)
    ensures ValidBins(s) ==> ValidBins(t)
  {
    if ValidBins(s) {
        forall i | 0 <= i < |t| ensures ValidBin(t[i]) {
        assert t[i] in multiset(t);
        assert t[i] in multiset(s);
        var j :| 0 <= j < |s| && s[j] == t[i];
      }
    }
  }

  /** In a sorted vector the lower edges never decrease. */
  lemma {:induction false} SortedLowerEdges(s: seq<HistoBin1D>, i: nat, j: nat)
    requires SortedBins(s) && i <= j < |s|
    ensures s[i].xMin <= s[j].xMin
    decreases j
  {
    if i < j {
      SortedLowerEdges(s, i, j - 1);
      assert !BinLess(s[j], s[j - 1]);
    }
  }

  /** In a sorted vector no bin starts below the first one. */
  lemma SortedFirstIsLeast(s: seq<HistoBin1D>, i: nat)
    requires SortedBins(s) && i < |s|
    ensures s[0].xMin <= s[i].xMin
  {
    SortedLowerEdges(s, 0, i);
  }
}
