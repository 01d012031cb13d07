/** The slot table that Axis1D::_updateAxis builds from a sorted bin vector
    (include/YODA/Axis1D.h:392-434), as pure functions, and the lookup the bin
    searcher performs on it.

    Walking the sorted bins with the previous bin's upper edge (minus infinity
    before the first bin), each bin contributes a gap slot (`-1` with the bin's
    lower edge) when it starts more than 1e-3 of its width after the previous
    upper edge, and then its own slot (its index with its upper edge). A bin
    that starts more than 1e-3 of its width before the previous upper edge
    overlaps it, and the rebuild is rejected. A trailing `-1` slot is the
    overflow.
 */
module AxisLayout {
  import opened Wrappers
  import opened Bins

  const RelTolerance: real := 0.001

  /** The table handed to the bin searcher, and the slot-to-bin map. */
  datatype Table = Table(edges: seq<real>, indexes: seq<int>)

  /** (xMin - previous xMax) / width, for a bin that has a predecessor. */
  function RelDiff(bins: seq<HistoBin1D>, i: nat): real
    requires 0 < i < |bins| && ValidBin(bins[i])
  {
    (bins[i].xMin - bins[i - 1].xMax) / XWidth(bins[i])
  }

  /** A gap slot precedes bin i; always so for the first bin. */
  predicate Gap(bins: seq<HistoBin1D>, i: nat)
    requires i < |bins| && ValidBins(bins)
  {
    i == 0 || RelDiff(bins, i) > RelTolerance
  }

  predicate Overlap(bins: seq<HistoBin1D>, i: nat)
    requires i < |bins| && ValidBins(bins)
  {
    i > 0 && RelDiff(bins, i) < -RelTolerance
  }

  predicate NoOverlap(bins: seq<HistoBin1D>, n: nat)
    requires n <= |bins| && ValidBins(bins)
  {
    forall i :: 0 <= i < n ==> !Overlap(bins, i)
  }

  /** The searcher edges produced by the first n bins of the walk. */
  function WalkEdges(bins: seq<HistoBin1D>, n: nat): seq<real>
    requires n <= |bins| && ValidBins(bins)
  {
    if n == 0 then []
    else WalkEdges(bins, n - 1) + (if Gap(bins, n - 1) then [bins[n - 1].xMin] else [])
         + [bins[n - 1].xMax]
  }

  /** The slot indexes produced by the first n bins of the walk. */
  function WalkIndexes(bins: seq<HistoBin1D>, n: nat): seq<int>
    requires n <= |bins| && ValidBins(bins)
  {
    if n == 0 then []
    else WalkIndexes(bins, n - 1) + (if Gap(bins, n - 1) then [-1] else []) + [n - 1]
  }

  /** The result of the rebuild for already sorted bins. */
  function Layout(bins: seq<HistoBin1D>): Result<Table>
    requires ValidBins(bins)
  {
    if NoOverlap(bins, |bins|) then Ok(Table(WalkEdges(bins, |bins|), WalkIndexes(bins, |bins|) + [-1]))
    else Err(RangeError)
  }

  /** Number of gap slots among the first n bins. */
  function GapCount(bins: seq<HistoBin1D>, n: nat): nat
    requires n <= |bins| && ValidBins(bins)
  {
    if n == 0 then 0 else GapCount(bins, n - 1) + (if Gap(bins, n - 1) then 1 else 0)
  }

  /** The slot that holds bin i. */
  function Pos(bins: seq<HistoBin1D>, i: nat): nat
    requires i < |bins| && ValidBins(bins)
  {
    i + GapCount(bins, i + 1)
  }

  /** The lower end of bin i's slot: its own lower edge after a gap, else the
      previous bin's upper edge. */
  function EffLow(bins: seq<HistoBin1D>, i: nat): real
    requires i < |bins| && ValidBins(bins)
  {
    if Gap(bins, i) then bins[i].xMin else bins[i - 1].xMax
  }

  predicate StrictlyIncreasing(e: seq<real>) {
    forall j, k :: 0 <= j < k < |e| ==> e[j] < e[k]
  }

  /** The searcher: the first slot whose upper edge is above x, or the
      overflow slot |edges|. */
  function Slot(edges: seq<real>, x: real): (k: nat)
    ensures k <= |edges|
  {
    if edges == [] || x < edges[0] then 0 else 1 + Slot(edges[1..], x)
  }

  // ---------------------------------------------------------------------------
  // Properties of the walk

  lemma RelDiffSign(bins: seq<HistoBin1D>, i: nat)
    requires 0 < i < |bins| && ValidBins(bins)
    ensures RelDiff(bins, i) > RelTolerance ==> bins[i].xMin - bins[i - 1].xMax > RelTolerance * XWidth(bins[i])
    ensures RelDiff(bins, i) >= -RelTolerance ==> bins[i].xMin - bins[i - 1].xMax >= -RelTolerance * XWidth(bins[i])
  {
    var d := bins[i].xMin - bins[i - 1].xMax;
    var w := XWidth(bins[i]);
    assert RelDiff(bins, i) * w == d;
  }

  lemma {:induction false} WalkLength(bins: seq<HistoBin1D>, n: nat)
    requires n <= |bins| && ValidBins(bins)
    ensures |WalkEdges(bins, n)| == |WalkIndexes(bins, n)| == n + GapCount(bins, n)
  {
    if n > 0 {
      WalkLength(bins, n - 1);
    }
  }

  /** One more bin appends its optional gap slot and its own slot. */
  lemma WalkStep(bins: seq<HistoBin1D>, n: nat)
    requires 0 < n <= |bins| && ValidBins(bins)
    ensures WalkEdges(bins, n) == WalkEdges(bins, n - 1) + StepEdges(bins, n - 1)
    ensures WalkIndexes(bins, n) == WalkIndexes(bins, n - 1) + StepIndexes(bins, n - 1)
    ensures Pos(bins, n - 1) == |WalkIndexes(bins, n - 1)| + |StepIndexes(bins, n - 1)| - 1
    ensures |StepEdges(bins, n - 1)| == |StepIndexes(bins, n - 1)|
  {
    WalkLength(bins, n - 1);
  }

  function StepEdges(bins: seq<HistoBin1D>, i: nat): seq<real>
    requires i < |bins| && ValidBins(bins)
  {
    (if Gap(bins, i) then [bins[i].xMin] else []) + [bins[i].xMax]
  }

  function StepIndexes(bins: seq<HistoBin1D>, i: nat): seq<int>
    requires i < |bins| && ValidBins(bins)
  {
    (if Gap(bins, i) then [-1] else []) + [i as int]
  }

  /** Bin i sits in slot Pos(i) of the index table, with its upper edge, and
      the slot below it ends at EffLow(i). */
  lemma {:induction false} WalkBinSlot(bins: seq<HistoBin1D>, n: nat, i: nat)
    requires i < n <= |bins| && ValidBins(bins)
    ensures 1 <= Pos(bins, i) < |WalkIndexes(bins, n)| == |WalkEdges(bins, n)|
    ensures WalkIndexes(bins, n)[Pos(bins, i)] == i
    ensures WalkEdges(bins, n)[Pos(bins, i)] == bins[i].xMax
    ensures WalkEdges(bins, n)[Pos(bins, i) - 1] == EffLow(bins, i)
    ensures Gap(bins, i) ==> WalkIndexes(bins, n)[Pos(bins, i) - 1] == -1
    decreases n
  {
    WalkStep(bins, n);
    WalkLength(bins, n - 1);
    var e0, e := WalkEdges(bins, n - 1), WalkEdges(bins, n);
    var i0, ix := WalkIndexes(bins, n - 1), WalkIndexes(bins, n);
    var p := Pos(bins, i);
    if i < n - 1 {
      WalkBinSlot(bins, n - 1, i);
      assert e[p] == e0[p] && e[p - 1] == e0[p - 1] && ix[p] == i0[p] && ix[p - 1] == i0[p - 1];
    } else if Gap(bins, i) {
      assert e[p] == StepEdges(bins, i)[1] && e[p - 1] == StepEdges(bins, i)[0];
      assert ix[p] == StepIndexes(bins, i)[1] && ix[p - 1] == StepIndexes(bins, i)[0];
    } else {
      WalkBinSlot(bins, n - 1, n - 2);
      assert Pos(bins, n - 2) == |e0| - 1;
      assert e[p] == StepEdges(bins, i)[0] && e[p - 1] == e0[|e0| - 1];
      assert ix[p] == StepIndexes(bins, i)[0];
    }
  }

  lemma WalkBinSlots(bins: seq<HistoBin1D>, n: nat)
    requires n <= |bins| && ValidBins(bins)
    ensures forall i :: 0 <= i < n ==>
      1 <= Pos(bins, i) < |WalkIndexes(bins, n)| == |WalkEdges(bins, n)|
      && WalkIndexes(bins, n)[Pos(bins, i)] == i
      && WalkEdges(bins, n)[Pos(bins, i)] == bins[i].xMax
      && WalkEdges(bins, n)[Pos(bins, i) - 1] == EffLow(bins, i)
  {
    forall i | 0 <= i < n
      ensures 1 <= Pos(bins, i) < |WalkIndexes(bins, n)| == |WalkEdges(bins, n)|
        && WalkIndexes(bins, n)[Pos(bins, i)] == i
        && WalkEdges(bins, n)[Pos(bins, i)] == bins[i].xMax
        && WalkEdges(bins, n)[Pos(bins, i) - 1] == EffLow(bins, i)
    {
      WalkBinSlot(bins, n, i);
    }
  }

  /** Every slot holds either -1 or a bin index below n; a bin index j sits in
      slot Pos(j); a -1 slot lies just before the bin that follows a gap. */
  lemma {:induction false} WalkSlotKind(bins: seq<HistoBin1D>, n: nat, k: nat)
    requires n <= |bins| && ValidBins(bins) && k < |WalkIndexes(bins, n)|
    ensures -1 <= WalkIndexes(bins, n)[k] < n
    ensures WalkIndexes(bins, n)[k] >= 0 ==> k == Pos(bins, WalkIndexes(bins, n)[k])
    ensures WalkIndexes(bins, n)[k] == -1 ==>
      k + 1 < |WalkIndexes(bins, n)| && 0 <= WalkIndexes(bins, n)[k + 1] < n
      && Gap(bins, WalkIndexes(bins, n)[k + 1]) && k + 1 == Pos(bins, WalkIndexes(bins, n)[k + 1])
    decreases n
  {
    WalkStep(bins, n);
    var i0, ix := WalkIndexes(bins, n - 1), WalkIndexes(bins, n);
    var m := |i0|;
    if k < m {
      WalkSlotKind(bins, n - 1, k);
      assert ix[k] == i0[k];
      if i0[k] == -1 {
        assert ix[k + 1] == i0[k + 1];
      }
    } else if Gap(bins, n - 1) {
      assert ix[m] == -1 && ix[m + 1] == n - 1;
    } else {
      assert ix[m] == n - 1;
    }
  }

  lemma WalkSlotKinds(bins: seq<HistoBin1D>, n: nat)
    requires n <= |bins| && ValidBins(bins)
    ensures forall k :: 0 <= k < |WalkIndexes(bins, n)| ==>
      -1 <= WalkIndexes(bins, n)[k] < n
      && (WalkIndexes(bins, n)[k] >= 0 ==> k == Pos(bins, WalkIndexes(bins, n)[k]))
      && (WalkIndexes(bins, n)[k] == -1 ==>
            k + 1 < |WalkIndexes(bins, n)| && 0 <= WalkIndexes(bins, n)[k + 1] < n
            && Gap(bins, WalkIndexes(bins, n)[k + 1]) && k + 1 == Pos(bins, WalkIndexes(bins, n)[k + 1]))
  {
    forall k | 0 <= k < |WalkIndexes(bins, n)|
      ensures -1 <= WalkIndexes(bins, n)[k] < n
      && (WalkIndexes(bins, n)[k] >= 0 ==> k == Pos(bins, WalkIndexes(bins, n)[k]))
      && (WalkIndexes(bins, n)[k] == -1 ==>
            k + 1 < |WalkIndexes(bins, n)| && 0 <= WalkIndexes(bins, n)[k + 1] < n
            && Gap(bins, WalkIndexes(bins, n)[k + 1]) && k + 1 == Pos(bins, WalkIndexes(bins, n)[k + 1]))
    {
      WalkSlotKind(bins, n, k);
    }
  }

  /** The table of a layout has one more slot than edges, and each slot holds
      -1 or the index of a bin. */
  lemma LayoutShape(bins: seq<HistoBin1D>)
    requires ValidBins(bins) && Layout(bins).Ok?
    ensures |Layout(bins).value.indexes| == |Layout(bins).value.edges| + 1
    ensures forall k :: 0 <= k < |Layout(bins).value.indexes| ==> -1 <= Layout(bins).value.indexes[k] < |bins|
  {
    var n := |bins|;
    var ix := Layout(bins).value.indexes;
    WalkLength(bins, n);
    forall k | 0 <= k < |ix| ensures -1 <= ix[k] < n {
      if k < |WalkIndexes(bins, n)| {
        assert ix[k] == WalkIndexes(bins, n)[k];
        WalkSlotKind(bins, n, k);
      }
    }
  }

  /** Pos is strictly increasing: real bin indexes appear in increasing order. */
  lemma {:induction false} PosIncreasing(bins: seq<HistoBin1D>, i: nat, j: nat)
    requires i < j < |bins| && ValidBins(bins)
    ensures Pos(bins, i) < Pos(bins, j)
    decreases j
  {
    if i < j - 1 {
      PosIncreasing(bins, i, j - 1);
    }
  }

  /** Without overlaps the edges handed to the searcher strictly increase, and
      the last one is the last bin's upper edge. */
  lemma {:induction false} WalkEdgesIncreasing(bins: seq<HistoBin1D>, n: nat)
    requires n <= |bins| && ValidBins(bins) && NoOverlap(bins, n)
    ensures StrictlyIncreasing(WalkEdges(bins, n))
    ensures n > 0 ==> WalkEdges(bins, n)[|WalkEdges(bins, n)| - 1] == bins[n - 1].xMax
  {
    if n > 0 {
      var e0 := WalkEdges(bins, n - 1);
      var e := WalkEdges(bins, n);
      var b := bins[n - 1];
      WalkEdgesIncreasing(bins, n - 1);
      assert NoOverlap(bins, n - 1);
      var extra := (if Gap(bins, n - 1) then [b.xMin] else []) + [b.xMax];
      assert e == e0 + extra;
      if n > 1 {
        RelDiffSign(bins, n - 1);
        assert !Overlap(bins, n - 1);
        var lastHigh := bins[n - 2].xMax;
        assert e0[|e0| - 1] == lastHigh;
        forall t | 0 <= t < |extra| ensures lastHigh < extra[t] {
          if Gap(bins, n - 1) {
            assert b.xMin - lastHigh > RelTolerance * XWidth(b);
          } else {
            assert b.xMin - lastHigh >= -RelTolerance * XWidth(b);
          }
        }
        forall j, k | 0 <= j < k < |e| ensures e[j] < e[k] {
          if k >= |e0| && j < |e0| {
            assert e[j] == e0[j] && e[k] == extra[k - |e0|];
            assert j < |e0| - 1 ==> e0[j] < e0[|e0| - 1];
          }
        }
      }
    }
  }

  /** On a laid-out axis the upper edges strictly increase. */
  lemma UpperEdgesIncrease(bins: seq<HistoBin1D>, i: nat, j: nat)
    requires ValidBins(bins) && Layout(bins).Ok? && i < j < |bins|
    ensures bins[i].xMax < bins[j].xMax
  {
    var n := |bins|;
    WalkBinSlot(bins, n, i);
    WalkBinSlot(bins, n, j);
    PosIncreasing(bins, i, j);
    WalkEdgesIncreasing(bins, n);
  }

  /** With strictly increasing edges, Slot is the unique k with
      edges[k-1] <= x < edges[k]. */
  lemma {:induction false} SlotSpec(edges: seq<real>, x: real, k: nat)
    requires StrictlyIncreasing(edges) && k <= |edges|
    ensures Slot(edges, x) == k <==> (k == 0 || edges[k - 1] <= x) && (k == |edges| || x < edges[k])
    decreases |edges|
  {
    if edges != [] && x >= edges[0] {
      assert StrictlyIncreasing(edges[1..]);
      if k > 0 {
        SlotSpec(edges[1..], x, k - 1);
      } else {
        assert Slot(edges, x) != 0;
      }
    } else if edges != [] && k > 0 {
      assert edges[0] <= edges[k - 1];
    }
  }

  /** The lookup of a laid-out axis: the slot of x holds bin i exactly when
      EffLow(i) <= x < xMax of bin i, and `-1` when no bin's slot contains x. */
  lemma LayoutLookup(bins: seq<HistoBin1D>, x: real, i: nat)
    requires ValidBins(bins) && Layout(bins).Ok? && i < |bins|
    ensures |Layout(bins).value.indexes| == |Layout(bins).value.edges| + 1
    ensures var t := Layout(bins).value;
      t.indexes[Slot(t.edges, x)] == i <==> EffLow(bins, i) <= x < bins[i].xMax
  {
    var t := Layout(bins).value;
    var n := |bins|;
    var ix := WalkIndexes(bins, n);
    WalkLength(bins, n);
    WalkBinSlot(bins, n, i);
    WalkEdgesIncreasing(bins, n);
    var k := Slot(t.edges, x);
    var p := Pos(bins, i);
    SlotSpec(t.edges, x, p);
    if t.indexes[k] == i {
      assert k < |ix| && t.indexes[k] == ix[k];
      WalkSlotKind(bins, n, k);
      assert k == p;
    }
    if EffLow(bins, i) <= x < bins[i].xMax {
      assert k == p;
      assert t.indexes[p] == ix[p];
    }
  }

  /** The slot of x holds -1 exactly when x lies in no bin's slot: below the
      first bin, in a gap, or at or above the last upper edge. */
  lemma LayoutLookupNone(bins: seq<HistoBin1D>, x: real)
    requires ValidBins(bins) && Layout(bins).Ok?
    ensures |Layout(bins).value.indexes| == |Layout(bins).value.edges| + 1
    ensures var t := Layout(bins).value;
      t.indexes[Slot(t.edges, x)] == -1 <==>
        forall i :: 0 <= i < |bins| ==> !(EffLow(bins, i) <= x < bins[i].xMax)
  {
    var t := Layout(bins).value;
    var n := |bins|;
    WalkLength(bins, n);
    var k := Slot(t.edges, x);
    if t.indexes[k] == -1 {
      forall i | 0 <= i < n ensures !(EffLow(bins, i) <= x < bins[i].xMax) {
        LayoutLookup(bins, x, i);
      }
    } else {
      assert k < |WalkIndexes(bins, n)| && t.indexes[k] == WalkIndexes(bins, n)[k];
      WalkSlotKind(bins, n, k);
      LayoutLookup(bins, x, t.indexes[k]);
    }
  }

  /** A bin's midpoint lies in that bin's own slot. */
  lemma MidSlot(bins: seq<HistoBin1D>, i: nat)
    requires ValidBins(bins) && Layout(bins).Ok? && i < |bins|
    ensures Slot(Layout(bins).value.edges, XMid(bins[i])) == Pos(bins, i)
  {
    var t := Layout(bins).value;
    var n := |bins|;
    var b := bins[i];
    WalkLength(bins, n);
    WalkBinSlot(bins, n, i);
    WalkEdgesIncreasing(bins, n);
    if !Gap(bins, i) {
      RelDiffSign(bins, i);
      assert !Overlap(bins, i);
      assert bins[i - 1].xMax <= b.xMin + RelTolerance * XWidth(b);
    }
    assert EffLow(bins, i) <= XMid(b) < b.xMax;
    SlotSpec(t.edges, XMid(b), Pos(bins, i));
  }

  /** A -1 slot among the slots p..q of the index table. */
  predicate GapBetween(indexes: seq<int>, p: nat, q: nat) {
    exists k :: p <= k <= q && k < |indexes| && indexes[k] == -1
  }

  /** For a laid-out axis, a -1 slot lies between the slots of bins f and t
      exactly when one of the bins f+1..t follows a gap. */
  lemma GapBetweenMeansGap(bins: seq<HistoBin1D>, f: nat, t: nat)
    requires ValidBins(bins) && Layout(bins).Ok? && f <= t < |bins|
    ensures GapBetween(Layout(bins).value.indexes, Pos(bins, f), Pos(bins, t)) <==>
      exists j :: f < j <= t && Gap(bins, j)
  {
    var tab := Layout(bins).value;
    var n := |bins|;
    var ix := WalkIndexes(bins, n);
    WalkLength(bins, n);
    WalkBinSlot(bins, n, t);
    WalkBinSlot(bins, n, f);
    if GapBetween(tab.indexes, Pos(bins, f), Pos(bins, t)) {
      var k :| Pos(bins, f) <= k <= Pos(bins, t) && k < |tab.indexes| && tab.indexes[k] == -1;
      assert k < |ix| && tab.indexes[k] == ix[k];
      WalkSlotKind(bins, n, k);
      var j := ix[k + 1];
      assert k != Pos(bins, t);
      if j <= f {
        if j < f { PosIncreasing(bins, j, f); }
      }
      if j > t {
        PosIncreasing(bins, t, j);
      }
      assert f < j <= t && Gap(bins, j);
    }
    if exists j :: f < j <= t && Gap(bins, j) {
      var j :| f < j <= t && Gap(bins, j);
      WalkBinSlot(bins, n, j);
      PosIncreasing(bins, f, j);
      if j < t { PosIncreasing(bins, j, t); }
      assert tab.indexes[Pos(bins, j) - 1] == ix[Pos(bins, j) - 1] == -1;
      assert Pos(bins, f) <= Pos(bins, j) - 1 <= Pos(bins, t);
    }
  }

  // ---------------------------------------------------------------------------
  // The layout depends only on the edges

  predicate SameEdges(a: seq<HistoBin1D>, b: seq<HistoBin1D>) {
    |a| == |b| && forall i :: 0 <= i < |a| ==> a[i].xMin == b[i].xMin && a[i].xMax == b[i].xMax
  }

  lemma {:induction false} WalkSameEdges(a: seq<HistoBin1D>, b: seq<HistoBin1D>, n: nat)
    requires SameEdges(a, b) && ValidBins(a) && ValidBins(b) && n <= |a|
    ensures WalkEdges(a, n) == WalkEdges(b, n) && WalkIndexes(a, n) == WalkIndexes(b, n)
    ensures NoOverlap(a, n) == NoOverlap(b, n)
  {
    if n > 0 {
      WalkSameEdges(a, b, n - 1);
      assert Gap(a, n - 1) == Gap(b, n - 1);
      assert Overlap(a, n - 1) == Overlap(b, n - 1);
      assert NoOverlap(a, n) == (NoOverlap(a, n - 1) && !Overlap(a, n - 1));
      assert NoOverlap(b, n) == (NoOverlap(b, n - 1) && !Overlap(b, n - 1));
    }
  }

  /** Resetting, filling or rescaling the statistics of the bins cannot change
      the layout. */
  lemma LayoutSameEdges(a: seq<HistoBin1D>, b: seq<HistoBin1D>)
    requires SameEdges(a, b) && ValidBins(a) && ValidBins(b)
    ensures Layout(a) == Layout(b)
    ensures SortedBins(a) == SortedBins(b)
  {
    WalkSameEdges(a, b, |a|);
  }

  // ---------------------------------------------------------------------------
  // Rescaling x keeps the layout

  function ScaleXBins(bins: seq<HistoBin1D>, s: real): (r: seq<HistoBin1D>)
    requires s > 0.0
    ensures |r| == |bins|
    ensures forall i :: 0 <= i < |bins| ==> r[i] == ScaleXBin(bins[i], s)
    ensures ValidBins(bins) ==> ValidBins(r)
  {
    seq(|bins|, i requires 0 <= i < |bins| => ScaleXBin(bins[i], s))
  }

  lemma RelDiffScale(bins: seq<HistoBin1D>, s: real, i: nat)
    requires s > 0.0 && ValidBins(bins) && 0 < i < |bins|
    ensures RelDiff(ScaleXBins(bins, s), i) == RelDiff(bins, i)
  {
    var r := ScaleXBins(bins, s);
    var d := bins[i].xMin - bins[i - 1].xMax;
    var w := XWidth(bins[i]);
    assert r[i].xMin - r[i - 1].xMax == d * s;
    assert XWidth(r[i]) == w * s;
    DivCancel(d, w, s);
  }

  lemma ScaleOrder(x: real, y: real, s: real)
    requires s > 0.0
    ensures x < y <==> x * s < y * s
    ensures x == y <==> x * s == y * s
  {
    if x < y {
      assert (y - x) * s > 0.0;
    } else if y < x {
      assert (x - y) * s > 0.0;
    }
  }

  lemma DivCancel(d: real, w: real, s: real)
    requires w != 0.0 && s != 0.0
    ensures (d * s) / (w * s) == d / w
  {
    var q := d / w;
    assert q * w == d;
    assert q * (w * s) == d * s;
  }

  /** Multiplying every edge by a positive factor changes neither the order
      of the bins nor whether they lay out. */
  lemma ScaleKeepsLayout(bins: seq<HistoBin1D>, s: real)
    requires s > 0.0 && ValidBins(bins)
    ensures SortedBins(ScaleXBins(bins, s)) == SortedBins(bins)
    ensures Layout(ScaleXBins(bins, s)).Ok? == Layout(bins).Ok?
  {
    var r := ScaleXBins(bins, s);
    forall i | 0 <= i < |bins| - 1 ensures BinLess(r[i + 1], r[i]) == BinLess(bins[i + 1], bins[i]) {
      var a, b := bins[i + 1], bins[i];
      assert r[i + 1] == ScaleXBin(a, s) && r[i] == ScaleXBin(b, s);
      ScaleOrder(a.xMin, b.xMin, s);
      ScaleOrder(a.xMax, b.xMax, s);
    }
    forall i | 0 <= i < |bins| ensures Overlap(r, i) == Overlap(bins, i) {
      if i > 0 { RelDiffScale(bins, s, i); }
    }
  }
}
