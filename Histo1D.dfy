/** Histo1D (src/Histo1D.cc): an analysis object of type "Histo1D" over an
    Axis1D of HistoBin1D.

    `fill` always fills the total distribution, then routes x to the bin whose
    searcher slot holds it, to nothing (a gap), to the underflow or to the
    overflow, and locks the axis. The aggregates over bins leave out what went
    to gaps and outflows. Histo1D.h is not part of this model: the histogram is
    an annotation map and an axis.
 */
module Histo1D {
  import opened Wrappers
  import opened Dbn
  import opened Bins
  import opened AxisLayout
  import opened Axis1D
  import opened AnalysisObject

  /** Where fill(x, w) sends a non-NaN x. */
  datatype Route = NoBins | ToBin(index: nat) | ToGap | ToUnderflow | ToOverflow

  /** The statistics side of an axis: the bins and the three distributions,
      with the lock flag. */
  datatype AxisStats = AxisStats(bins: seq<HistoBin1D>, total: Dbn1D, underflow: Dbn1D, overflow: Dbn1D, locked: bool)

  /** A slot table of the shape every axis keeps. */
  predicate TableShape(t: Table) {
    |t.indexes| == |t.edges| + 1 && forall k :: 0 <= k < |t.indexes| ==> -1 <= t.indexes[k]
  }

  /** The branch fill takes for x: with no bins xMin() throws; inside
      [xMin, xMax) the searcher's bin, or none when binAt throws; below xMin
      the underflow, else the overflow. */
  function RouteOf(bins: seq<HistoBin1D>, t: Table, x: real): (r: Route)
    requires TableShape(t)
    ensures r.ToBin? ==> r.index < |bins|
    ensures r.NoBins? <==> bins == []
  {
    if bins == [] then NoBins
    else if bins[0].xMin <= x < bins[|bins| - 1].xMax then
      var k := t.indexes[Slot(t.edges, x)];
      if 0 <= k < |bins| then ToBin(k) else ToGap
    else if x < bins[0].xMin then ToUnderflow
    else ToOverflow
  }

  /** The statistics after fill(x, w) of a non-NaN x. */
  function FillStats(s: AxisStats, t: Table, x: real, w: real): AxisStats
    requires TableShape(t)
  {
    var total := Fill1D(s.total, x, w);
    match RouteOf(s.bins, t, x)
    case NoBins => s.(total := total)
    case ToBin(i) => s.(total := total, bins := s.bins[i := FillBin(s.bins[i], x, w)], locked := true)
    case ToGap => s.(total := total, locked := true)
    case ToUnderflow => s.(total := total, underflow := Fill1D(s.underflow, x, w), locked := true)
    case ToOverflow => s.(total := total, overflow := Fill1D(s.overflow, x, w), locked := true)
  }

  /** The sum of the bins' effective entry counts. */
  function SumEffEntries(s: seq<HistoBin1D>): real {
    if s == [] then 0.0 else SumEffEntries(s[..|s| - 1]) + EffNumEntries1D(s[|s| - 1].dbn)
  }

  /** The total is the sum of the bins, the underflow and the overflow. */
  predicate Balanced(s: AxisStats) {
    s.total == Add1D(Add1D(SumDbns(s.bins), s.underflow), s.overflow)
  }

  class Histo1D {
    var annotations: Annotations
    const axis: Axis1D

    ghost predicate Valid()
      reads this, axis
    {
      WellFormed(annotations) && axis.Valid()
    }

    function Stats(): AxisStats
      reads this, axis
    {
      AxisStats(axis.bins, axis.dbn, axis.underflow, axis.overflow, axis.locked)
    }

    function SearchTable(): (t: Table)
      reads this, axis
      requires Valid()
      ensures TableShape(t)
    {
      Table(axis.edges, axis.indexes)
    }

    constructor FromParts(anns: Annotations, a: Axis1D)
      requires WellFormed(anns) && a.Valid()
      ensures Valid() && annotations == anns && axis == a
    {
      annotations := anns;
      axis := a;
    }

    /** The copy constructor: the other's annotations with "Type" reset, the
        given path (or the other's when that is empty) and the other's title,
        and a copy of the axis. */
    static method Copy(h: Histo1D, path: string := "") returns (r: Result<Histo1D>)
      requires h.Valid()
      ensures r.Ok? <==> ValidPath(CopyPath(h.annotations, path))
      ensures r.Err? ==> r.error == AnnotationError
      ensures r.Ok? ==> fresh(r.value) && fresh(r.value.axis) && r.value.Valid()
      ensures r.Ok? ==> r.value.annotations == CopyAnnotationsOf(h.annotations, path, "Histo1D")
      ensures r.Ok? ==> r.value.Stats() == h.Stats() && r.value.SearchTable() == h.SearchTable()
    {
      var p := CopyPath(h.annotations, path);
      var anns := InitAnnotations(h.annotations, "Histo1D", p, Title(h.annotations));
      if anns.Err? {
        return Err(anns.error);
      }
      var a := new Axis1D();
      a.bins, a.dbn, a.underflow, a.overflow := h.axis.bins, h.axis.dbn, h.axis.underflow, h.axis.overflow;
      a.edges, a.indexes, a.locked := h.axis.edges, h.axis.indexes, h.axis.locked;
      var res := new Histo1D.FromParts(anns.value, a);
      return Ok(res);
    }

    /** fill(x, w): a RangeError for NaN before anything changes; otherwise
        the statistics become FillStats of the old ones, and the call throws
        the RangeError of xMin() exactly when there are no bins. */
    method Fill(x: Double, w: real) returns (o: Outcome)
      requires Valid()
      modifies axis
      ensures Valid()
      ensures axis.edges == old(axis.edges) && axis.indexes == old(axis.indexes)
      ensures old(axis.Synced()) ==> axis.Synced()
      ensures x.NaN? ==> o == Fail(RangeError) && Stats() == old(Stats())
      ensures x.Num? ==> Stats() == FillStats(old(Stats()), old(SearchTable()), x.v, w)
      ensures x.Num? ==> (o == Pass <==> old(axis.bins) != [])
      ensures o.Fail? ==> o.error == RangeError
    {
      if x.NaN? {
        return Fail(RangeError);
      }
      ghost var t := SearchTable();
      ghost var s := Stats();
      axis.dbn := Fill1D(axis.dbn, x.v, w);
      var lo := axis.XMin();
      if lo.Err? {
        return Fail(lo.error);
      }
      var hi := axis.XMax();
      if lo.value <= x.v < hi.value {
        var index := axis.BinIndexAt(x.v);
        var b := if index == -1 then Err(RangeError) else axis.Bin(index);
        if b.Ok? {
          axis.bins := axis.bins[index := FillBin(axis.bins[index], x.v, w)];
          LayoutSameEdges(s.bins, axis.bins);
        }
      } else if x.v < lo.value {
        axis.underflow := Fill1D(axis.underflow, x.v, w);
      } else if x.v >= hi.value {
        axis.overflow := Fill1D(axis.overflow, x.v, w);
      }
      axis.SetLock(true);
      o := Pass;
    }

    /** fillBin(i, w): fill at bin i's midpoint, or the RangeError of bin(i). */
    method FillAtBin(i: nat, w: real) returns (o: Outcome)
      requires Valid()
      modifies axis
      ensures Valid()
      ensures axis.edges == old(axis.edges) && axis.indexes == old(axis.indexes)
      ensures old(axis.Synced()) ==> axis.Synced()
      ensures i >= old(|axis.bins|) ==> o == Fail(RangeError) && Stats() == old(Stats())
      ensures i < old(|axis.bins|) ==> o == Pass
      ensures i < old(|axis.bins|) ==> Stats() == FillStats(old(Stats()), old(SearchTable()), XMid(old(axis.bins[i])), w)
    {
      var b := axis.Bin(i);
      if b.Err? {
        return Fail(b.error);
      }
      o := Fill(Num(XMid(b.value)), w);
    }

    /** numEntries(includeoverflows): the total's count, or the wrapping sum
        of the bins' counts. */
    method NumEntries(includeOverflows: bool) returns (n: ULong)
      requires Valid()
      ensures n == if includeOverflows then axis.dbn.numFills else SumDbns(axis.bins).numFills
    {
      if includeOverflows {
        return axis.dbn.numFills;
      }
      var bs := axis.bins;
      n := 0;
      for i := 0 to |bs|
        invariant n == SumDbns(bs[..i]).numFills
      {
        assert bs[..i + 1][..i] == bs[..i];
        n := AddU(n, bs[i].dbn.numFills);
      }
      assert bs[..|bs|] == bs;
    }

    /** effNumEntries(includeoverflows). */
    method EffNumEntries(includeOverflows: bool) returns (n: real)
      requires Valid()
      ensures n == if includeOverflows then EffNumEntries1D(axis.dbn) else SumEffEntries(axis.bins)
    {
      if includeOverflows {
        return EffNumEntries1D(axis.dbn);
      }
      var bs := axis.bins;
      n := 0.0;
      for i := 0 to |bs|
        invariant n == SumEffEntries(bs[..i])
      {
        assert bs[..i + 1][..i] == bs[..i];
        n := n + EffNumEntries1D(bs[i].dbn);
      }
      assert bs[..|bs|] == bs;
    }

    /** sumW(includeoverflows). */
    method SumW(includeOverflows: bool) returns (r: real)
      requires Valid()
      ensures r == if includeOverflows then axis.dbn.sumW else SumDbns(axis.bins).sumW
    {
      if includeOverflows {
        return axis.dbn.sumW;
      }
      var bs := axis.bins;
      r := 0.0;
      for i := 0 to |bs|
        invariant r == SumDbns(bs[..i]).sumW
      {
        assert bs[..i + 1][..i] == bs[..i];
        r := r + bs[i].dbn.sumW;
      }
      assert bs[..|bs|] == bs;
    }

    /** sumW2(includeoverflows). */
    method SumW2(includeOverflows: bool) returns (r: real)
      requires Valid()
      ensures r == if includeOverflows then axis.dbn.sumW2 else SumDbns(axis.bins).sumW2
    {
      if includeOverflows {
        return axis.dbn.sumW2;
      }
      var bs := axis.bins;
      r := 0.0;
      for i := 0 to |bs|
        invariant r == SumDbns(bs[..i]).sumW2
      {
        assert bs[..i + 1][..i] == bs[..i];
        r := r + bs[i].dbn.sumW2;
      }
      assert bs[..|bs|] == bs;
    }
  }

  // ---------------------------------------------------------------------------
  // Properties

  /** The first lower edge is below the last upper edge, and a bin's slot
      lies inside [xMin, xMax). */
  lemma SlotInsideRange(bins: seq<HistoBin1D>, i: nat)
    requires ValidBins(bins) && SortedBins(bins) && Layout(bins).Ok? && i < |bins|
    ensures bins[0].xMin < bins[|bins| - 1].xMax
    ensures bins[0].xMin <= EffLow(bins, i) && bins[i].xMax <= bins[|bins| - 1].xMax
  {
    var n := |bins|;
    if n > 1 { UpperEdgesIncrease(bins, 0, n - 1); }
    if i > 0 {
      SortedLowerEdges(bins, 0, i - 1);
    }
    if i < n - 1 { UpperEdgesIncrease(bins, i, n - 1); }
  }

  /** On a laid-out sorted axis, a slot entry inside [xMin, xMax) that is
      not -1 is a bin index. */
  lemma InRangeSlotIsBin(bins: seq<HistoBin1D>, x: real)
    requires ValidBins(bins) && SortedBins(bins) && Layout(bins).Ok? && bins != []
    requires bins[0].xMin <= x < bins[|bins| - 1].xMax
    ensures TableShape(Layout(bins).value)
    ensures var t := Layout(bins).value; t.indexes[Slot(t.edges, x)] < |bins|
  {
    var t := Layout(bins).value;
    var n := |bins|;
    LayoutShape(bins);
    WalkLength(bins, n);
    var k := Slot(t.edges, x);
    if k < |WalkIndexes(bins, n)| {
      assert t.indexes[k] == WalkIndexes(bins, n)[k];
      WalkSlotKind(bins, n, k);
    }
  }

  /** On a laid-out sorted axis, the route of x is bin i exactly when x lies
      in bin i's slot. */
  lemma RouteToBinSpec(bins: seq<HistoBin1D>, x: real, i: nat)
    requires ValidBins(bins) && SortedBins(bins) && Layout(bins).Ok? && i < |bins|
    ensures TableShape(Layout(bins).value)
    ensures RouteOf(bins, Layout(bins).value, x) == ToBin(i) <==> EffLow(bins, i) <= x < bins[i].xMax
  {
    LayoutShape(bins);
    LayoutLookup(bins, x, i);
    SlotInsideRange(bins, i);
  }

  /** The outflows take exactly what lies outside [xMin, xMax); a gap
      exactly what lies inside it but in no bin's slot. */
  lemma RouteOutsideSpec(bins: seq<HistoBin1D>, x: real)
    requires ValidBins(bins) && SortedBins(bins) && Layout(bins).Ok? && bins != []
    ensures TableShape(Layout(bins).value)
    ensures RouteOf(bins, Layout(bins).value, x) == ToUnderflow <==> x < bins[0].xMin
    ensures RouteOf(bins, Layout(bins).value, x) == ToOverflow <==> x >= bins[|bins| - 1].xMax
    ensures RouteOf(bins, Layout(bins).value, x) == ToGap <==>
              bins[0].xMin <= x < bins[|bins| - 1].xMax
              && forall j :: 0 <= j < |bins| ==> !(EffLow(bins, j) <= x < bins[j].xMax)
  {
    LayoutShape(bins);
    LayoutLookupNone(bins, x);
    SlotInsideRange(bins, 0);
    if bins[0].xMin <= x < bins[|bins| - 1].xMax {
      InRangeSlotIsBin(bins, x);
    }
  }

  /** Filling bin i's midpoint routes to bin i. */
  lemma MidRoutesToBin(bins: seq<HistoBin1D>, i: nat)
    requires ValidBins(bins) && SortedBins(bins) && Layout(bins).Ok? && i < |bins|
    ensures TableShape(Layout(bins).value)
    ensures RouteOf(bins, Layout(bins).value, XMid(bins[i])) == ToBin(i)
  {
    RouteToBinSpec(bins, XMid(bins[i]), i);
    if !Gap(bins, i) {
      RelDiffSign(bins, i);
      assert !Overlap(bins, i) by { LayoutShape(bins); }
      assert bins[i - 1].xMax <= bins[i].xMin + RelTolerance * XWidth(bins[i]);
    }
  }

  /** Filling one bin adds the fill to the sum of the bins. */
  lemma {:induction false} SumDbnsFillBin(bins: seq<HistoBin1D>, i: nat, x: real, w: real)
    requires i < |bins|
    ensures SumDbns(bins[i := FillBin(bins[i], x, w)]) == Fill1D(SumDbns(bins), x, w)
    decreases |bins|
  {
    var n := |bins|;
    var nb := bins[i := FillBin(bins[i], x, w)];
    var init := bins[..n - 1];
    assert nb[..n - 1] == if i < n - 1 then init[i := FillBin(init[i], x, w)] else init;
    AddUAssociative(SumDbns(init).numFills, bins[n - 1].dbn.numFills, 1);
    AddUAssociative(SumDbns(init).numFills, 1, bins[n - 1].dbn.numFills);
    if i < n - 1 {
      SumDbnsFillBin(init, i, x, w);
      assert AddU(bins[n - 1].dbn.numFills, 1) == AddU(1, bins[n - 1].dbn.numFills);
    }
  }

  /** The in-range aggregates grow by the fill exactly when it went to a
      bin; gap, outflow and bin-less fills leave them as they were. */
  lemma FillAggregates(s: AxisStats, t: Table, x: real, w: real)
    requires TableShape(t)
    ensures RouteOf(s.bins, t, x).ToBin? ==> SumDbns(FillStats(s, t, x, w).bins) == Fill1D(SumDbns(s.bins), x, w)
    ensures !RouteOf(s.bins, t, x).ToBin? ==> FillStats(s, t, x, w).bins == s.bins
    ensures FillStats(s, t, x, w).total == Fill1D(s.total, x, w)
  {
    if RouteOf(s.bins, t, x).ToBin? {
      SumDbnsFillBin(s.bins, RouteOf(s.bins, t, x).index, x, w);
    }
  }

  /** A balanced axis stays balanced after a fill that reaches a bin or an
      outflow, and stops being balanced after one that reaches a gap or an
      axis with no bins. */
  lemma FillKeepsBalance(s: AxisStats, t: Table, x: real, w: real)
    requires TableShape(t) && Balanced(s)
    ensures Balanced(FillStats(s, t, x, w)) <==> !(RouteOf(s.bins, t, x) in {NoBins, ToGap})
  {
    var f := Fill1D(Zero1D(), x, w);
    var sum, u, o := SumDbns(s.bins), s.underflow, s.overflow;
    Fill1DIsAddOfSingle(s.total, x, w);
    match RouteOf(s.bins, t, x)
    case ToBin(i) =>
      SumDbnsFillBin(s.bins, i, x, w);
      Fill1DIsAddOfSingle(sum, x, w);
      AddSwap(sum, f, u, o);
    case ToUnderflow =>
      Fill1DIsAddOfSingle(u, x, w);
      AddSwap(Add1D(sum, u), f, Zero1D(), o);
      Add1DLaws(sum, u, f);
      Add1DLaws(Add1D(sum, u), f, o);
      Add1DLaws(Add1D(sum, u), o, f);
    case ToOverflow =>
      Fill1DIsAddOfSingle(o, x, w);
      Add1DLaws(Add1D(sum, u), o, f);
    case NoBins =>
      FillChangesCount(s.total, x, w);
    case ToGap =>
      FillChangesCount(s.total, x, w);
  }

  lemma AddSwap(a: Dbn1D, f: Dbn1D, b: Dbn1D, c: Dbn1D)
    ensures Add1D(Add1D(Add1D(a, f), b), c) == Add1D(Add1D(Add1D(a, b), c), f)
  {
    Add1DLaws(a, f, b);
    Add1DLaws(f, b, Zero1D());
    Add1DLaws(a, b, f);
    Add1DLaws(Add1D(a, b), f, c);
    Add1DLaws(f, c, Zero1D());
    Add1DLaws(Add1D(a, b), c, f);
  }

  /** A fill always changes the entry count. */
  lemma FillChangesCount(d: Dbn1D, x: real, w: real)
    ensures Fill1D(d, x, w) != d
  {
    WrapOnce(d.numFills + 1);
  }
}
