/** The Scatter2D conversions of src/Scatter2D.cc: one point per bin of a
    Histo1D or a Profile1D, with x errors that rebuild the bin edges.

    The bin statistics (focus, height and its error, mean, standard deviation
    and standard error) come from headers that are not part of this model; they
    are parameters, each of which may throw. Profile1D is a value: its
    annotations, its bins and its total and outflow distributions.
 */
module Scatter2DConversions {
  import opened Wrappers
  import opened MathUtils
  import opened Dbn
  import opened Bins
  import opened AxisLayout
  import opened Points
  import opened SortedVector
  import opened AnalysisObject
  import opened Histo1D
  import opened Scatter2D

  /** The statistics of a HistoBin1D that the conversions and ratios read. */
  datatype Histo1DMeasures = Histo1DMeasures(
    focus: HistoBin1D -> real,
    height: HistoBin1D -> Result<real>,
    heightErr: HistoBin1D -> Result<real>,
    relErr: HistoBin1D -> Result<real>)

  /** A Profile1D bin: its edges and its (x, y) distribution. */
  datatype ProfileBin1D = ProfileBin1D(xMin: real, xMax: real, dbn: Dbn2D)

  /** A Profile1D: its annotations, its bins, and its total, underflow and
      overflow distributions. */
  datatype Profile1D = Profile1D(annotations: Annotations, bins: seq<ProfileBin1D>,
                                 total: Dbn2D, underflow: Dbn2D, overflow: Dbn2D)

  datatype Profile1DMeasures = Profile1DMeasures(
    focus: ProfileBin1D -> real,
    mean: ProfileBin1D -> Result<real>,
    stdDev: ProfileBin1D -> Result<real>,
    stdErr: ProfileBin1D -> Result<real>)

  /** A statistic, or 0 when computing it throws. */
  function OrZero(r: Result<real>): (v: real)
    ensures r.Err? ==> v == 0.0
    ensures r.Ok? ==> v == r.value
  {
    if r.Ok? then r.value else 0.0
  }

  /** The point of one Histo1D bin: x at the focus or the midpoint, the bin
      edges as x errors, and the height with a symmetric height error. */
  function HistoBinPoint(b: HistoBin1D, usefocus: bool, m: Histo1DMeasures): (p: Point2D)
    requires ValidBin(b)
    ensures XMin2(p) == b.xMin && XMax2(p) == b.xMax
    ensures p.x == (if usefocus then m.focus(b) else XMid(b))
    ensures p.y == OrZero(m.height(b)) && p.eyMinus == p.eyPlus == OrZero(m.heightErr(b))
  {
    var x := if usefocus then m.focus(b) else XMid(b);
    var ey := OrZero(m.heightErr(b));
    Point2D(x, OrZero(m.height(b)), x - b.xMin, b.xMax - x, ey, ey)
  }

  function HistoPoints(bins: seq<HistoBin1D>, usefocus: bool, m: Histo1DMeasures): (r: seq<Point2D>)
    requires ValidBins(bins)
    ensures |r| == |bins| && forall i :: 0 <= i < |bins| ==> r[i] == HistoBinPoint(bins[i], usefocus, m)
  {
    seq(|bins|, i requires 0 <= i < |bins| => HistoBinPoint(bins[i], usefocus, m))
  }

  /** The point of one Profile1D bin: the mean, and the standard deviation
      or the standard error as its symmetric error. */
  function ProfileBinPoint(b: ProfileBin1D, usefocus: bool, usestddev: bool, m: Profile1DMeasures): (p: Point2D)
    ensures XMin2(p) == b.xMin && XMax2(p) == b.xMax
    ensures p.x == (if usefocus then m.focus(b) else (b.xMin + b.xMax) / 2.0)
    ensures p.y == OrZero(m.mean(b))
    ensures p.eyMinus == p.eyPlus == OrZero(if usestddev then m.stdDev(b) else m.stdErr(b))
  {
    var x := if usefocus then m.focus(b) else (b.xMin + b.xMax) / 2.0;
    var ey := OrZero(if usestddev then m.stdDev(b) else m.stdErr(b));
    Point2D(x, OrZero(m.mean(b)), x - b.xMin, b.xMax - x, ey, ey)
  }

  function ProfilePoints(bins: seq<ProfileBin1D>, usefocus: bool, usestddev: bool, m: Profile1DMeasures): (r: seq<Point2D>)
    ensures |r| == |bins| && forall i :: 0 <= i < |bins| ==> r[i] == ProfileBinPoint(bins[i], usefocus, usestddev, m)
  {
    seq(|bins|, i requires 0 <= i < |bins| => ProfileBinPoint(bins[i], usefocus, usestddev, m))
  }

  /** A default scatter with src's annotations copied over it and "Type" set
      to src's type; the AnnotationError of type() when src has none. */
  method ConvertedScatter(src: Annotations) returns (r: Result<Scatter2D>)
    requires WellFormed(src)
    ensures r.Ok? <==> TypeOf(src).Ok?
    ensures r.Err? ==> r.error == AnnotationError
    ensures r.Ok? ==> fresh(r.value) && r.value.Valid() && r.value.points == []
    ensures r.Ok? ==> forall a :: Lookup(r.value.annotations, a) == ConvertedLookup(src, TypeOf(src).value, a)
  {
    var created := Scatter2D.Create();
    var rtn := created.value;
    ghost var base := rtn.annotations;
    assert forall a :: Lookup(base, a) == ConvertedLookup([], "Scatter2D", a);
    var names := Keys(src);
    rtn.Overlay(src);
    var typ := TypeOf(src);
    if typ.Err? {
      return Err(typ.error);
    }
    rtn.SetAnnotation("Type", typ.value);
    forall a ensures Lookup(rtn.annotations, a) == ConvertedLookup(src, typ.value, a) {
      LookupFound(src, a);
    }
    return Ok(rtn);
  }

  /** mkScatter(h, usefocus): one point per bin, inserted in bin order. */
  method MkScatterOfHisto1D(h: Histo1D, usefocus: bool, m: Histo1DMeasures) returns (r: Result<Scatter2D>)
    requires h.Valid()
    ensures r.Ok? <==> TypeOf(h.annotations).Ok?
    ensures r.Err? ==> r.error == AnnotationError
    ensures r.Ok? ==> fresh(r.value) && r.value.Valid()
    ensures r.Ok? ==> r.value.points == InsertEach([], HistoPoints(h.axis.bins, usefocus, m), Less2)
    ensures r.Ok? ==> |r.value.points| == |h.axis.bins|
    ensures r.Ok? ==> forall a :: Lookup(r.value.annotations, a) == ConvertedLookup(h.annotations, TypeOf(h.annotations).value, a)
  {
    r := ConvertedScatter(h.annotations);
    if r.Err? {
      return;
    }
    var rtn := r.value;
    ghost var anns := rtn.annotations;
    var bins := h.axis.bins;
    ghost var pts := HistoPoints(bins, usefocus, m);
    for i := 0 to |bins|
      invariant rtn.points == InsertEach([], pts[..i], Less2)
      invariant rtn.annotations == anns && rtn.Valid()
    {
      var pt := HistoBinPoint(bins[i], usefocus, m);
      InsertEachSnoc([], pts[..i], pts[i], Less2);
      TakeSnoc(pts, i);
      rtn.AddPoint(pt);
    }
    assert pts[..|bins|] == pts;
    InsertedPointsSorted(pts);
  }

  /** mkScatter(p, usefocus, usestddev). */
  method MkScatterOfProfile1D(p: Profile1D, usefocus: bool, usestddev: bool, m: Profile1DMeasures)
    returns (r: Result<Scatter2D>)
    requires WellFormed(p.annotations)
    ensures r.Ok? <==> TypeOf(p.annotations).Ok?
    ensures r.Err? ==> r.error == AnnotationError
    ensures r.Ok? ==> fresh(r.value) && r.value.Valid()
    ensures r.Ok? ==> r.value.points == InsertEach([], ProfilePoints(p.bins, usefocus, usestddev, m), Less2)
    ensures r.Ok? ==> |r.value.points| == |p.bins|
    ensures r.Ok? ==> forall a :: Lookup(r.value.annotations, a) == ConvertedLookup(p.annotations, TypeOf(p.annotations).value, a)
  {
    r := ConvertedScatter(p.annotations);
    if r.Err? {
      return;
    }
    var rtn := r.value;
    ghost var anns := rtn.annotations;
    ghost var pts := ProfilePoints(p.bins, usefocus, usestddev, m);
    for i := 0 to |p.bins|
      invariant rtn.points == InsertEach([], pts[..i], Less2)
      invariant rtn.annotations == anns && rtn.Valid()
    {
      var pt := ProfileBinPoint(p.bins[i], usefocus, usestddev, m);
      InsertEachSnoc([], pts[..i], pts[i], Less2);
      TakeSnoc(pts, i);
      rtn.AddPoint(pt);
    }
    assert pts[..|p.bins|] == pts;
    InsertedPointsSorted(pts);
  }

  // ---------------------------------------------------------------------------
  // Properties

  /** On a laid-out sorted axis the bin midpoints strictly increase. */
  lemma MidsIncrease(bins: seq<HistoBin1D>, i: nat)
    requires ValidBins(bins) && SortedBins(bins) && Layout(bins).Ok? && i < |bins| - 1
    ensures XMid(bins[i]) < XMid(bins[i + 1])
  {
    SortedLowerEdges(bins, i, i + 1);
    UpperEdgesIncrease(bins, i, i + 1);
  }

  /** So the midpoint points are in bin order whenever neighbouring
      midpoints are not fuzzy-equal, and then point i of the scatter is bin
      i's point. */
  lemma MidPointsInBinOrder(bins: seq<HistoBin1D>, m: Histo1DMeasures)
    requires ValidBins(bins) && SortedBins(bins) && Layout(bins).Ok?
    requires forall i :: 0 <= i < |bins| - 1 ==> !FuzzyEquals(XMid(bins[i]), XMid(bins[i + 1]))
    ensures InsertEach([], HistoPoints(bins, false, m), Less2) == HistoPoints(bins, false, m)
  {
    var pts := HistoPoints(bins, false, m);
    forall i | 0 <= i < |pts| - 1 ensures Less2(pts[i], pts[i + 1]) {
      MidsIncrease(bins, i);
    }
    assert [] + pts == pts;
    InsertEachChained([], pts, Less2);
  }
}
