/** The Scatter3D conversions of src/Scatter3D.cc: one point per bin of a
    Histo2D or a Profile2D, in bin-index order, with x and y errors that
    rebuild the bin edges.

    Histo2D, Profile2D and their bins come from headers that are not part of
    this model; they are values (annotations, bins and the total
    distribution) and their statistics are parameters that may throw. For a
    Histo2D nothing is caught, so the first bin whose height or height error
    throws makes the conversion throw; for a Profile2D only a LowStatsError
    is caught, and it becomes 0.
 */
module Scatter3DConversions {
  import opened Wrappers
  import opened Dbn
  import opened Points
  import opened SortedVector
  import opened AnalysisObject
  import opened Scatter3D

  datatype HistoBin2D = HistoBin2D(xMin: real, xMax: real, yMin: real, yMax: real, dbn: Dbn2D)

  /** A Histo2D: its annotations, its bins and its total distribution. */
  datatype Histo2D = Histo2D(annotations: Annotations, bins: seq<HistoBin2D>, total: Dbn2D)

  datatype Histo2DMeasures = Histo2DMeasures(
    xFocus: HistoBin2D -> real,
    yFocus: HistoBin2D -> real,
    height: HistoBin2D -> Result<real>,
    heightErr: HistoBin2D -> Result<real>)

  datatype ProfileBin2D = ProfileBin2D(xMin: real, xMax: real, yMin: real, yMax: real, dbn: Dbn3D)

  /** A Profile2D: its annotations, its bins and its total distribution. */
  datatype Profile2D = Profile2D(annotations: Annotations, bins: seq<ProfileBin2D>, total: Dbn3D)

  datatype Profile2DMeasures = Profile2DMeasures(
    xFocus: ProfileBin2D -> real,
    yFocus: ProfileBin2D -> real,
    mean: ProfileBin2D -> Result<real>,
    stdDev: ProfileBin2D -> Result<real>,
    stdErr: ProfileBin2D -> Result<real>)

  /** The point of a bin from its two centres, its edges and its z value and
      symmetric z error. */
  function EdgePoint(x: real, y: real, z: real, ez: real, xMin: real, xMax: real, yMin: real, yMax: real): (p: Point3D)
    ensures XMin3(p) == xMin && XMax3(p) == xMax && YMin3(p) == yMin && YMax3(p) == yMax
    ensures p.x == x && p.y == y && p.z == z && p.ezMinus == ez && p.ezPlus == ez
  {
    Point3D(x, y, z, x - xMin, xMax - x, y - yMin, yMax - y, ez, ez)
  }

  /** A Histo2D bin's point, or the error of its height, else of its height
      error. */
  function Histo2DBinPoint(b: HistoBin2D, usefocus: bool, m: Histo2DMeasures): (r: Result<Point3D>)
    ensures r.Ok? <==> m.height(b).Ok? && m.heightErr(b).Ok?
    ensures r.Err? ==> r.error == if m.height(b).Err? then m.height(b).error else m.heightErr(b).error
  {
    var x := if usefocus then m.xFocus(b) else (b.xMin + b.xMax) / 2.0;
    var y := if usefocus then m.yFocus(b) else (b.yMin + b.yMax) / 2.0;
    var z :- m.height(b);
    var ez :- m.heightErr(b);
    Ok(EdgePoint(x, y, z, ez, b.xMin, b.xMax, b.yMin, b.yMax))
  }

  /** A statistic with its LowStatsError turned into 0; other errors pass. */
  function CatchLowStats(r: Result<real>): (c: Result<real>)
    ensures c.Err? <==> r.Err? && r.error != LowStatsError
    ensures c.Ok? ==> c.value == if r.Ok? then r.value else 0.0
    ensures c.Err? ==> c == r
  {
    if r.Err? && r.error == LowStatsError then Ok(0.0) else r
  }

  /** A Profile2D bin's point: the mean, and the standard deviation or the
      standard error, each 0 on a LowStatsError. */
  function Profile2DBinPoint(b: ProfileBin2D, usefocus: bool, usestddev: bool, m: Profile2DMeasures): (r: Result<Point3D>)
    ensures r.Ok? <==> CatchLowStats(m.mean(b)).Ok? && CatchLowStats(if usestddev then m.stdDev(b) else m.stdErr(b)).Ok?
  {
    var x := if usefocus then m.xFocus(b) else (b.xMin + b.xMax) / 2.0;
    var y := if usefocus then m.yFocus(b) else (b.yMin + b.yMax) / 2.0;
    var z :- CatchLowStats(m.mean(b));
    var ez :- CatchLowStats(if usestddev then m.stdDev(b) else m.stdErr(b));
    Ok(EdgePoint(x, y, z, ez, b.xMin, b.xMax, b.yMin, b.yMax))
  }

  /** A default scatter with src's annotations copied over it and "Type" set
      to src's type; the AnnotationError of type() when src has none. */
  method ConvertedScatter(src: Annotations) returns (r: Result<Scatter3D>)
    requires WellFormed(src)
    ensures r.Ok? <==> TypeOf(src).Ok?
    ensures r.Err? ==> r.error == AnnotationError
    ensures r.Ok? ==> fresh(r.value) && r.value.Valid() && r.value.points == []
    ensures r.Ok? ==> forall a :: Lookup(r.value.annotations, a) == ConvertedLookup(src, TypeOf(src).value, a)
  {
    var created := Scatter3D.Create();
    var rtn := created.value;
    ghost var base := rtn.annotations;
    assert forall a :: Lookup(base, a) == ConvertedLookup([], "Scatter3D", a);
    var names := Keys(src);
    rtn.Overlay(src);
    var typ := TypeOf(src);
    if typ.Err? {
      return Err(typ.error);
    }
    rtn.SetAnnotation("Type", typ.value);
    forall a ensures Lookup(rtn.annotations, a) == ConvertedLookup(src, typ.value, a) {
      LookupFound(src, a);
    }
    return Ok(rtn);
  }

  /** The index loop shared by both conversions: each bin's point inserted in
      turn, or the first failing bin's error. */
  method AddBinPoints<B>(rtn: Scatter3D, bins: seq<B>, f: B -> Result<Point3D>) returns (o: Outcome)
    modifies rtn
    ensures rtn.annotations == old(rtn.annotations)
    ensures o.Pass? <==> MapResults(bins, f).Ok?
    ensures o.Fail? ==> o.error == MapResults(bins, f).error
    ensures o.Pass? ==> rtn.points == InsertEach(old(rtn.points), MapResults(bins, f).value, Less3)
  {
    ghost var start := rtn.points;
    ghost var done: seq<Point3D> := [];
    for i := 0 to |bins|
      invariant MapResults(bins[..i], f) == Ok(done)
      invariant rtn.points == InsertEach(start, done, Less3)
      invariant rtn.annotations == old(rtn.annotations)
    {
      assert bins[..i + 1][..i] == bins[..i];
      var pt := f(bins[i]);
      if pt.Err? {
        MapResultsPrefixFails(bins, i + 1, f);
        return Fail(pt.error);
      }
      InsertEachSnoc(start, done, pt.value, Less3);
      done := done + [pt.value];
      rtn.AddPoint(pt.value);
    }
    assert bins[..|bins|] == bins;
    o := Pass;
  }

  /** mkScatter(h, usefocus) for a Histo2D. */
  method MkScatterOfHisto2D(h: Histo2D, usefocus: bool, m: Histo2DMeasures) returns (r: Result<Scatter3D>)
    requires WellFormed(h.annotations)
    ensures TypeOf(h.annotations).Err? ==> r == Err(AnnotationError)
    ensures TypeOf(h.annotations).Ok? ==> var pts := MapResults(h.bins, b => Histo2DBinPoint(b, usefocus, m));
      (r.Ok? <==> pts.Ok?) && (r.Err? ==> r.error == pts.error)
    ensures r.Ok? ==> fresh(r.value) && r.value.Valid()
    ensures r.Ok? ==> r.value.points == InsertEach([], MapResults(h.bins, b => Histo2DBinPoint(b, usefocus, m)).value, Less3)
    ensures r.Ok? ==> forall a :: Lookup(r.value.annotations, a) == ConvertedLookup(h.annotations, TypeOf(h.annotations).value, a)
  {
    r := ConvertedScatter(h.annotations);
    if r.Err? {
      return;
    }
    var o := AddBinPoints(r.value, h.bins, b => Histo2DBinPoint(b, usefocus, m));
    if o.Fail? {
      return Err(o.error);
    }
  }

  /** mkScatter(h, usefocus, usestddev) for a Profile2D. */
  method MkScatterOfProfile2D(h: Profile2D, usefocus: bool, usestddev: bool, m: Profile2DMeasures)
    returns (r: Result<Scatter3D>)
    requires WellFormed(h.annotations)
    ensures TypeOf(h.annotations).Err? ==> r == Err(AnnotationError)
    ensures TypeOf(h.annotations).Ok? ==> var pts := MapResults(h.bins, b => Profile2DBinPoint(b, usefocus, usestddev, m));
      (r.Ok? <==> pts.Ok?) && (r.Err? ==> r.error == pts.error)
    ensures r.Ok? ==> fresh(r.value) && r.value.Valid()
    ensures r.Ok? ==> var pts := MapResults(h.bins, b => Profile2DBinPoint(b, usefocus, usestddev, m));
      r.value.points == InsertEach([], pts.value, Less3)
    ensures r.Ok? ==> forall a :: Lookup(r.value.annotations, a) == ConvertedLookup(h.annotations, TypeOf(h.annotations).value, a)
  {
    r := ConvertedScatter(h.annotations);
    if r.Err? {
      return;
    }
    var o := AddBinPoints(r.value, h.bins, b => Profile2DBinPoint(b, usefocus, usestddev, m));
    if o.Fail? {
      return Err(o.error);
    }
  }

  // ---------------------------------------------------------------------------
  // Properties

  /** A Histo2D conversion that succeeds has one point per bin, and point i
      of the bin-order sequence rebuilds bin i's edges and carries its height. */
  lemma Histo2DPointsRebuildBins(h: Histo2D, usefocus: bool, m: Histo2DMeasures, i: nat)
    requires MapResults(h.bins, b => Histo2DBinPoint(b, usefocus, m)).Ok? && i < |h.bins|
    ensures var p := MapResults(h.bins, b => Histo2DBinPoint(b, usefocus, m)).value[i];
      XMin3(p) == h.bins[i].xMin && XMax3(p) == h.bins[i].xMax
      && YMin3(p) == h.bins[i].yMin && YMax3(p) == h.bins[i].yMax
      && p.z == m.height(h.bins[i]).value && p.ezMinus == p.ezPlus == m.heightErr(h.bins[i]).value
  {
    var f := b => Histo2DBinPoint(b, usefocus, m);
    assert f(h.bins[i]).Ok?;
  }

  /** A Profile2D bin with too few statistics for a mean still gives a
      point, at z = 0; any other error of the mean is not caught. */
  lemma Profile2DLowStats(b: ProfileBin2D, usefocus: bool, usestddev: bool, m: Profile2DMeasures)
    requires m.mean(b) == Err(LowStatsError) && m.stdDev(b).Ok? && m.stdErr(b).Ok?
    ensures Profile2DBinPoint(b, usefocus, usestddev, m).Ok?
    ensures Profile2DBinPoint(b, usefocus, usestddev, m).value.z == 0.0
  {
  }
}
