/** The Histo1D ratios and integrals of src/Histo1D.cc: divide, efficiency
    and toIntegralHisto, each building a Scatter2D.

    Bin heights, their errors and relative errors are parameters that may
    throw; divide catches nothing, so the first bin whose statistics throw
    makes it throw. The square root is a parameter. Points are inserted into
    the sorted vector, and efficiency and toIntegralHisto then reset point i
    of that sorted vector from bin i, as the source does.
 */
module Histo1DRatios {
  import opened Wrappers
  import opened MathUtils
  import opened Dbn
  import opened Bins
  import opened AxisLayout
  import opened Axis1D
  import opened Points
  import opened SortedVector
  import opened AnalysisObject
  import opened Histo1D
  import opened Scatter2D
  import opened Scatter2DConversions
  import opened EfficiencyFormula

  // ---------------------------------------------------------------------------
  // divide(numer, denom)

  /** Whether divide leaves a bin's point at y = ey = 0: the denominator's
      height is 0, or the numerator's is 0 with a non-zero error. */
  function DivisionIsEmpty(b1: HistoBin1D, b2: HistoBin1D, m: Histo1DMeasures): (r: Result<bool>)
    ensures r.Ok? <==> m.height(b2).Ok? && (m.height(b2).value != 0.0 ==>
              m.height(b1).Ok? && (m.height(b1).value == 0.0 ==> m.heightErr(b1).Ok?))
    ensures r.Ok? ==> (r.value <==> m.height(b2).value == 0.0
                                    || (m.height(b1).value == 0.0 && m.heightErr(b1).value != 0.0))
  {
    var h2 :- m.height(b2);
    if h2 == 0.0 then Ok(true)
    else
      var h1 :- m.height(b1);
      if h1 != 0.0 then Ok(false)
      else
        var e1 :- m.heightErr(b1);
        Ok(e1 != 0.0)
  }

  /** A bin's relative error, or 0 when its height error is 0. */
  function RelErrOrZero(b: HistoBin1D, m: Histo1DMeasures): (r: Result<real>)
    ensures r.Ok? <==> m.heightErr(b).Ok? && (m.heightErr(b).value != 0.0 ==> m.relErr(b).Ok?)
    ensures r.Ok? ==> r.value == if m.heightErr(b).value != 0.0 then m.relErr(b).value else 0.0
  {
    var e :- m.heightErr(b);
    if e != 0.0 then m.relErr(b) else Ok(0.0)
  }

  /** The point divide makes from numerator bin b1 and denominator bin b2
      (a RangeError when the denominator has no bin i). */
  function DivideBinPoint(b1: HistoBin1D, b2: Result<HistoBin1D>, m: Histo1DMeasures, sqrt: real -> real): (r: Result<Point2D>)
    ensures b2.Err? ==> r == Err(b2.error)
    ensures b2.Ok? && !(FuzzyEquals(b1.xMin, b2.value.xMin) && FuzzyEquals(b1.xMax, b2.value.xMax)) ==> r == Err(BinningError)
    ensures r.Ok? ==> b2.Ok? && DivisionIsEmpty(b1, b2.value, m).Ok?
    ensures r.Ok? ==> r.value.x == (b1.xMin + b1.xMax) / 2.0 && XMin2(r.value) == b1.xMin && XMax2(r.value) == b1.xMax
    ensures r.Ok? ==> r.value.eyMinus == r.value.eyPlus
  {
    var d :- b2;
    if !FuzzyEquals(b1.xMin, d.xMin) || !FuzzyEquals(b1.xMax, d.xMax) then Err(BinningError)
    else
      var x := (b1.xMin + b1.xMax) / 2.0;
      var empty :- DivisionIsEmpty(b1, d, m);
      if empty then Ok(Point2D(x, 0.0, x - b1.xMin, b1.xMax - x, 0.0, 0.0))
      else
        var h1 := m.height(b1).value;
        var h2 := m.height(d).value;
        var y := h1 / h2;
        var r1 :- RelErrOrZero(b1, m);
        var r2 :- RelErrOrZero(d, m);
        var ey := y * sqrt(Sqr(r1) + Sqr(r2));
        Ok(Point2D(x, y, x - b1.xMin, b1.xMax - x, ey, ey))
  }

  /** Numerator bin i with bin(i) of the denominator. */
  function DividePairs(nb: seq<HistoBin1D>, db: seq<HistoBin1D>): (r: seq<(HistoBin1D, Result<HistoBin1D>)>)
    ensures |r| == |nb|
    ensures forall i :: 0 <= i < |nb| ==> r[i].0 == nb[i] && r[i].1 == if i < |db| then Ok(db[i]) else Err(RangeError)
  {
    seq(|nb|, i requires 0 <= i < |nb| => (nb[i], if i < |db| then Ok(db[i]) else Err(RangeError)))
  }

  function DivideStep(m: Histo1DMeasures, sqrt: real -> real): ((HistoBin1D, Result<HistoBin1D>)) -> Result<Point2D> {
    (pr: (HistoBin1D, Result<HistoBin1D>)) => DivideBinPoint(pr.0, pr.1, m, sqrt)
  }

  /** The points of divide in bin order, or the first failing bin's error. */
  function DividePoints(nb: seq<HistoBin1D>, db: seq<HistoBin1D>, m: Histo1DMeasures, sqrt: real -> real): Result<seq<Point2D>> {
    MapResults(DividePairs(nb, db), DivideStep(m, sqrt))
  }

  method Divide(numer: Histo1D, denom: Histo1D, m: Histo1DMeasures, sqrt: real -> real) returns (r: Result<Scatter2D>)
    ensures var d := DividePoints(numer.axis.bins, denom.axis.bins, m, sqrt);
      (r.Ok? <==> d.Ok?) && (r.Err? ==> r.error == d.error)
    ensures r.Ok? ==> fresh(r.value) && r.value.Valid()
    ensures r.Ok? ==> r.value.annotations == InitAnnotations([], "Scatter2D", "", "").value
    ensures r.Ok? ==> r.value.points == InsertEach([], DividePoints(numer.axis.bins, denom.axis.bins, m, sqrt).value, Less2)
  {
    var created := Scatter2D.Create();
    var rtn := created.value;
    ghost var anns := rtn.annotations;
    ghost var pairs := DividePairs(numer.axis.bins, denom.axis.bins);
    ghost var done: seq<Point2D> := [];
    for i := 0 to |numer.axis.bins|
      invariant MapResults(pairs[..i], DivideStep(m, sqrt)) == Ok(done)
      invariant rtn.points == InsertEach([], done, Less2)
      invariant rtn.annotations == anns && rtn.Valid()
    {
      assert pairs[..i + 1][..i] == pairs[..i];
      var b1 := numer.axis.Bin(i);
      var b2 := denom.axis.Bin(i);
      var pt := DivideBinPoint(b1.value, b2, m, sqrt);
      assert pt == DivideStep(m, sqrt)(pairs[i]);
      if pt.Err? {
        MapResultsPrefixFails(pairs, i + 1, DivideStep(m, sqrt));
        return Err(pt.error);
      }
      InsertEachSnoc([], done, pt.value, Less2);
      done := done + [pt.value];
      rtn.AddPoint(pt.value);
    }
    assert pairs[..|pairs|] == pairs;
    return Ok(rtn);
  }

  /** A successful division has one point per numerator bin, point i being
      bin i's: at its midpoint, spanning its edges, with y = 0 for an empty
      division and y * height(denominator) == height(numerator) otherwise.
      The denominator then has at least as many bins and the same edges, up
      to fuzzy equality. */
  lemma DividePointsMeaning(nb: seq<HistoBin1D>, db: seq<HistoBin1D>, m: Histo1DMeasures, sqrt: real -> real, i: nat)
    requires DividePoints(nb, db, m, sqrt).Ok? && i < |nb|
    ensures |DividePoints(nb, db, m, sqrt).value| == |nb| && i < |db|
    ensures FuzzyEquals(nb[i].xMin, db[i].xMin) && FuzzyEquals(nb[i].xMax, db[i].xMax)
    ensures var p := DividePoints(nb, db, m, sqrt).value[i];
      DivisionIsEmpty(nb[i], db[i], m).Ok?
      && XMin2(p) == nb[i].xMin && XMax2(p) == nb[i].xMax && p.eyMinus == p.eyPlus
      && (ValidBin(nb[i]) ==> p.x == XMid(nb[i]))
      && (DivisionIsEmpty(nb[i], db[i], m).value ==> p.y == 0.0 && p.eyPlus == 0.0)
      && (!DivisionIsEmpty(nb[i], db[i], m).value ==> p.y * m.height(db[i]).value == m.height(nb[i]).value)
  {
    var pairs := DividePairs(nb, db);
    var f := DivideStep(m, sqrt);
    assert f(pairs[i]).Ok?;
    assert f(pairs[i]) == DivideBinPoint(nb[i], pairs[i].1, m, sqrt);
    var p := DividePoints(nb, db, m, sqrt).value[i];
    if !DivisionIsEmpty(nb[i], db[i], m).value {
      var h1, h2 := m.height(nb[i]).value, m.height(db[i]).value;
      assert p.y == h1 / h2;
      DivMul(h1, h2);
    }
  }

  /** A denominator with fewer bins than the numerator always throws. */
  lemma DivideShortDenominator(nb: seq<HistoBin1D>, db: seq<HistoBin1D>, m: Histo1DMeasures, sqrt: real -> real)
    requires |db| < |nb|
    ensures DividePoints(nb, db, m, sqrt).Err?
  {
    var pairs := DividePairs(nb, db);
    assert DivideStep(m, sqrt)(pairs[|db|]).Err?;
  }

  /** Bin i of the two histograms with edges that are not fuzzy-equal makes
      divide throw (a BinningError, unless an earlier bin failed first). */
  lemma DivideMismatchedEdges(nb: seq<HistoBin1D>, db: seq<HistoBin1D>, m: Histo1DMeasures, sqrt: real -> real, i: nat)
    requires i < |nb| && i < |db|
    requires !FuzzyEquals(nb[i].xMin, db[i].xMin) || !FuzzyEquals(nb[i].xMax, db[i].xMax)
    ensures DividePoints(nb, db, m, sqrt).Err?
    ensures (forall j :: 0 <= j < i ==> DivideStep(m, sqrt)(DividePairs(nb, db)[j]).Ok?) ==>
              DividePoints(nb, db, m, sqrt).error == BinningError
  {
    var pairs := DividePairs(nb, db);
    var f := DivideStep(m, sqrt);
    assert f(pairs[i]) == Err(BinningError);
    var d := DividePoints(nb, db, m, sqrt);
    if forall j :: 0 <= j < i ==> f(pairs[j]).Ok? {
      var k :| 0 <= k < |pairs| && f(pairs[k]).Err? && d.error == f(pairs[k]).error
               && forall j :: 0 <= j < k ==> f(pairs[j]).Ok?;
      assert k == i;
    }
  }

  /** On a laid-out numerator whose neighbouring midpoints are not
      fuzzy-equal, the sorted vector keeps the points in bin order, so point
      i of the scatter is bin i's. */
  lemma DivideInBinOrder(nb: seq<HistoBin1D>, db: seq<HistoBin1D>, m: Histo1DMeasures, sqrt: real -> real)
    requires ValidBins(nb) && SortedBins(nb) && Layout(nb).Ok?
    requires forall i :: 0 <= i < |nb| - 1 ==> !FuzzyEquals(XMid(nb[i]), XMid(nb[i + 1]))
    requires DividePoints(nb, db, m, sqrt).Ok?
    ensures InsertEach([], DividePoints(nb, db, m, sqrt).value, Less2) == DividePoints(nb, db, m, sqrt).value
  {
    var pts := DividePoints(nb, db, m, sqrt).value;
    forall i | 0 <= i < |pts| - 1 ensures Less2(pts[i], pts[i + 1]) {
      DividePointsMeaning(nb, db, m, sqrt, i);
      DividePointsMeaning(nb, db, m, sqrt, i + 1);
      MidsIncrease(nb, i);
    }
    assert [] + pts == pts;
    InsertEachChained([], pts, Less2);
  }

  /** A bin divided by itself is 1 when its height is non-zero. */
  lemma DivideBinBySelf(b: HistoBin1D, m: Histo1DMeasures, sqrt: real -> real)
    requires m.height(b).Ok? && m.height(b).value != 0.0 && m.heightErr(b).Ok? && m.relErr(b).Ok?
    ensures DivideBinPoint(b, Ok(b), m, sqrt).Ok?
    ensures DivideBinPoint(b, Ok(b), m, sqrt).value.y == 1.0
  {
    FuzzyEqualsReflexive(b.xMin, FuzzyTolerance);
    FuzzyEqualsReflexive(b.xMax, FuzzyTolerance);
    var h := m.height(b).value;
    assert DivisionIsEmpty(b, b, m) == Ok(false);
    assert h / h == 1.0;
  }

  // ---------------------------------------------------------------------------
  // efficiency(accepted, total)

  /** The accepted bin is consistent with a subset of the total bin: no more
      entries and no larger sum of weights. */
  predicate BinIsSubset(acc: HistoBin1D, tot: HistoBin1D) {
    !(acc.dbn.numFills > tot.dbn.numFills || acc.dbn.sumW > tot.dbn.sumW)
  }

  predicate AllSubsets(ab: seq<HistoBin1D>, tb: seq<HistoBin1D>) {
    forall i :: 0 <= i < |ab| ==> i < |tb| && BinIsSubset(ab[i], tb[i])
  }

  /** A point with its y reset to the efficiency of an accepted and a total
      bin, with a symmetric error. */
  function EfficiencyBinPoint(p: Point2D, acc: HistoBin1D, tot: HistoBin1D, sqrt: real -> real): Point2D {
    SetYAndErr2(p, EfficiencyValue(acc.dbn.sumW, tot.dbn.sumW),
                EfficiencyError(acc.dbn.sumW, acc.dbn.sumW2, tot.dbn.sumW, tot.dbn.sumW2, sqrt))
  }

  function EfficiencyPoints(pts: seq<Point2D>, ab: seq<HistoBin1D>, tb: seq<HistoBin1D>, sqrt: real -> real): (r: seq<Point2D>)
    requires |pts| <= |ab| && |pts| <= |tb|
    ensures |r| == |pts| && forall i :: 0 <= i < |pts| ==> r[i] == EfficiencyBinPoint(pts[i], ab[i], tb[i], sqrt)
  {
    seq(|pts|, i requires 0 <= i < |pts| => EfficiencyBinPoint(pts[i], ab[i], tb[i], sqrt))
  }

  method Efficiency(accepted: Histo1D, total: Histo1D, m: Histo1DMeasures, sqrt: real -> real) returns (r: Result<Scatter2D>)
    ensures var d := DividePoints(accepted.axis.bins, total.axis.bins, m, sqrt);
      (r.Ok? <==> d.Ok? && AllSubsets(accepted.axis.bins, total.axis.bins))
      && (r.Err? ==> r.error == if d.Err? then d.error else UserError)
    ensures r.Ok? ==> fresh(r.value) && r.value.Valid()
    ensures r.Ok? ==> r.value.annotations == InitAnnotations([], "Scatter2D", "", "").value
    ensures r.Ok? ==> var d := DividePoints(accepted.axis.bins, total.axis.bins, m, sqrt);
      |d.value| == |accepted.axis.bins| <= |total.axis.bins|
      && r.value.points == EfficiencyPoints(InsertEach([], d.value, Less2), accepted.axis.bins, total.axis.bins, sqrt)
  {
    var div := Divide(accepted, total, m, sqrt);
    if div.Err? {
      return div;
    }
    var tmp := div.value;
    ghost var ab, tb := accepted.axis.bins, total.axis.bins;
    ghost var d := DividePoints(ab, tb, m, sqrt);
    if |ab| > |tb| {
      DivideShortDenominator(ab, tb, m, sqrt);
    }
    InsertedPointsSorted(d.value);
    var o := ResetEfficiencies(tmp, accepted, total, sqrt);
    if o.Fail? {
      return Err(o.error);
    }
    return Ok(tmp);
  }

  /** The loop of efficiency after the division: point i reset from bins i
      of the two histograms, or a UserError at the first bin that is not a
      subset. */
  method ResetEfficiencies(tmp: Scatter2D, accepted: Histo1D, total: Histo1D, sqrt: real -> real) returns (o: Outcome)
    requires |tmp.points| == |accepted.axis.bins| <= |total.axis.bins|
    modifies tmp
    ensures tmp.annotations == old(tmp.annotations)
    ensures o.Pass? <==> AllSubsets(accepted.axis.bins, total.axis.bins)
    ensures o.Fail? ==> o.error == UserError
    ensures o.Pass? ==> tmp.points == EfficiencyPoints(old(tmp.points), accepted.axis.bins, total.axis.bins, sqrt)
  {
    ghost var ab, tb := accepted.axis.bins, total.axis.bins;
    ghost var pts := tmp.points;
    for i := 0 to |accepted.axis.bins|
      invariant |tmp.points| == |pts|
      invariant forall k :: 0 <= k < |pts| ==> tmp.points[k] == if k < i then EfficiencyBinPoint(pts[k], ab[k], tb[k], sqrt) else pts[k]
      invariant forall k :: 0 <= k < i ==> BinIsSubset(ab[k], tb[k])
      invariant tmp.annotations == old(tmp.annotations)
    {
      var bAcc := accepted.axis.Bin(i);
      var bTot := total.axis.Bin(i);
      var point := tmp.Point(i);
      if bAcc.value.dbn.numFills > bTot.value.dbn.numFills || bAcc.value.dbn.sumW > bTot.value.dbn.sumW {
        assert !BinIsSubset(ab[i], tb[i]);
        return Fail(UserError);
      }
      var eff := EfficiencyValue(bAcc.value.dbn.sumW, bTot.value.dbn.sumW);
      var err := EfficiencyError(bAcc.value.dbn.sumW, bAcc.value.dbn.sumW2, bTot.value.dbn.sumW, bTot.value.dbn.sumW2, sqrt);
      tmp.points := tmp.points[i := SetYAndErr2(point.value, eff, err)];
    }
    assert tmp.points == EfficiencyPoints(pts, ab, tb, sqrt);
    return Pass;
  }

  /** The efficiency keeps each point's x and x errors, and its y is a
      fraction for a non-empty subset bin of non-negative weight. */
  lemma EfficiencyPointBounds(pts: seq<Point2D>, ab: seq<HistoBin1D>, tb: seq<HistoBin1D>, sqrt: real -> real, i: nat)
    requires |pts| <= |ab| && |pts| <= |tb| && i < |pts|
    ensures var e := EfficiencyPoints(pts, ab, tb, sqrt)[i];
      e.x == pts[i].x && e.exMinus == pts[i].exMinus && e.exPlus == pts[i].exPlus && e.eyMinus == e.eyPlus
    ensures BinIsSubset(ab[i], tb[i]) && 0.0 <= ab[i].dbn.sumW && tb[i].dbn.sumW != 0.0 ==>
              0.0 <= EfficiencyPoints(pts, ab, tb, sqrt)[i].y <= 1.0
    ensures tb[i].dbn.sumW == 0.0 ==> EfficiencyPoints(pts, ab, tb, sqrt)[i].y == 0.0
  {
    var a, t := ab[i].dbn, tb[i].dbn;
    EfficiencyBounds(a.sumW, a.sumW2, t.sumW, t.sumW2, sqrt);
  }

  // ---------------------------------------------------------------------------
  // toIntegralHisto(h, includeunderflow)

  /** The first value of toIntegralHisto's running sum. */
  function IntegralStart(underflow: Dbn1D, includeunderflow: bool): real {
    if includeunderflow then underflow.sumW else 0.0
  }

  /** The running sum after k bins. */
  function RunningIntegral(start: real, bins: seq<HistoBin1D>, k: nat): real
    requires k <= |bins|
  {
    start + SumDbns(bins[..k]).sumW
  }

  function IntegralPoints(pts: seq<Point2D>, bins: seq<HistoBin1D>, start: real, sqrt: real -> real): (r: seq<Point2D>)
    requires |pts| <= |bins|
    ensures |r| == |pts|
    ensures forall i :: 0 <= i < |pts| ==> r[i] == SetYAndErr2(pts[i], RunningIntegral(start, bins, i + 1), sqrt(RunningIntegral(start, bins, i + 1)))
  {
    seq(|pts|, i requires 0 <= i < |pts| =>
      SetYAndErr2(pts[i], RunningIntegral(start, bins, i + 1), sqrt(RunningIntegral(start, bins, i + 1))))
  }

  method ToIntegralHisto(h: Histo1D, includeunderflow: bool, m: Histo1DMeasures, sqrt: real -> real) returns (r: Result<Scatter2D>)
    requires h.Valid()
    ensures r.Ok? <==> TypeOf(h.annotations).Ok?
    ensures r.Err? ==> r.error == AnnotationError
    ensures r.Ok? ==> fresh(r.value) && r.value.Valid()
    ensures r.Ok? ==> forall a :: Lookup(r.value.annotations, a) == ConvertedLookup(h.annotations, TypeOf(h.annotations).value, a)
    ensures r.Ok? ==> r.value.points == IntegralPoints(InsertEach([], HistoPoints(h.axis.bins, false, m), Less2),
                                                       h.axis.bins, IntegralStart(h.axis.underflow, includeunderflow), sqrt)
  {
    r := MkScatterOfHisto1D(h, false, m);
    if r.Err? {
      return;
    }
    var tmp := r.value;
    ghost var bins := h.axis.bins;
    ghost var start := IntegralStart(h.axis.underflow, includeunderflow);
    ghost var pts := tmp.points;
    ghost var anns := tmp.annotations;
    var integral := if includeunderflow then h.axis.underflow.sumW else 0.0;
    assert bins[..0] == [];
    for i := 0 to |h.axis.bins|
      invariant integral == RunningIntegral(start, bins, i)
      invariant |tmp.points| == |pts|
      invariant forall k :: 0 <= k < |pts| ==> tmp.points[k] == if k < i then
          SetYAndErr2(pts[k], RunningIntegral(start, bins, k + 1), sqrt(RunningIntegral(start, bins, k + 1))) else pts[k]
      invariant tmp.annotations == anns && tmp.Valid()
    {
      var point := tmp.Point(i);
      var b := h.axis.Bin(i);
      RunningIntegralStep(start, bins, i);
      integral := integral + b.value.dbn.sumW;
      var err := sqrt(integral);
      tmp.points := tmp.points[i := SetYAndErr2(point.value, integral, err)];
    }
    assert tmp.points == IntegralPoints(pts, bins, start, sqrt);
  }

  lemma RunningIntegralStep(start: real, bins: seq<HistoBin1D>, k: nat)
    requires k < |bins|
    ensures RunningIntegral(start, bins, k + 1) == RunningIntegral(start, bins, k) + bins[k].dbn.sumW
  {
    assert bins[..k + 1][..k] == bins[..k];
  }

  /** With non-negative bin weights the running sum never decreases. */
  lemma {:induction false} RunningIntegralMonotone(start: real, bins: seq<HistoBin1D>, i: nat, j: nat)
    requires i <= j <= |bins|
    requires forall k :: 0 <= k < |bins| ==> bins[k].dbn.sumW >= 0.0
    ensures RunningIntegral(start, bins, i) <= RunningIntegral(start, bins, j)
    decreases j - i
  {
    if i < j {
      RunningIntegralStep(start, bins, i);
      RunningIntegralMonotone(start, bins, i + 1, j);
    }
  }

  /** The last point of the integral is the start plus the sum of weights of
      all bins; with non-negative bin weights the points' y values never
      decrease along the vector. */
  lemma IntegralPointsMeaning(pts: seq<Point2D>, bins: seq<HistoBin1D>, start: real, sqrt: real -> real)
    requires |pts| == |bins|
    ensures |bins| > 0 ==> IntegralPoints(pts, bins, start, sqrt)[|bins| - 1].y == start + SumDbns(bins).sumW
    ensures (forall k :: 0 <= k < |bins| ==> bins[k].dbn.sumW >= 0.0) ==>
              forall i, j :: 0 <= i <= j < |pts| ==>
                IntegralPoints(pts, bins, start, sqrt)[i].y <= IntegralPoints(pts, bins, start, sqrt)[j].y
  {
    assert bins[..|bins|] == bins;
    if forall k :: 0 <= k < |bins| ==> bins[k].dbn.sumW >= 0.0 {
      forall i, j | 0 <= i <= j < |pts|
        ensures IntegralPoints(pts, bins, start, sqrt)[i].y <= IntegralPoints(pts, bins, start, sqrt)[j].y
      {
        RunningIntegralMonotone(start, bins, i + 1, j + 1);
      }
    }
  }

  /** On a laid-out histogram whose neighbouring midpoints are not
      fuzzy-equal, point i of the integral scatter sits at bin i's midpoint
      and holds the cumulative sum of weights up to and including bin i. */
  lemma IntegralInBinOrder(bins: seq<HistoBin1D>, start: real, m: Histo1DMeasures, sqrt: real -> real, i: nat)
    requires ValidBins(bins) && SortedBins(bins) && Layout(bins).Ok?
    requires forall k :: 0 <= k < |bins| - 1 ==> !FuzzyEquals(XMid(bins[k]), XMid(bins[k + 1]))
    requires i < |bins|
    ensures var pts := InsertEach([], HistoPoints(bins, false, m), Less2);
      |pts| == |bins| && IntegralPoints(pts, bins, start, sqrt)[i].x == XMid(bins[i])
      && IntegralPoints(pts, bins, start, sqrt)[i].y == start + SumDbns(bins[..i + 1]).sumW
  {
    MidPointsInBinOrder(bins, m);
  }
}
