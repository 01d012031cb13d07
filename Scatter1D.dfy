/** A one-dimensional scatter: a sorted vector of Point1D plus annotations,
    "Type" = "Scatter1D". The points are the items of a sortedvector, so every
    insertion re-sorts them; the in-place edits of scaleX and transformX do
    not, and may leave them out of order. */
module Scatter1D {
  import opened Wrappers
  import opened Points
  import opened SortedVector
  import opened AnalysisObject
  import Counter

  // ---------------------------------------------------------------------------
  // The points the vector constructors insert

  function ValuePoints(xs: seq<real>): (r: seq<Point1D>)
    ensures |r| == |xs| && forall i :: 0 <= i < |xs| ==> r[i] == Point1DSym(xs[i])
  {
    seq(|xs|, i requires 0 <= i < |xs| => Point1DSym(xs[i]))
  }

  function SymPoints(xs: seq<real>, exs: seq<real>): (r: seq<Point1D>)
    requires |xs| == |exs|
    ensures |r| == |xs| && forall i :: 0 <= i < |xs| ==> r[i] == Point1DSym(xs[i], exs[i])
  {
    seq(|xs|, i requires 0 <= i < |xs| => Point1DSym(xs[i], exs[i]))
  }

  function PairPoints(xs: seq<real>, exs: seq<(real, real)>): (r: seq<Point1D>)
    requires |xs| == |exs|
    ensures |r| == |xs| && forall i :: 0 <= i < |xs| ==> r[i] == Point1DPair(xs[i], exs[i])
  {
    seq(|xs|, i requires 0 <= i < |xs| => Point1DPair(xs[i], exs[i]))
  }

  function AsymPoints(xs: seq<real>, exm: seq<real>, exp: seq<real>): (r: seq<Point1D>)
    requires |xs| == |exm| == |exp|
    ensures |r| == |xs| && forall i :: 0 <= i < |xs| ==> r[i] == Point1D(xs[i], exm[i], exp[i])
  {
    seq(|xs|, i requires 0 <= i < |xs| => Point1D(xs[i], exm[i], exp[i]))
  }

  // ---------------------------------------------------------------------------
  // In-place edits, as functions of the old points

  function ScaledPoints(ps: seq<Point1D>, s: real): (r: seq<Point1D>)
    ensures |r| == |ps| && forall i :: 0 <= i < |ps| ==> r[i] == ScaleX1(ps[i], s)
  {
    seq(|ps|, i requires 0 <= i < |ps| => ScaleX1(ps[i], s))
  }

  function Min(a: real, b: real): real { if b < a then b else a }
  function Max(a: real, b: real): real { if a < b then b else a }

  /** transformX on one point: x goes to fx(x) and the errors are set so
      that the edges are the images of the old edges, lower one first. */
  function TransformedPoint(p: Point1D, fx: real -> real): Point1D {
    var newx := fx(p.x);
    var lo := Min(fx(XMin1(p)), fx(XMax1(p)));
    var hi := Max(fx(XMin1(p)), fx(XMax1(p)));
    SetXErrPlus1(SetXErrMinus1(SetX1(p, newx), newx - lo), hi - newx)
  }

  function TransformedPoints(ps: seq<Point1D>, fx: real -> real): (r: seq<Point1D>)
    ensures |r| == |ps| && forall i :: 0 <= i < |ps| ==> r[i] == TransformedPoint(ps[i], fx)
  {
    seq(|ps|, i requires 0 <= i < |ps| => TransformedPoint(ps[i], fx))
  }

  /** std::vector equality with Point1D's fuzzy `==`. */
  predicate SamePoints(a: seq<Point1D>, b: seq<Point1D>) {
    |a| == |b| && forall i :: 0 <= i < |a| ==> Eq1(a[i], b[i])
  }

  /** The points of several scatters, one after the other. */
  function AllPoints(ss: seq<Scatter1D>): seq<Point1D>
    reads ss
  {
    if ss == [] then [] else ss[0].points + AllPoints(ss[1..])
  }

  class Scatter1D {
    var annotations: Annotations
    var points: seq<Point1D>

    ghost predicate Valid()
      reads this
    {
      WellFormed(annotations)
    }

    constructor FromParts(anns: Annotations, pts: seq<Point1D>)
      requires WellFormed(anns)
      ensures Valid() && annotations == anns && points == pts
    {
      annotations := anns;
      points := pts;
    }

    /** Scatter1D(path, title): no points. */
    static method Create(path: string := "", title: string := "") returns (r: Result<Scatter1D>)
      ensures r.Ok? <==> ValidPath(path)
      ensures r.Err? ==> r.error == AnnotationError
      ensures r.Ok? ==> fresh(r.value) && r.value.Valid() && r.value.points == []
      ensures r.Ok? ==> r.value.annotations == InitAnnotations([], "Scatter1D", path, title).value
    {
      var anns := InitAnnotations([], "Scatter1D", path, title);
      if anns.Err? {
        return Err(anns.error);
      }
      var s := new Scatter1D.FromParts(anns.value, []);
      return Ok(s);
    }

    /** Scatter1D(points, path, title): the sorted vector is taken as it is.
        A Points value is a sorted vector, so the argument is sorted. */
    static method FromPoints(pts: seq<Point1D>, path: string := "", title: string := "") returns (r: Result<Scatter1D>)
      requires Sorted(pts, Less1)
      ensures r.Ok? <==> ValidPath(path)
      ensures r.Err? ==> r.error == AnnotationError
      ensures r.Ok? ==> fresh(r.value) && r.value.Valid() && r.value.points == pts
      ensures r.Ok? ==> r.value.annotations == InitAnnotations([], "Scatter1D", path, title).value
    {
      r := Create(path, title);
      if r.Ok? {
        r.value.points := pts;
      }
    }

    /** Scatter1D(x, path, title): one error-free point per value, inserted
        in turn. */
    static method FromValues(xs: seq<real>, path: string := "", title: string := "") returns (r: Result<Scatter1D>)
      ensures r.Ok? <==> ValidPath(path)
      ensures r.Err? ==> r.error == AnnotationError
      ensures r.Ok? ==> fresh(r.value) && r.value.Valid()
      ensures r.Ok? ==> r.value.points == InsertEach([], ValuePoints(xs), Less1)
      ensures r.Ok? ==> r.value.annotations == InitAnnotations([], "Scatter1D", path, title).value
    {
      r := Create(path, title);
      if r.Ok? {
        r.value.AddPoints(ValuePoints(xs));
      }
    }

    /** Scatter1D(x, ex, path, title): UserError when the lengths differ
        (the path is checked first, by the base constructor). */
    static method FromSymErrors(xs: seq<real>, exs: seq<real>, path: string := "", title: string := "")
      returns (r: Result<Scatter1D>)
      ensures r.Ok? <==> ValidPath(path) && |xs| == |exs|
      ensures !ValidPath(path) ==> r == Err(AnnotationError)
      ensures ValidPath(path) && |xs| != |exs| ==> r == Err(UserError)
      ensures r.Ok? ==> fresh(r.value) && r.value.Valid()
      ensures r.Ok? ==> r.value.points == InsertEach([], SymPoints(xs, exs), Less1)
      ensures r.Ok? ==> r.value.annotations == InitAnnotations([], "Scatter1D", path, title).value
    {
      r := Create(path, title);
      if r.Err? {
        return;
      }
      if |xs| != |exs| {
        return Err(UserError);
      }
      r.value.AddPoints(SymPoints(xs, exs));
    }

    /** Scatter1D(x, ex-pairs, path, title). */
    static method FromPairErrors(xs: seq<real>, exs: seq<(real, real)>, path: string := "", title: string := "")
      returns (r: Result<Scatter1D>)
      ensures r.Ok? <==> ValidPath(path) && |xs| == |exs|
      ensures !ValidPath(path) ==> r == Err(AnnotationError)
      ensures ValidPath(path) && |xs| != |exs| ==> r == Err(UserError)
      ensures r.Ok? ==> fresh(r.value) && r.value.Valid()
      ensures r.Ok? ==> r.value.points == InsertEach([], PairPoints(xs, exs), Less1)
      ensures r.Ok? ==> r.value.annotations == InitAnnotations([], "Scatter1D", path, title).value
    {
      r := Create(path, title);
      if r.Err? {
        return;
      }
      if |xs| != |exs| {
        return Err(UserError);
      }
      r.value.AddPoints(PairPoints(xs, exs));
    }

    /** Scatter1D(x, exminus, explus, path, title): the x/exminus lengths are
        checked before the exminus/explus lengths. */
    static method FromAsymErrors(xs: seq<real>, exm: seq<real>, exp: seq<real>, path: string := "", title: string := "")
      returns (r: Result<Scatter1D>)
      ensures r.Ok? <==> ValidPath(path) && |xs| == |exm| == |exp|
      ensures !ValidPath(path) ==> r == Err(AnnotationError)
      ensures ValidPath(path) && !(|xs| == |exm| == |exp|) ==> r == Err(UserError)
      ensures r.Ok? ==> fresh(r.value) && r.value.Valid()
      ensures r.Ok? ==> r.value.points == InsertEach([], AsymPoints(xs, exm, exp), Less1)
      ensures r.Ok? ==> r.value.annotations == InitAnnotations([], "Scatter1D", path, title).value
    {
      r := Create(path, title);
      if r.Err? {
        return;
      }
      if |xs| != |exm| {
        return Err(UserError);
      }
      if |exm| != |exp| {
        return Err(UserError);
      }
      r.value.AddPoints(AsymPoints(xs, exm, exp));
    }

    /** The copy constructor: the other's annotations, "Type" reset, the
        given path (or the other's when that is empty) and the other's title;
        the same points. */
    static method Copy(s: Scatter1D, path: string := "") returns (r: Result<Scatter1D>)
      requires s.Valid()
      ensures r.Ok? <==> ValidPath(CopyPath(s.annotations, path))
      ensures r.Err? ==> r.error == AnnotationError
      ensures r.Ok? ==> fresh(r.value) && r.value.Valid() && r.value.points == s.points
      ensures r.Ok? ==> r.value.annotations == CopyAnnotationsOf(s.annotations, path, "Scatter1D")
    {
      var p := CopyPath(s.annotations, path);
      var anns := InitAnnotations(s.annotations, "Scatter1D", p, Title(s.annotations));
      if anns.Err? {
        return Err(anns.error);
      }
      var res := new Scatter1D.FromParts(anns.value, s.points);
      return Ok(res);
    }

    /** operator=: the analysis-object assignment (path and title when
        non-empty), then the points. */
    method Assign(s: Scatter1D) returns (o: Outcome)
      requires Valid() && s.Valid()
      modifies this
      ensures Valid()
      ensures o.Pass? <==> ValidPath(Path(old(s.annotations)))
      ensures o.Fail? ==> o.error == AnnotationError && annotations == old(annotations) && points == old(points)
      ensures o.Pass? ==> points == old(s.points)
      ensures o.Pass? ==> forall m :: Lookup(annotations, m) == AssignedValue(old(annotations), old(s.annotations), m)
    {
      var p, t, pts := Path(s.annotations), Title(s.annotations), s.points;
      if |p| > 0 {
        var withPath := SetPath(annotations, p);
        if withPath.Err? {
          return Fail(withPath.error);
        }
        annotations := withPath.value;
      }
      if |t| > 0 {
        SetAnnProperties(annotations, "Title", t);
        annotations := SetAnn(annotations, "Title", t);
      }
      points := pts;
      o := Pass;
    }

    method SetAnnotation(name: string, value: string)
      requires Valid()
      modifies this
      ensures Valid() && points == old(points)
      ensures forall m :: Lookup(annotations, m) == if m == name then Some(value) else Lookup(old(annotations), m)
    {
      SetAnnProperties(annotations, name, value);
      annotations := SetAnn(annotations, name, value);
    }

    /** Setting each of src's annotations in turn, in map order. */
    method Overlay(src: Annotations)
      requires Valid() && WellFormed(src)
      modifies this
      ensures Valid() && points == old(points)
      ensures forall m :: Lookup(annotations, m) == if m in Keys(src) then Lookup(src, m) else Lookup(old(annotations), m)
    {
      var names := Keys(src);
      for i := 0 to |names|
        invariant Valid() && points == old(points)
        invariant forall m :: Lookup(annotations, m) == if m in names[..i] then Lookup(src, m) else Lookup(old(annotations), m)
      {
        LookupAt(src, i);
        var v := Annotation(src, names[i]);
        SetAnnotation(names[i], v.value);
        TakeSnoc(names, i);
      }
      assert names[..|names|] == names;
    }

    /** reset(): no points left. */
    method Reset()
      modifies this
      ensures points == [] && annotations == old(annotations)
    {
      points := [];
    }

    /** scaleX(s): every point scaled in place, in the same positions. */
    method ScaleX(s: real)
      modifies this
      ensures points == ScaledPoints(old(points), s) && annotations == old(annotations)
    {
      ghost var orig := points;
      for i := 0 to |points|
        invariant |points| == |orig|
        invariant forall k :: 0 <= k < i ==> points[k] == ScaleX1(orig[k], s)
        invariant forall k :: i <= k < |points| ==> points[k] == orig[k]
        invariant annotations == old(annotations)
      {
        points := points[i := ScaleX1(points[i], s)];
      }
    }

    function NumPoints(): nat
      reads this
    {
      |points|
    }

    /** point(index): RangeError past the end. */
    function Point(index: nat): (r: Result<Point1D>)
      reads this
      ensures r.Ok? <==> index < |points|
      ensures r.Ok? ==> r.value == points[index]
      ensures r.Err? ==> r.error == RangeError
    {
      if index >= |points| then Err(RangeError) else Ok(points[index])
    }

    /** addPoint and its overloads: insert, re-sorting the vector. */
    method AddPoint(p: Point1D)
      modifies this
      ensures points == SortedInsert(old(points), p, Less1) && annotations == old(annotations)
      ensures Sorted(points, Less1) && multiset(points) == multiset(old(points)) + multiset{p}
    {
      PointOrdersAsymmetric();
      SortedInsertProperties(points, p, Less1);
      points := SortedInsert(points, p, Less1);
    }

    /** addPoints: each point inserted in turn. */
    method AddPoints(pts: seq<Point1D>)
      modifies this
      ensures points == InsertEach(old(points), pts, Less1) && annotations == old(annotations)
    {
      for i := 0 to |pts|
        invariant InsertEach(points, pts[i..], Less1) == InsertEach(old(points), pts, Less1)
        invariant annotations == old(annotations)
      {
        assert pts[i..][1..] == pts[i + 1..];
        AddPoint(pts[i]);
      }
    }

    /** combineWith(other): other's points inserted; other may be this one. */
    method CombineWith(other: Scatter1D)
      modifies this
      ensures points == InsertEach(old(points), old(other.points), Less1) && annotations == old(annotations)
    {
      var pts := other.points;
      AddPoints(pts);
    }

    /** combineWith(others): the scatters' points, scatter by scatter. The
        vector holds copies, so this scatter is not among them. */
    method CombineWithAll(others: seq<Scatter1D>)
      requires this !in others
      modifies this
      ensures points == InsertEach(old(points), AllPoints(others), Less1) && annotations == old(annotations)
    {
      ghost var all := AllPoints(others);
      for i := 0 to |others|
        invariant InsertEach(points, AllPoints(others[i..]), Less1) == InsertEach(old(points), all, Less1)
        invariant annotations == old(annotations)
      {
        assert others[i..][1..] == others[i + 1..];
        ghost var rest := AllPoints(others[i + 1..]);
        InsertEachAppend(points, others[i].points, rest, Less1);
        CombineWith(others[i]);
        assert AllPoints(others[i + 1..]) == rest;
      }
    }

    /** operator==: the same number of points, pairwise fuzzy-equal. */
    predicate Equals(other: Scatter1D)
      reads this, other
    {
      SamePoints(points, other.points)
    }
  }

  /** combine(a, b): a copy of a that also holds b's points. */
  method Combine(a: Scatter1D, b: Scatter1D) returns (r: Result<Scatter1D>)
    requires a.Valid()
    ensures r.Ok? <==> ValidPath(Path(a.annotations))
    ensures r.Ok? ==> fresh(r.value) && r.value.Valid()
    ensures r.Ok? ==> r.value.points == InsertEach(a.points, b.points, Less1)
    ensures r.Ok? ==> r.value.annotations == CopyAnnotationsOf(a.annotations, "", "Scatter1D")
  {
    r := Scatter1D.Copy(a);
    if r.Ok? {
      r.value.CombineWith(b);
    }
  }

  /** combine(scatters): a default scatter holding all of their points. */
  method CombineAll(ss: seq<Scatter1D>) returns (r: Scatter1D)
    ensures fresh(r) && r.Valid()
    ensures r.points == InsertEach([], AllPoints(ss), Less1)
    ensures r.annotations == InitAnnotations([], "Scatter1D", "", "").value
  {
    var res := Scatter1D.Create();
    r := res.value;
    r.CombineWithAll(ss);
  }

  /** mkScatter(Scatter1D): the copy constructor. */
  method MkScatterOfScatter(s: Scatter1D) returns (r: Result<Scatter1D>)
    requires s.Valid()
    ensures r.Ok? <==> ValidPath(Path(s.annotations))
    ensures r.Ok? ==> fresh(r.value) && r.value.points == s.points
    ensures r.Ok? ==> r.value.annotations == CopyAnnotationsOf(s.annotations, "", "Scatter1D")
  {
    r := Scatter1D.Copy(s);
  }

  /** mkScatter(Counter): every annotation of the counter copied over a
      default scatter, "Type" set from the counter's type (AnnotationError
      when it has none), and one point at the counter's value with its error
      on both sides. */
  method MkScatterOfCounter(c: Counter.Counter, sqrt: real -> real) returns (r: Result<Scatter1D>)
    requires c.Valid()
    ensures r.Ok? <==> TypeOf(c.annotations).Ok?
    ensures r.Err? ==> r.error == AnnotationError
    ensures r.Ok? ==> fresh(r.value) && r.value.Valid()
    ensures r.Ok? ==> r.value.points == [Point1DSym(c.dbn.sumW, sqrt(c.dbn.sumW2))]
    ensures r.Ok? ==> forall m :: Lookup(r.value.annotations, m) ==
                        ConvertedLookup(c.annotations, TypeOf(c.annotations).value, m)
  {
    var created := Scatter1D.Create();
    var rtn := created.value;
    ghost var base := rtn.annotations;
    assert forall m :: Lookup(base, m) == ConvertedLookup([], "Scatter1D", m);
    var names := Keys(c.annotations);
    rtn.Overlay(c.annotations);
    var typ := TypeOf(c.annotations);
    if typ.Err? {
      return Err(typ.error);
    }
    rtn.SetAnnotation("Type", typ.value);
    assert forall m :: m != "Type" ==> Lookup(rtn.annotations, m) == (if m in names then Lookup(c.annotations, m) else Lookup(base, m));
    rtn.AddPoint(Point1DSym(c.Val(), c.ErrVal(sqrt)));
    InsertIntoEmpty(Point1DSym(c.Val(), c.ErrVal(sqrt)));
    forall m ensures Lookup(rtn.annotations, m) == ConvertedLookup(c.annotations, typ.value, m) {
      LookupFound(c.annotations, m);
    }
    return Ok(rtn);
  }

  /** transformX(s, fx): each point's x and error edges mapped through fx,
      in place and in the same positions. */
  method TransformX(s: Scatter1D, fx: real -> real)
    modifies s
    ensures s.points == TransformedPoints(old(s.points), fx) && s.annotations == old(s.annotations)
  {
    ghost var orig := s.points;
    var i := 0;
    while i < s.NumPoints()
      invariant 0 <= i <= |s.points| == |orig|
      invariant forall k :: 0 <= k < i ==> s.points[k] == TransformedPoint(orig[k], fx)
      invariant forall k :: i <= k < |s.points| ==> s.points[k] == orig[k]
      invariant s.annotations == old(s.annotations)
    {
      var p := s.points[i];
      var newx := fx(p.x);
      var fxMin := fx(XMin1(p));
      var fxMax := fx(XMax1(p));
      var newMin := Min(fxMin, fxMax);
      var newMax := Max(fxMin, fxMax);
      p := SetX1(p, newx);
      p := SetXErrMinus1(p, newx - newMin);
      p := SetXErrPlus1(p, newMax - newx);
      s.points := s.points[i := p];
      i := i + 1;
    }
  }

  // ---------------------------------------------------------------------------
  // Properties

  /** The vector constructors build sorted scatters holding exactly the
      given points. */
  lemma ConstructedPointsSorted(pts: seq<Point1D>)
    ensures Sorted(InsertEach([], pts, Less1), Less1)
    ensures multiset(InsertEach([], pts, Less1)) == multiset(pts)
  {
    PointOrdersAsymmetric();
    InsertEachProperties([], pts, Less1);
  }

  /** After the transformation the new edges are the images of the old ones,
      the lower first, and x is the image of x; a monotonically increasing
      fx maps the lower edge to the lower edge. */
  lemma TransformedPointEdges(p: Point1D, fx: real -> real)
    ensures TransformedPoint(p, fx).x == fx(p.x)
    ensures XMin1(TransformedPoint(p, fx)) == Min(fx(XMin1(p)), fx(XMax1(p)))
    ensures XMax1(TransformedPoint(p, fx)) == Max(fx(XMin1(p)), fx(XMax1(p)))
    ensures XMin1(TransformedPoint(p, fx)) <= XMax1(TransformedPoint(p, fx))
    ensures fx(XMin1(p)) <= fx(XMax1(p)) ==>
              XMin1(TransformedPoint(p, fx)) == fx(XMin1(p)) && XMax1(TransformedPoint(p, fx)) == fx(XMax1(p))
  {
  }

  /** The identity transformation leaves a point with non-negative errors
      as it was. */
  lemma TransformIdentity(p: Point1D, fx: real -> real)
    requires forall v :: fx(v) == v
    requires p.exMinus >= 0.0 && p.exPlus >= 0.0
    ensures TransformedPoint(p, fx) == p
  {
    assert fx(p.x) == p.x && fx(XMin1(p)) == XMin1(p) && fx(XMax1(p)) == XMax1(p);
  }

  /** Scaling by 1 changes nothing; scaling twice is scaling by the product.
      Each point's edges scale with it. */
  lemma ScaledPointsLaws(ps: seq<Point1D>, s: real, t: real)
    ensures ScaledPoints(ps, 1.0) == ps
    ensures ScaledPoints(ScaledPoints(ps, s), t) == ScaledPoints(ps, s * t)
    ensures forall i :: 0 <= i < |ps| ==> XMin1(ScaledPoints(ps, s)[i]) == XMin1(ps[i]) * s
  {
    forall i | 0 <= i < |ps| ensures ScaleX1(ps[i], 1.0) == ps[i] && ScaleX1(ScaleX1(ps[i], s), t) == ScaleX1(ps[i], s * t)
      && XMin1(ScaleX1(ps[i], s)) == XMin1(ps[i]) * s
    {
      ScaleX1Laws(ps[i], s, t);
    }
  }

  /** Scatter equality is reflexive and symmetric, and a scatter differs
      from one of another size. */
  lemma SamePointsProperties(a: seq<Point1D>, b: seq<Point1D>)
    ensures SamePoints(a, a)
    ensures SamePoints(a, b) == SamePoints(b, a)
    ensures |a| != |b| ==> !SamePoints(a, b)
  {
    forall i | 0 <= i < |a| ensures Eq1(a[i], a[i]) {
      Point1DTrichotomy(a[i], a[i]);
    }
    if |a| == |b| {
      forall i | 0 <= i < |a| ensures Eq1(a[i], b[i]) == Eq1(b[i], a[i]) {
        Point1DTrichotomy(a[i], b[i]);
      }
    }
  }

  /** A single inserted point is the whole vector. */
  lemma InsertIntoEmpty(p: Point1D)
    ensures SortedInsert([], p, Less1) == [p]
  {
    var single: seq<Point1D> := [p];
    assert [] + [p] == single;
    assert single[1..] == [];
    assert SortAll(single, Less1) == InsertSorted(p, SortAll([], Less1), Less1);
  }
}
