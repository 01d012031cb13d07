/** Scatter points in one, two and three dimensions.

    A point is a value with asymmetric errors along each axis: the C++ classes
    are copied by value into scatters and have no identity, so each setter is a
    functional update that returns the changed point. Equality and ordering
    are fuzzy: `==` compares some of the coordinates with fuzzyEquals, and `<`
    is lexicographic where "equal" means fuzzy-equal, so the order is not a
    strict weak order; it is irreflexive, asymmetric and total up to `==`.
 */
module Points {
  import opened MathUtils
  import opened SortedVector

  // ---------------------------------------------------------------------------
  // Point1D

  datatype Point1D = Point1D(x: real, exMinus: real, exPlus: real)

  /** Point1D(x, ex): symmetric errors (ex defaults to 0). */
  function Point1DSym(x: real, ex: real := 0.0): Point1D { Point1D(x, ex, ex) }

  /** Point1D(x, pair<exminus, explus>): the errors as given. */
  function Point1DPair(x: real, ex: (real, real)): Point1D { Point1D(x, ex.0, ex.1) }

  function XMin1(p: Point1D): real { p.x - p.exMinus }
  function XMax1(p: Point1D): real { p.x + p.exPlus }
  function XErrAvg1(p: Point1D): real { (p.exMinus + p.exPlus) / 2.0 }

  function SetX1(p: Point1D, x: real): Point1D { p.(x := x) }
  function SetXErrMinus1(p: Point1D, e: real): Point1D { p.(exMinus := e) }
  function SetXErrPlus1(p: Point1D, e: real): Point1D { p.(exPlus := e) }
  /** setXErr(ex): both errors to ex; setXErr(exminus, explus): each as given. */
  function SetXErrSym1(p: Point1D, e: real): Point1D { SetXErrPlus1(SetXErrMinus1(p, e), e) }
  function SetXErr1(p: Point1D, em: real, ep: real): Point1D { SetXErrPlus1(SetXErrMinus1(p, em), ep) }
  /** setX(x, exminus, explus): value and errors together. */
  function SetXAndErr1(p: Point1D, x: real, em: real, ep: real): Point1D { SetXErr1(SetX1(p, x), em, ep) }

  function ScaleX1(p: Point1D, s: real): Point1D {
    SetXErr1(SetX1(p, p.x * s), p.exMinus * s, p.exPlus * s)
  }

  predicate Eq1(a: Point1D, b: Point1D) {
    FuzzyEquals(a.x, b.x) && FuzzyEquals(a.exMinus, b.exMinus) && FuzzyEquals(a.exPlus, b.exPlus)
  }

  predicate Less1(a: Point1D, b: Point1D) {
    if !FuzzyEquals(a.x, b.x) then a.x < b.x
    else if !FuzzyEquals(a.exMinus, b.exMinus) then a.exMinus < b.exMinus
    else if !FuzzyEquals(a.exPlus, b.exPlus) then a.exPlus < b.exPlus
    else false
  }

  predicate LessEq1(a: Point1D, b: Point1D) { if Eq1(a, b) then true else Less1(a, b) }
  predicate Greater1(a: Point1D, b: Point1D) { !LessEq1(a, b) }
  predicate GreaterEq1(a: Point1D, b: Point1D) { !Less1(a, b) }

  /** The symmetric constructor puts the two edges at x - ex and x + ex, with
      ex as the average error; the pair constructor keeps the errors apart. */
  lemma Point1DConstructors(x: real, ex: real, em: real, ep: real)
    ensures XMin1(Point1DSym(x, ex)) == x - ex && XMax1(Point1DSym(x, ex)) == x + ex
    ensures XErrAvg1(Point1DSym(x, ex)) == ex
    ensures Point1DSym(x) == Point1D(x, 0.0, 0.0)
    ensures Point1DPair(x, (em, ep)) == Point1D(x, em, ep)
    ensures XErrAvg1(Point1D(x, em, ep)) == (XMax1(Point1D(x, em, ep)) - XMin1(Point1D(x, em, ep))) / 2.0
  {
  }

  /** Each setter changes its own field and nothing else; reading back gives
      the value that was set. */
  lemma Point1DSetters(p: Point1D, v: real, w: real)
    ensures SetX1(p, v).x == v && SetX1(p, v).exMinus == p.exMinus && SetX1(p, v).exPlus == p.exPlus
    ensures SetXErrMinus1(p, v).exMinus == v && SetXErrMinus1(p, v).x == p.x && SetXErrMinus1(p, v).exPlus == p.exPlus
    ensures SetXErrPlus1(p, v).exPlus == v && SetXErrPlus1(p, v).x == p.x && SetXErrPlus1(p, v).exMinus == p.exMinus
    ensures SetXErrSym1(p, v) == Point1D(p.x, v, v)
    ensures SetXAndErr1(p, v, w, v) == Point1D(v, w, v)
    ensures SetX1(SetX1(p, w), v) == SetX1(p, v)
  {
  }

  /** scaleX moves both edges by the same factor and composes multiplicatively. */
  lemma ScaleX1Laws(p: Point1D, s: real, t: real)
    ensures XMin1(ScaleX1(p, s)) == XMin1(p) * s && XMax1(ScaleX1(p, s)) == XMax1(p) * s
    ensures ScaleX1(ScaleX1(p, s), t) == ScaleX1(p, s * t)
    ensures ScaleX1(p, 1.0) == p
  {
    assert p.x * s * t == p.x * (s * t);
    assert p.exMinus * s * t == p.exMinus * (s * t);
    assert p.exPlus * s * t == p.exPlus * (s * t);
  }

  /** Two reals that are not fuzzy-equal are different, so one is below the other. */
  lemma NotFuzzyEqualStrict(a: real, b: real)
    requires !FuzzyEquals(a, b)
    ensures a < b || b < a
  {
    if a == b { FuzzyEqualsReflexive(a, FuzzyTolerance); }
  }

  /** `<` on Point1D is total up to `==`: exactly one of a < b, a == b, b < a. */
  lemma Point1DTrichotomy(a: Point1D, b: Point1D)
    ensures Eq1(a, b) ==> !Less1(a, b) && !Less1(b, a)
    ensures !Eq1(a, b) ==> (Less1(a, b) <==> !Less1(b, a))
    ensures Eq1(a, b) == Eq1(b, a)
    ensures Eq1(a, a) && !Less1(a, a)
  {
    FuzzyEqualsSymmetric(a.x, b.x, FuzzyTolerance);
    FuzzyEqualsSymmetric(a.exMinus, b.exMinus, FuzzyTolerance);
    FuzzyEqualsSymmetric(a.exPlus, b.exPlus, FuzzyTolerance);
    FuzzyEqualsReflexive(a.x, FuzzyTolerance);
    FuzzyEqualsReflexive(a.exMinus, FuzzyTolerance);
    FuzzyEqualsReflexive(a.exPlus, FuzzyTolerance);
    if !FuzzyEquals(a.x, b.x) { NotFuzzyEqualStrict(a.x, b.x); }
    else if !FuzzyEquals(a.exMinus, b.exMinus) { NotFuzzyEqualStrict(a.exMinus, b.exMinus); }
    else if !FuzzyEquals(a.exPlus, b.exPlus) { NotFuzzyEqualStrict(a.exPlus, b.exPlus); }
  }

  /** The derived operators: `<=` is `==` or `<`, `>` is its negation and
      `>=` the negation of `<`; so `>` is `<` with the arguments swapped. */
  lemma Point1DDerivedOrder(a: Point1D, b: Point1D)
    ensures LessEq1(a, b) <==> Eq1(a, b) || Less1(a, b)
    ensures Greater1(a, b) <==> Less1(b, a)
    ensures GreaterEq1(a, b) <==> LessEq1(b, a)
  {
    Point1DTrichotomy(a, b);
  }

  // ---------------------------------------------------------------------------
  // Point2D

  datatype Point2D = Point2D(x: real, y: real, exMinus: real, exPlus: real, eyMinus: real, eyPlus: real)

  /** Point2D(x, y, ex, ey): symmetric errors on both axes (both default to 0). */
  function Point2DSym(x: real, y: real, ex: real := 0.0, ey: real := 0.0): Point2D {
    Point2D(x, y, ex, ex, ey, ey)
  }

  /** Point2D(x, y, exminus, explus, eyminus, eyplus). */
  function Point2DAsym(x: real, y: real, exm: real, exp: real, eym: real, eyp: real): Point2D {
    Point2D(x, y, exm, exp, eym, eyp)
  }

  /** Point2D(x, y, pair ex, pair ey). */
  function Point2DPair(x: real, y: real, ex: (real, real), ey: (real, real)): Point2D {
    Point2D(x, y, ex.0, ex.1, ey.0, ey.1)
  }

  function XMin2(p: Point2D): real { p.x - p.exMinus }
  function XMax2(p: Point2D): real { p.x + p.exPlus }
  function YMin2(p: Point2D): real { p.y - p.eyMinus }
  function YMax2(p: Point2D): real { p.y + p.eyPlus }
  function XErrAvg2(p: Point2D): real { (p.exMinus + p.exPlus) / 2.0 }
  function YErrAvg2(p: Point2D): real { (p.eyMinus + p.eyPlus) / 2.0 }

  function XY2(p: Point2D): (real, real) { (p.x, p.y) }
  function SetXY2(p: Point2D, x: real, y: real): Point2D { p.(x := x, y := y) }
  function SetX2(p: Point2D, x: real): Point2D { p.(x := x) }
  function SetY2(p: Point2D, y: real): Point2D { p.(y := y) }
  function SetXErr2(p: Point2D, em: real, ep: real): Point2D { p.(exMinus := em, exPlus := ep) }
  function SetYErr2(p: Point2D, em: real, ep: real): Point2D { p.(eyMinus := em, eyPlus := ep) }
  /** setY(y, ey): value and symmetric error together. */
  function SetYAndErr2(p: Point2D, y: real, ey: real): Point2D { SetYErr2(SetY2(p, y), ey, ey) }

  function ScaleX2(p: Point2D, s: real): Point2D {
    SetXErr2(SetX2(p, p.x * s), p.exMinus * s, p.exPlus * s)
  }

  function ScaleY2(p: Point2D, s: real): Point2D {
    SetYErr2(SetY2(p, p.y * s), p.eyMinus * s, p.eyPlus * s)
  }

  function ScaleXY2(p: Point2D, sx: real, sy: real): Point2D { ScaleY2(ScaleX2(p, sx), sy) }

  /** Equality of the x characteristics only. */
  predicate Eq2(a: Point2D, b: Point2D) {
    FuzzyEquals(a.x, b.x) && FuzzyEquals(a.exMinus, b.exMinus) && FuzzyEquals(a.exPlus, b.exPlus)
  }

  predicate Less2(a: Point2D, b: Point2D) {
    if !FuzzyEquals(a.x, b.x) then a.x < b.x
    else if !FuzzyEquals(a.exMinus, b.exMinus) then a.exMinus < b.exMinus
    else if !FuzzyEquals(a.exPlus, b.exPlus) then a.exPlus < b.exPlus
    else false
  }

  predicate LessEq2(a: Point2D, b: Point2D) { if Eq2(a, b) then true else Less2(a, b) }
  predicate Greater2(a: Point2D, b: Point2D) { !LessEq2(a, b) }
  predicate GreaterEq2(a: Point2D, b: Point2D) { !Less2(a, b) }

  /** The x part of a Point2D, as a Point1D. */
  function XPart(p: Point2D): Point1D { Point1D(p.x, p.exMinus, p.exPlus) }

  /** Point2D compares exactly as its x part does; y never matters. */
  lemma Point2DOrderIsXOrder(a: Point2D, b: Point2D, y: real, eym: real, eyp: real)
    ensures Eq2(a, b) == Eq1(XPart(a), XPart(b))
    ensures Less2(a, b) == Less1(XPart(a), XPart(b))
    ensures Eq2(a.(y := y, eyMinus := eym, eyPlus := eyp), b) == Eq2(a, b)
    ensures Less2(a.(y := y, eyMinus := eym, eyPlus := eyp), b) == Less2(a, b)
    ensures Less2(b, a.(y := y, eyMinus := eym, eyPlus := eyp)) == Less2(b, a)
  {
  }

  lemma Point2DTrichotomy(a: Point2D, b: Point2D)
    ensures Eq2(a, b) ==> !Less2(a, b) && !Less2(b, a)
    ensures !Eq2(a, b) ==> (Less2(a, b) <==> !Less2(b, a))
    ensures Eq2(a, b) == Eq2(b, a)
    ensures Eq2(a, a) && !Less2(a, a)
    ensures LessEq2(a, b) <==> Eq2(a, b) || Less2(a, b)
    ensures Greater2(a, b) <==> Less2(b, a)
    ensures GreaterEq2(a, b) <==> LessEq2(b, a)
  {
    Point2DOrderIsXOrder(a, b, a.y, a.eyMinus, a.eyPlus);
    Point2DOrderIsXOrder(b, a, b.y, b.eyMinus, b.eyPlus);
    Point1DTrichotomy(XPart(a), XPart(b));
  }

  lemma Point2DConstructors(x: real, y: real, ex: real, ey: real)
    ensures XMin2(Point2DSym(x, y, ex, ey)) == x - ex && XMax2(Point2DSym(x, y, ex, ey)) == x + ex
    ensures YMin2(Point2DSym(x, y, ex, ey)) == y - ey && YMax2(Point2DSym(x, y, ex, ey)) == y + ey
    ensures Point2DSym(x, y) == Point2D(x, y, 0.0, 0.0, 0.0, 0.0)
    ensures Point2DPair(x, y, (ex, ey), (ey, ex)) == Point2DAsym(x, y, ex, ey, ey, ex)
  {
  }

  /** setXY then xy() gives back the pair that was set, and the errors stay. */
  lemma SetXYRoundTrip(p: Point2D, x: real, y: real)
    ensures XY2(SetXY2(p, x, y)) == (x, y)
    ensures SetXY2(p, x, y) == SetY2(SetX2(p, x), y)
    ensures SetXY2(p, x, y).exMinus == p.exMinus && SetXY2(p, x, y).eyPlus == p.eyPlus
    ensures SetXY2(p, p.x, p.y) == p
  {
  }

  /** scaleX touches x only, scaleY touches y only, and scaleXY does both. */
  lemma Point2DScaling(p: Point2D, sx: real, sy: real)
    ensures ScaleX2(p, sx).y == p.y && ScaleX2(p, sx).eyMinus == p.eyMinus && ScaleX2(p, sx).eyPlus == p.eyPlus
    ensures ScaleY2(p, sy).x == p.x && ScaleY2(p, sy).exMinus == p.exMinus && ScaleY2(p, sy).exPlus == p.exPlus
    ensures XMin2(ScaleX2(p, sx)) == XMin2(p) * sx && XMax2(ScaleX2(p, sx)) == XMax2(p) * sx
    ensures YMin2(ScaleY2(p, sy)) == YMin2(p) * sy && YMax2(ScaleY2(p, sy)) == YMax2(p) * sy
    ensures ScaleXY2(p, sx, sy) == ScaleX2(ScaleY2(p, sy), sx)
  {
  }

  // ---------------------------------------------------------------------------
  // Point3D

  datatype Point3D = Point3D(x: real, y: real, z: real,
                             exMinus: real, exPlus: real,
                             eyMinus: real, eyPlus: real,
                             ezMinus: real, ezPlus: real)

  /** Point3D(x, y, z, ex, ey, ez): symmetric errors (default 0). */
  function Point3DSym(x: real, y: real, z: real, ex: real := 0.0, ey: real := 0.0, ez: real := 0.0): Point3D {
    Point3D(x, y, z, ex, ex, ey, ey, ez, ez)
  }

  /** Point3D(x, y, z, pair ex, pair ey, pair ez). */
  function Point3DPair(x: real, y: real, z: real, ex: (real, real), ey: (real, real), ez: (real, real)): Point3D {
    Point3D(x, y, z, ex.0, ex.1, ey.0, ey.1, ez.0, ez.1)
  }

  function XMin3(p: Point3D): real { p.x - p.exMinus }
  function XMax3(p: Point3D): real { p.x + p.exPlus }
  function YMin3(p: Point3D): real { p.y - p.eyMinus }
  function YMax3(p: Point3D): real { p.y + p.eyPlus }
  function ZMin3(p: Point3D): real { p.z - p.ezMinus }
  function ZMax3(p: Point3D): real { p.z + p.ezPlus }

  function ScaleX3(p: Point3D, s: real): Point3D { p.(x := p.x * s, exMinus := p.exMinus * s, exPlus := p.exPlus * s) }
  function ScaleY3(p: Point3D, s: real): Point3D { p.(y := p.y * s, eyMinus := p.eyMinus * s, eyPlus := p.eyPlus * s) }
  function ScaleZ3(p: Point3D, s: real): Point3D { p.(z := p.z * s, ezMinus := p.ezMinus * s, ezPlus := p.ezPlus * s) }
  function ScaleXYZ3(p: Point3D, sx: real, sy: real, sz: real): Point3D {
    ScaleZ3(ScaleY3(ScaleX3(p, sx), sy), sz)
  }

  /** Equality of x, y and their errors; z is ignored. */
  predicate Eq3(a: Point3D, b: Point3D) {
    (FuzzyEquals(a.x, b.x) && FuzzyEquals(a.y, b.y))
    && (FuzzyEquals(a.exMinus, b.exMinus) && FuzzyEquals(a.eyMinus, b.eyMinus))
    && (FuzzyEquals(a.exPlus, b.exPlus) && FuzzyEquals(a.eyPlus, b.eyPlus))
  }

  predicate Less3(a: Point3D, b: Point3D) {
    if !FuzzyEquals(a.x, b.x) then a.x < b.x
    else if !FuzzyEquals(a.y, b.y) then a.y < b.y
    else if !FuzzyEquals(a.exMinus, b.exMinus) then a.exMinus < b.exMinus
    else if !FuzzyEquals(a.eyMinus, b.eyMinus) then a.eyMinus < b.eyMinus
    else if !FuzzyEquals(a.exPlus, b.exPlus) then a.exPlus < b.exPlus
    else if !FuzzyEquals(a.eyPlus, b.eyPlus) then a.eyPlus < b.eyPlus
    else false
  }

  predicate LessEq3(a: Point3D, b: Point3D) { if Eq3(a, b) then true else Less3(a, b) }
  predicate Greater3(a: Point3D, b: Point3D) { !LessEq3(a, b) }
  predicate GreaterEq3(a: Point3D, b: Point3D) { !Less3(a, b) }

  lemma Point3DConstructors(x: real, y: real, z: real, ex: real, ey: real, ez: real)
    ensures XMin3(Point3DSym(x, y, z, ex, ey, ez)) == x - ex && XMax3(Point3DSym(x, y, z, ex, ey, ez)) == x + ex
    ensures YMin3(Point3DSym(x, y, z, ex, ey, ez)) == y - ey && YMax3(Point3DSym(x, y, z, ex, ey, ez)) == y + ey
    ensures ZMin3(Point3DSym(x, y, z, ex, ey, ez)) == z - ez && ZMax3(Point3DSym(x, y, z, ex, ey, ez)) == z + ez
    ensures Point3DPair(x, y, z, (ex, ey), (ey, ez), (ez, ex)) == Point3D(x, y, z, ex, ey, ey, ez, ez, ex)
  {
  }

  /** Each scaleX/Y/Z moves only its own axis' edges; scaleXYZ does all three
      in any order. */
  lemma Point3DScaling(p: Point3D, sx: real, sy: real, sz: real)
    ensures XMin3(ScaleX3(p, sx)) == XMin3(p) * sx && XMax3(ScaleX3(p, sx)) == XMax3(p) * sx
    ensures YMin3(ScaleY3(p, sy)) == YMin3(p) * sy && YMax3(ScaleY3(p, sy)) == YMax3(p) * sy
    ensures ZMin3(ScaleZ3(p, sz)) == ZMin3(p) * sz && ZMax3(ScaleZ3(p, sz)) == ZMax3(p) * sz
    ensures ScaleX3(p, sx).(x := p.x, exMinus := p.exMinus, exPlus := p.exPlus) == p
    ensures ScaleY3(p, sy).(y := p.y, eyMinus := p.eyMinus, eyPlus := p.eyPlus) == p
    ensures ScaleZ3(p, sz).(z := p.z, ezMinus := p.ezMinus, ezPlus := p.ezPlus) == p
    ensures ScaleXYZ3(p, sx, sy, sz) == ScaleX3(ScaleY3(ScaleZ3(p, sz), sy), sx)
  {
  }

  /** Neither `==` nor `<` of Point3D looks at z or its errors. */
  lemma Point3DIgnoresZ(a: Point3D, b: Point3D, z: real, ezm: real, ezp: real)
    ensures Eq3(a.(z := z, ezMinus := ezm, ezPlus := ezp), b) == Eq3(a, b)
    ensures Less3(a.(z := z, ezMinus := ezm, ezPlus := ezp), b) == Less3(a, b)
    ensures Less3(b, a.(z := z, ezMinus := ezm, ezPlus := ezp)) == Less3(b, a)
  {
  }

  lemma Point3DTrichotomy(a: Point3D, b: Point3D)
    ensures Eq3(a, b) ==> !Less3(a, b) && !Less3(b, a)
    ensures !Eq3(a, b) ==> (Less3(a, b) <==> !Less3(b, a))
    ensures Eq3(a, b) == Eq3(b, a)
    ensures Eq3(a, a) && !Less3(a, a)
    ensures LessEq3(a, b) <==> Eq3(a, b) || Less3(a, b)
    ensures Greater3(a, b) <==> Less3(b, a)
    ensures GreaterEq3(a, b) <==> LessEq3(b, a)
  {
    var t := FuzzyTolerance;
    FuzzyEqualsSymmetric(a.x, b.x, t);
    FuzzyEqualsSymmetric(a.y, b.y, t);
    FuzzyEqualsSymmetric(a.exMinus, b.exMinus, t);
    FuzzyEqualsSymmetric(a.eyMinus, b.eyMinus, t);
    FuzzyEqualsSymmetric(a.exPlus, b.exPlus, t);
    FuzzyEqualsSymmetric(a.eyPlus, b.eyPlus, t);
    FuzzyEqualsReflexive(a.x, t);
    FuzzyEqualsReflexive(a.y, t);
    FuzzyEqualsReflexive(a.exMinus, t);
    FuzzyEqualsReflexive(a.eyMinus, t);
    FuzzyEqualsReflexive(a.exPlus, t);
    FuzzyEqualsReflexive(a.eyPlus, t);
    if !FuzzyEquals(a.x, b.x) { NotFuzzyEqualStrict(a.x, b.x); }
    else if !FuzzyEquals(a.y, b.y) { NotFuzzyEqualStrict(a.y, b.y); }
    else if !FuzzyEquals(a.exMinus, b.exMinus) { NotFuzzyEqualStrict(a.exMinus, b.exMinus); }
    else if !FuzzyEquals(a.eyMinus, b.eyMinus) { NotFuzzyEqualStrict(a.eyMinus, b.eyMinus); }
    else if !FuzzyEquals(a.exPlus, b.exPlus) { NotFuzzyEqualStrict(a.exPlus, b.exPlus); }
    else if !FuzzyEquals(a.eyPlus, b.eyPlus) { NotFuzzyEqualStrict(a.eyPlus, b.eyPlus); }
  }

  // ---------------------------------------------------------------------------
  // The orders the scatters sort by

  /** All three point orders are asymmetric, which is what sorting them needs. */
  lemma PointOrdersAsymmetric()
    ensures Asymmetric(Less1) && Asymmetric(Less2) && Asymmetric(Less3)
  {
    forall a: Point1D, b: Point1D ensures Less1(a, b) ==> !Less1(b, a) { Point1DTrichotomy(a, b); }
    forall a: Point2D, b: Point2D ensures Less2(a, b) ==> !Less2(b, a) { Point2DTrichotomy(a, b); }
    forall a: Point3D, b: Point3D ensures Less3(a, b) ==> !Less3(b, a) { Point3DTrichotomy(a, b); }
  }
}
