/** Scatter2D: a sorted vector of Point2D plus annotations, "Type" =
    "Scatter2D". Scatter2D.h is not part of this model; the members here are
    the ones the conversions, the histogram ratios and the text formats use,
    with the sortedvector insertion of Scatter1D. */
module Scatter2D {
  import opened Wrappers
  import opened Points
  import opened SortedVector
  import opened AnalysisObject

  class Scatter2D {
    var annotations: Annotations
    var points: seq<Point2D>

    ghost predicate Valid()
      reads this
    {
      WellFormed(annotations)
    }

    constructor FromParts(anns: Annotations, pts: seq<Point2D>)
      requires WellFormed(anns)
      ensures Valid() && annotations == anns && points == pts
    {
      annotations := anns;
      points := pts;
    }

    /** Scatter2D(path, title): no points. */
    static method Create(path: string := "", title: string := "") returns (r: Result<Scatter2D>)
      ensures r.Ok? <==> ValidPath(path)
      ensures r.Err? ==> r.error == AnnotationError
      ensures r.Ok? ==> fresh(r.value) && r.value.Valid() && r.value.points == []
      ensures r.Ok? ==> r.value.annotations == InitAnnotations([], "Scatter2D", path, title).value
    {
      var anns := InitAnnotations([], "Scatter2D", path, title);
      if anns.Err? {
        return Err(anns.error);
      }
      var s := new Scatter2D.FromParts(anns.value, []);
      return Ok(s);
    }

    method SetAnnotation(name: string, value: string)
      requires Valid()
      modifies this
      ensures Valid() && points == old(points)
      ensures forall m :: Lookup(annotations, m) == if m == name then Some(value) else Lookup(old(annotations), m)
    {
      SetAnnProperties(annotations, name, value);
      annotations := SetAnn(annotations, name, value);
    }

    /** Setting each of src's annotations in turn, in map order. */
    method Overlay(src: Annotations)
      requires Valid() && WellFormed(src)
      modifies this
      ensures Valid() && points == old(points)
      ensures forall m :: Lookup(annotations, m) == if m in Keys(src) then Lookup(src, m) else Lookup(old(annotations), m)
    {
      var names := Keys(src);
      for i := 0 to |names|
        invariant Valid() && points == old(points)
        invariant forall m :: Lookup(annotations, m) == if m in names[..i] then Lookup(src, m) else Lookup(old(annotations), m)
      {
        LookupAt(src, i);
        var v := Annotation(src, names[i]);
        SetAnnotation(names[i], v.value);
        TakeSnoc(names, i);
      }
      assert names[..|names|] == names;
    }

    function NumPoints(): nat
      reads this
    {
      |points|
    }

    /** point(index), as Scatter1D's: RangeError past the end. */
    function Point(index: nat): (r: Result<Point2D>)
      reads this
      ensures r.Ok? <==> index < |points|
      ensures r.Ok? ==> r.value == points[index]
      ensures r.Err? ==> r.error == RangeError
    {
      if index >= |points| then Err(RangeError) else Ok(points[index])
    }

    /** addPoint: insert, re-sorting the vector. */
    method AddPoint(p: Point2D)
      modifies this
      ensures points == SortedInsert(old(points), p, Less2) && annotations == old(annotations)
      ensures Sorted(points, Less2) && multiset(points) == multiset(old(points)) + multiset{p}
    {
      PointOrdersAsymmetric();
      SortedInsertProperties(points, p, Less2);
      points := SortedInsert(points, p, Less2);
    }
  }

  /** Lookups in a default Scatter2D: "Type" is "Scatter2D", path and title
      are empty, nothing else is set. */
  lemma DefaultScatterLookup(m: string)
    ensures Lookup(InitAnnotations([], "Scatter2D", "", "").value, m) == ConvertedLookup([], "Scatter2D", m)
  {
  }

  /** Inserting points one by one into an empty scatter yields them sorted
      and all of them. */
  lemma InsertedPointsSorted(pts: seq<Point2D>)
    ensures Sorted(InsertEach([], pts, Less2), Less2)
    ensures multiset(InsertEach([], pts, Less2)) == multiset(pts)
    ensures |InsertEach([], pts, Less2)| == |pts|
  {
    PointOrdersAsymmetric();
    InsertEachProperties([], pts, Less2);
  }
}
