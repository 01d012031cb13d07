/** A weighted counter: one zero-dimensional distribution plus the
    analysis-object annotations, with "Type" = "Counter".

    Numbers stored in annotations go through boost::lexical_cast; the two
    conversions are parameters here: `fmt` writes a real as text and `lex`
    reads one back (None when the text is not a number). The square root used
    by err() and relErr() is a parameter `sqrt` as well.
 */
module Counter {
  import opened Wrappers
  import opened Dbn
  import opened AnalysisObject

  /** relErr(): err/sumW, or 0 when sumW2 is 0. A zero sumW with a non-zero
      sumW2, an infinite relative error in the source, gives 0 here. */
  function RelErrOf(d: Dbn0D, sqrt: real -> real): (r: real)
    ensures d.sumW2 == 0.0 ==> r == 0.0
    ensures d.sumW2 != 0.0 && d.sumW != 0.0 ==> r == sqrt(d.sumW2) / d.sumW
  {
    if d.sumW2 != 0.0 && d.sumW != 0.0 then sqrt(d.sumW2) / d.sumW else 0.0
  }

  /** annotation<double>("ScaledBy", 1.0): 1 when absent, the number when it
      reads as one, and a bad cast otherwise. */
  function ScaledByOf(a: Annotations, lex: string -> Option<real>): (r: Result<real>)
    ensures Lookup(a, "ScaledBy") == None ==> r == Ok(1.0)
    ensures r.Err? ==> r.error == BadCast
  {
    match Lookup(a, "ScaledBy")
    case None => Ok(1.0)
    case Some(text) =>
      match lex(text)
      case None => Err(BadCast)
      case Some(v) => Ok(v)
  }

  /** The product the new "ScaledBy" holds, named so that chains of
      scalings can be compared term by term. */
  function Times(a: real, b: real): (r: real)
    ensures r == a * b
  {
    a * b
  }

  /** The annotations after scaleW(s): "ScaledBy" multiplied by s. */
  function Rescaled(a: Annotations, s: real, fmt: real -> string, lex: string -> Option<real>): (r: Annotations)
    requires WellFormed(a) && ScaledByOf(a, lex).Ok?
    ensures WellFormed(r)
    ensures Lookup(r, "ScaledBy") == Some(fmt(Times(ScaledByOf(a, lex).value, s)))
    ensures forall m :: m != "ScaledBy" ==> Lookup(r, m) == Lookup(a, m)
  {
    SetAnnProperties(a, "ScaledBy", fmt(Times(ScaledByOf(a, lex).value, s)));
    SetAnn(a, "ScaledBy", fmt(Times(ScaledByOf(a, lex).value, s)))
  }

  /** After operator=, "Path" and "Title" are the source's, everything else
      is the target's own. */
  function AssignedLookup(dst: Annotations, src: Annotations, m: string): Option<string> {
    if m == "Path" then Some(Path(src))
    else if m == "Title" then Some(Title(src))
    else Lookup(dst, m)
  }

  /** The Counter(1) that `++` and `--` combine with: one fill of weight 1. */
  function UnitDbn(): Dbn0D { Fill0D(Zero0D(), 1.0) }

  class Counter {
    var annotations: Annotations
    var dbn: Dbn0D

    ghost predicate Valid()
      reads this
    {
      WellFormed(annotations)
    }

    constructor FromParts(anns: Annotations, d: Dbn0D)
      requires WellFormed(anns)
      ensures Valid() && annotations == anns && dbn == d
    {
      annotations := anns;
      dbn := d;
    }

    /** Counter(path, title): empty. */
    static method Create(path: string := "", title: string := "") returns (r: Result<Counter>)
      ensures r.Ok? <==> ValidPath(path)
      ensures r.Err? ==> r.error == AnnotationError
      ensures r.Ok? ==> fresh(r.value) && r.value.Valid() && r.value.dbn == Zero0D()
      ensures r.Ok? ==> r.value.annotations == InitAnnotations([], "Counter", path, title).value
    {
      r := FromDbn(Zero0D(), path, title);
    }

    /** Counter(dbn, path, title). */
    static method FromDbn(d: Dbn0D, path: string := "", title: string := "") returns (r: Result<Counter>)
      ensures r.Ok? <==> ValidPath(path)
      ensures r.Err? ==> r.error == AnnotationError
      ensures r.Ok? ==> fresh(r.value) && r.value.Valid() && r.value.dbn == d
      ensures r.Ok? ==> r.value.annotations == InitAnnotations([], "Counter", path, title).value
    {
      var anns := InitAnnotations([], "Counter", path, title);
      if anns.Err? {
        return Err(anns.error);
      }
      var c := new Counter.FromParts(anns.value, d);
      return Ok(c);
    }

    /** Counter(w, path, title): exactly one fill of weight w. */
    static method FromWeight(w: real, path: string := "", title: string := "") returns (r: Result<Counter>)
      ensures r.Ok? <==> ValidPath(path)
      ensures r.Err? ==> r.error == AnnotationError
      ensures r.Ok? ==> fresh(r.value) && r.value.Valid() && r.value.dbn == Fill0D(Zero0D(), w)
      ensures r.Ok? ==> r.value.dbn.numFills == 1 && r.value.dbn.sumW == w && r.value.dbn.sumW2 == w * w
    {
      r := FromDbn(Zero0D(), path, title);
      if r.Ok? {
        r.value.Fill(w);
      }
    }

    /** Counter(c, path): a copy of c's annotations and distribution, under
        the given path, or c's own path when the given one is empty. */
    static method Copy(c: Counter, path: string := "") returns (r: Result<Counter>)
      requires c.Valid()
      ensures r.Ok? <==> ValidPath(CopyPath(c.annotations, path))
      ensures r.Err? ==> r.error == AnnotationError
      ensures r.Ok? ==> fresh(r.value) && r.value.Valid() && r.value.dbn == c.dbn
      ensures r.Ok? ==> r.value.annotations == CopyAnnotationsOf(c.annotations, path, "Counter")
    {
      var p := CopyPath(c.annotations, path);
      var anns := InitAnnotations(c.annotations, "Counter", p, Title(c.annotations));
      if anns.Err? {
        return Err(anns.error);
      }
      var res := new Counter.FromParts(anns.value, c.dbn);
      return Ok(res);
    }

    /** operator=: path (always set, so it may be refused), title and
        distribution of c. */
    method Assign(c: Counter) returns (o: Outcome)
      requires Valid() && c.Valid()
      modifies this
      ensures Valid()
      ensures o.Pass? <==> ValidPath(Path(old(c.annotations)))
      ensures o.Fail? ==> o.error == AnnotationError && annotations == old(annotations) && dbn == old(dbn)
      ensures o.Pass? ==> dbn == old(c.dbn)
      ensures o.Pass? ==> forall m :: Lookup(annotations, m) == AssignedLookup(old(annotations), old(c.annotations), m)
    {
      var p, t, d := Path(c.annotations), Title(c.annotations), c.dbn;
      var withPath := SetPath(annotations, p);
      if withPath.Err? {
        return Fail(withPath.error);
      }
      SetAnnProperties(withPath.value, "Title", t);
      annotations := SetAnn(withPath.value, "Title", t);
      dbn := d;
      o := Pass;
    }

    method Fill(weight: real := 1.0)
      modifies this
      ensures dbn == Fill0D(old(dbn), weight) && annotations == old(annotations)
    {
      dbn := Fill0D(dbn, weight);
    }

    method Reset()
      modifies this
      ensures dbn == Zero0D() && annotations == old(annotations)
    {
      dbn := Zero0D();
    }

    /** scaleW(s): "ScaledBy" becomes its old value (1 when absent) times s,
        then the distribution is scaled. A "ScaledBy" that does not read as a
        number throws before anything changes. */
    method ScaleW(s: real, fmt: real -> string, lex: string -> Option<real>) returns (o: Outcome)
      requires Valid()
      modifies this
      ensures Valid()
      ensures o.Fail? <==> ScaledByOf(old(annotations), lex).Err?
      ensures o.Fail? ==> o.error == BadCast && annotations == old(annotations) && dbn == old(dbn)
      ensures o.Pass? ==> dbn == ScaleW0D(old(dbn), s)
      ensures o.Pass? ==> annotations == Rescaled(old(annotations), s, fmt, lex)
    {
      var current := ScaledByOf(annotations, lex);
      if current.Err? {
        return Fail(current.error);
      }
      annotations := Rescaled(annotations, s, fmt, lex);
      dbn := ScaleW0D(dbn, s);
      o := Pass;
    }

    /** `*= s` is scaleW(s). */
    method MulAssign(s: real, fmt: real -> string, lex: string -> Option<real>) returns (o: Outcome)
      requires Valid()
      modifies this
      ensures Valid()
      ensures o.Fail? <==> ScaledByOf(old(annotations), lex).Err?
      ensures o.Pass? ==> dbn == ScaleW0D(old(dbn), s)
      ensures o.Pass? ==> annotations == Rescaled(old(annotations), s, fmt, lex)
    {
      o := ScaleW(s, fmt, lex);
    }

    /** `/= s` is scaleW(1/s). */
    method DivAssign(s: real, fmt: real -> string, lex: string -> Option<real>) returns (o: Outcome)
      requires Valid() && s != 0.0
      modifies this
      ensures Valid()
      ensures o.Fail? <==> ScaledByOf(old(annotations), lex).Err?
      ensures o.Pass? ==> dbn == ScaleW0D(old(dbn), 1.0 / s)
      ensures o.Pass? ==> annotations == Rescaled(old(annotations), 1.0 / s, fmt, lex)
    {
      o := ScaleW(1.0 / s, fmt, lex);
    }

    function NumEntries(): real
      reads this
    {
      dbn.numFills as real
    }

    function SumW(): real
      reads this
    {
      dbn.sumW
    }

    function SumW2(): real
      reads this
    {
      dbn.sumW2
    }

    /** val() is sumW(). */
    function Val(): real
      reads this
    {
      SumW()
    }

    /** err(): the square root of sumW2. */
    function ErrVal(sqrt: real -> real): real
      reads this
    {
      sqrt(SumW2())
    }

    function RelErr(sqrt: real -> real): real
      reads this
    {
      RelErrOf(dbn, sqrt)
    }

    /** `+=`: only the distributions combine; path and title stay. The other
        counter may be this one. */
    method AddCounter(other: Counter)
      modifies this
      ensures dbn == Add0D(old(dbn), old(other.dbn)) && annotations == old(annotations)
    {
      dbn := Add0D(dbn, other.dbn);
    }

    /** `-=`. */
    method SubCounter(other: Counter)
      modifies this
      ensures dbn == Sub0D(old(dbn), old(other.dbn)) && annotations == old(annotations)
    {
      dbn := Sub0D(dbn, other.dbn);
    }

    /** `++`: `*this += 1`, i.e. merge in a Counter holding one fill of weight 1. */
    method Increment()
      modifies this
      ensures dbn == Add0D(old(dbn), UnitDbn()) && annotations == old(annotations)
    {
      var one := new Counter.FromParts([], UnitDbn());
      AddCounter(one);
    }

    /** `--`: subtract that same one-fill counter. */
    method Decrement()
      modifies this
      ensures dbn == Sub0D(old(dbn), UnitDbn()) && annotations == old(annotations)
    {
      var one := new Counter.FromParts([], UnitDbn());
      SubCounter(one);
    }
  }

  /** add(first, second) and `+`: a copy of first with second added; neither
      argument changes. */
  method Add(first: Counter, second: Counter) returns (r: Result<Counter>)
    requires first.Valid()
    ensures r.Ok? <==> ValidPath(Path(first.annotations))
    ensures r.Ok? ==> fresh(r.value) && r.value.Valid()
    ensures r.Ok? ==> r.value.dbn == Add0D(first.dbn, second.dbn)
    ensures r.Ok? ==> r.value.annotations == CopyAnnotationsOf(first.annotations, "", "Counter")
  {
    r := Counter.Copy(first);
    if r.Ok? {
      r.value.AddCounter(second);
    }
  }

  /** subtract(first, second) and `-`. */
  method Subtract(first: Counter, second: Counter) returns (r: Result<Counter>)
    requires first.Valid()
    ensures r.Ok? <==> ValidPath(Path(first.annotations))
    ensures r.Ok? ==> fresh(r.value) && r.value.Valid()
    ensures r.Ok? ==> r.value.dbn == Sub0D(first.dbn, second.dbn)
    ensures r.Ok? ==> r.value.annotations == CopyAnnotationsOf(first.annotations, "", "Counter")
  {
    r := Counter.Copy(first);
    if r.Ok? {
      r.value.SubCounter(second);
    }
  }

  /** `++` followed by `--` gives back the distribution, wrap-around of the
      fill count included; `--` on a counter with no fills wraps the count. */
  lemma IncrementDecrement(d: Dbn0D)
    ensures Sub0D(Add0D(d, UnitDbn()), UnitDbn()) == d
    ensures Add0D(Sub0D(d, UnitDbn()), UnitDbn()) == d
    ensures Sub0D(Zero0D(), UnitDbn()).numFills == ULongModulus - 1
  {
    Add0DLaws(d, UnitDbn());
    AddSubU(d.numFills, 1);
  }

  /** Counter(w) and an empty counter filled with w hold the same distribution,
      and `+=` of a one-fill counter is a fill. */
  lemma FillIsAddOfOneFill(d: Dbn0D, w: real)
    ensures Fill0D(Zero0D(), w) == Add0D(Zero0D(), Fill0D(Zero0D(), w))
    ensures Add0D(d, Fill0D(Zero0D(), w)) == Fill0D(d, w)
    ensures Add0D(d, UnitDbn()) == Fill0D(d, 1.0)
  {
    Fill0DIsAddOfSingle(d, w);
    Fill0DIsAddOfSingle(Zero0D(), w);
  }

  /** Two scalings multiply "ScaledBy", when the number format reads back
      what it writes. */
  lemma ScaledByComposes(a: Annotations, s: real, t: real, fmt: real -> string, lex: string -> Option<real>)
    requires WellFormed(a) && ScaledByOf(a, lex).Ok?
    requires forall v :: lex(fmt(v)) == Some(v)
    ensures ScaledByOf(Rescaled(a, s, fmt, lex), lex) == Ok(Times(ScaledByOf(a, lex).value, s))
    ensures ScaledByOf(Rescaled(Rescaled(a, s, fmt, lex), t, fmt, lex), lex)
            == Ok(Times(Times(ScaledByOf(a, lex).value, s), t))
    ensures ScaledByOf([], lex) == Ok(1.0)
  {
    var once := Rescaled(a, s, fmt, lex);
    assert ScaledByOf(once, lex) == Ok(Times(ScaledByOf(a, lex).value, s));
  }
}
