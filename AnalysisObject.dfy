/** Analysis-object metadata: a string-to-string annotation map together with
    the standard "Type", "Path" and "Title" annotations.

    The map is a std::map, so it iterates its keys in increasing order of
    std::string comparison. It is modelled as what that iteration yields: a
    list of (key, value) entries with strictly increasing keys. Values are
    stored as strings; a caller that stores a number formats it first.
 */
module AnalysisObject {
  import opened Wrappers

  type Annotations = seq<(string, string)>

  // ---------------------------------------------------------------------------
  // std::string order

  /** Lexicographic order on strings, character by character. */
  predicate StrLess(a: string, b: string) {
    if a == [] then b != []
    else if b == [] then false
    else if a[0] != b[0] then a[0] < b[0]
    else StrLess(a[1..], b[1..])
  }

  lemma {:induction false} StrLessIrreflexive(a: string)
    ensures !StrLess(a, a)
  {
    if a != [] { StrLessIrreflexive(a[1..]); }
  }

  lemma {:induction false} StrLessTrichotomy(a: string, b: string)
    ensures a == b || StrLess(a, b) || StrLess(b, a)
    ensures !(StrLess(a, b) && StrLess(b, a))
  {
    if a != [] && b != [] && a[0] == b[0] {
      StrLessTrichotomy(a[1..], b[1..]);
      if a[1..] == b[1..] {
        assert a == [a[0]] + a[1..] && b == [b[0]] + b[1..];
      }
    }
  }

  lemma {:induction false} StrLessTransitive(a: string, b: string, c: string)
    requires StrLess(a, b) && StrLess(b, c)
    ensures StrLess(a, c)
  {
    if a != [] && a[0] == b[0] && b[0] == c[0] {
      StrLessTransitive(a[1..], b[1..], c[1..]);
    }
  }

  // ---------------------------------------------------------------------------
  // The map

  function Keys(a: Annotations): (r: seq<string>)
    ensures |r| == |a|
    ensures forall i :: 0 <= i < |a| ==> r[i] == a[i].0
  {
    if a == [] then [] else [a[0].0] + Keys(a[1..])
  }

  /** Keys strictly increasing: every key appears once, in map order. */
  predicate WellFormed(a: Annotations) {
    forall i, j :: 0 <= i < j < |a| ==> StrLess(a[i].0, a[j].0)
  }

  function Lookup(a: Annotations, name: string): Option<string> {
    if a == [] then None else if a[0].0 == name then Some(a[0].1) else Lookup(a[1..], name)
  }

  /** `_annotations[name] = value`: overwrite, or insert at the key's place. */
  function SetAnn(a: Annotations, name: string, value: string): Annotations {
    if a == [] then [(name, value)]
    else if a[0].0 == name then [(name, value)] + a[1..]
    else if StrLess(name, a[0].0) then [(name, value)] + a
    else [a[0]] + SetAnn(a[1..], name, value)
  }

  /** `_annotations.erase(name)`. */
  function RmAnn(a: Annotations, name: string): Annotations {
    if a == [] then [] else if a[0].0 == name then RmAnn(a[1..], name) else [a[0]] + RmAnn(a[1..], name)
  }

  lemma {:induction false} LookupFound(a: Annotations, name: string)
    ensures Lookup(a, name).Some? <==> name in Keys(a)
  {
    if a != [] {
      LookupFound(a[1..], name);
      assert Keys(a) == [a[0].0] + Keys(a[1..]);
    }
  }

  lemma WellFormedTail(a: Annotations)
    requires WellFormed(a) && a != []
    ensures WellFormed(a[1..])
    ensures forall i :: 0 <= i < |a[1..]| ==> StrLess(a[0].0, a[1..][i].0)
  {
    forall i | 0 <= i < |a[1..]| ensures StrLess(a[0].0, a[1..][i].0) {
      assert a[1..][i] == a[i + 1];
    }
    forall i, j | 0 <= i < j < |a[1..]| ensures StrLess(a[1..][i].0, a[1..][j].0) {
      assert a[1..][i] == a[i + 1] && a[1..][j] == a[j + 1];
    }
  }

  /** Setting an annotation keeps the key order, stores the value under its
      name and changes no other name. */
  lemma {:induction false} SetAnnProperties(a: Annotations, name: string, value: string)
    requires WellFormed(a)
    ensures WellFormed(SetAnn(a, name, value))
    ensures forall m :: Lookup(SetAnn(a, name, value), m) == if m == name then Some(value) else Lookup(a, m)
    ensures SetAnn(a, name, value) != []
    ensures SetAnn(a, name, value)[0].0 == name || (a != [] && SetAnn(a, name, value)[0].0 == a[0].0)
  {
    var r := SetAnn(a, name, value);
    if a == [] {
    } else if a[0].0 == name {
      WellFormedTail(a);
      forall i, j | 0 <= i < j < |r| ensures StrLess(r[i].0, r[j].0) {
        assert r[i].0 == a[i].0 && r[j].0 == a[j].0;
      }
    } else if StrLess(name, a[0].0) {
      assert r == [(name, value)] + a;
      forall i, j | 0 <= i < j < |r| ensures StrLess(r[i].0, r[j].0) {
        if i == 0 {
          assert r[j] == a[j - 1];
          if j > 1 { StrLessTransitive(name, a[0].0, a[j - 1].0); }
        } else {
          assert r[i] == a[i - 1] && r[j] == a[j - 1];
        }
      }
      LookupNotBelow(a, name);
    } else {
      WellFormedTail(a);
      StrLessTrichotomy(name, a[0].0);
      var rest := SetAnn(a[1..], name, value);
      SetAnnProperties(a[1..], name, value);
      assert r == [a[0]] + rest;
      forall i, j | 0 <= i < j < |r| ensures StrLess(r[i].0, r[j].0) {
        if i == 0 {
          assert r[j] == rest[j - 1];
          SetAnnKeysAbove(a[1..], name, value, a[0].0, j - 1);
        } else {
          assert r[i] == rest[i - 1] && r[j] == rest[j - 1];
        }
      }
    }
  }

  /** Every key of SetAnn(a, name, _) is a key of a or the name itself. */
  lemma {:induction false} SetAnnKeysAbove(a: Annotations, name: string, value: string, low: string, k: nat)
    requires (forall i :: 0 <= i < |a| ==> StrLess(low, a[i].0)) && StrLess(low, name)
    requires k < |SetAnn(a, name, value)|
    ensures StrLess(low, SetAnn(a, name, value)[k].0)
  {
    if a != [] && a[0].0 != name && !StrLess(name, a[0].0) && k > 0 {
      assert forall i :: 0 <= i < |a[1..]| ==> a[1..][i] == a[i + 1];
      SetAnnKeysAbove(a[1..], name, value, low, k - 1);
    } else if a != [] && a[0].0 == name && k > 0 {
      assert SetAnn(a, name, value)[k] == a[k];
    } else if a != [] && StrLess(name, a[0].0) && k > 0 {
      assert SetAnn(a, name, value)[k] == a[k - 1];
    }
  }

  /** A name below the first key of a well-formed map is not in it. */
  lemma LookupNotBelow(a: Annotations, name: string)
    requires WellFormed(a) && a != [] && StrLess(name, a[0].0)
    ensures Lookup(a, name) == None
  {
    LookupFound(a, name);
    if name in Keys(a) {
      var i :| 0 <= i < |Keys(a)| && Keys(a)[i] == name;
      if i == 0 {
        StrLessIrreflexive(name);
      } else {
        StrLessTransitive(name, a[0].0, a[i].0);
        StrLessIrreflexive(name);
      }
    }
  }

  /** Removing an annotation drops that name only and keeps the order. */
  lemma {:induction false} RmAnnProperties(a: Annotations, name: string)
    requires WellFormed(a)
    ensures WellFormed(RmAnn(a, name))
    ensures forall m :: Lookup(RmAnn(a, name), m) == if m == name then None else Lookup(a, m)
    ensures forall k :: k in Keys(RmAnn(a, name)) ==> k in Keys(a)
  {
    if a != [] {
      WellFormedTail(a);
      RmAnnProperties(a[1..], name);
      var rest := RmAnn(a[1..], name);
      LookupFound(rest, a[0].0);
      assert Keys(a) == [a[0].0] + Keys(a[1..]);
      if a[0].0 != name {
        var r := [a[0]] + rest;
        assert Keys(r) == [a[0].0] + Keys(rest);
        forall i, j | 0 <= i < j < |r| ensures StrLess(r[i].0, r[j].0) {
          if i == 0 {
            assert r[j] == rest[j - 1];
            assert rest[j - 1].0 in Keys(rest);
            var q :| 0 <= q < |a[1..]| && Keys(a[1..])[q] == rest[j - 1].0;
          } else {
            assert r[i] == rest[i - 1] && r[j] == rest[j - 1];
          }
        }
      }
    }
  }

  /** In a well-formed map each name is a key at most once, and the keys are
      listed in increasing order. */
  lemma KeysSortedUnique(a: Annotations)
    requires WellFormed(a)
    ensures forall i, j :: 0 <= i < j < |Keys(a)| ==> Keys(a)[i] != Keys(a)[j]
    ensures forall i, j :: 0 <= i < j < |Keys(a)| ==> StrLess(Keys(a)[i], Keys(a)[j])
  {
    forall i, j | 0 <= i < j < |Keys(a)| ensures Keys(a)[i] != Keys(a)[j] {
      if Keys(a)[i] == Keys(a)[j] { StrLessIrreflexive(a[i].0); }
    }
  }

  /** A lookup in a well-formed map finds the value stored at the key's place. */
  lemma {:induction false} LookupAt(a: Annotations, i: nat)
    requires WellFormed(a) && i < |a|
    ensures Lookup(a, a[i].0) == Some(a[i].1)
  {
    if i > 0 {
      WellFormedTail(a);
      assert a[1..][i - 1] == a[i];
      LookupAt(a[1..], i - 1);
      if a[0].0 == a[i].0 { StrLessIrreflexive(a[0].0); }
    }
  }

  // ---------------------------------------------------------------------------
  // Standard annotations

  /** annotation(name): the value, or AnnotationError when it is missing. */
  function Annotation(a: Annotations, name: string): (r: Result<string>)
    ensures r.Ok? <==> name in Keys(a)
    ensures r.Err? ==> r.error == AnnotationError
  {
    LookupFound(a, name);
    match Lookup(a, name)
    case Some(v) => Ok(v)
    case None => Err(AnnotationError)
  }

  /** annotation(name, default). */
  function AnnotationOr(a: Annotations, name: string, default: string): (r: string)
    ensures name !in Keys(a) ==> r == default
    ensures Annotation(a, name).Ok? ==> r == Annotation(a, name).value
  {
    match Annotation(a, name)
    case Ok(v) => v
    case Err(_) => default
  }

  /** title() and path(): "" when the annotation is absent. */
  function Title(a: Annotations): string { AnnotationOr(a, "Title", "") }

  function Path(a: Annotations): string { AnnotationOr(a, "Path", "") }

  /** type(): the "Type" annotation, which must exist. */
  function TypeOf(a: Annotations): Result<string> { Annotation(a, "Type") }

  /** A path may be empty; otherwise it starts with '/'. */
  predicate ValidPath(path: string) { |path| == 0 || path[0] == '/' }

  /** setPath: AnnotationError for a path that does not start with '/';
      nothing is stored in that case. */
  function SetPath(a: Annotations, path: string): (r: Result<Annotations>)
    requires WellFormed(a)
    ensures r.Ok? <==> ValidPath(path)
    ensures r.Err? ==> r.error == AnnotationError
    ensures r.Ok? ==> WellFormed(r.value) && Path(r.value) == path && Lookup(r.value, "Path") == Some(path)
    ensures r.Ok? ==> forall m :: m != "Path" ==> Lookup(r.value, m) == Lookup(a, m)
  {
    if |path| > 0 && path[0] != '/' then Err(AnnotationError)
    else
      SetAnnProperties(a, "Path", path);
      LookupFound(SetAnn(a, "Path", path), "Path");
      Ok(SetAnn(a, "Path", path))
  }

  /** The position of the last '/', or -1 (rfind). */
  function LastSlash(p: string): (r: int)
    ensures -1 <= r < |p|
    ensures r == -1 ==> forall i :: 0 <= i < |p| ==> p[i] != '/'
    ensures r >= 0 ==> p[r] == '/' && forall i :: r < i < |p| ==> p[i] != '/'
  {
    if p == [] then -1
    else if p[|p| - 1] == '/' then |p| - 1
    else LastSlash(p[..|p| - 1])
  }

  /** name(): the part of the path after the last '/', or the whole path. */
  function NameOfPath(p: string): (r: string)
    ensures '/' !in r
    ensures |r| <= |p| && r == p[|p| - |r|..]
    ensures '/' in p ==> |r| < |p| && p[|p| - |r| - 1] == '/'
    ensures '/' !in p ==> r == p
  {
    var k := LastSlash(p);
    if k == -1 then p else p[k + 1..]
  }

  /** The annotations an AnalysisObject(type, path, [ao,] title) constructor
      leaves: those of base (empty, or a copy of ao's), then Type, then the
      Path, which may be refused, then the Title. */
  function InitAnnotations(base: Annotations, typ: string, path: string, title: string): (r: Result<Annotations>)
    requires WellFormed(base)
    ensures r.Ok? <==> ValidPath(path)
    ensures r.Err? ==> r.error == AnnotationError
    ensures r.Ok? ==> WellFormed(r.value)
    ensures r.Ok? ==> forall m :: Lookup(r.value, m) ==
                        if m == "Type" then Some(typ)
                        else if m == "Path" then Some(path)
                        else if m == "Title" then Some(title)
                        else Lookup(base, m)
  {
    var withType := SetAnn(base, "Type", typ);
    SetAnnProperties(base, "Type", typ);
    match SetPath(withType, path)
    case Err(e) => Err(e)
    case Ok(withPath) =>
      SetAnnProperties(withPath, "Title", title);
      LookupFound(withPath, "Path");
      Ok(SetAnn(withPath, "Title", title))
  }

  /** Two well-formed annotation lists that agree on every lookup are equal:
      the list is determined by the map it stands for. */
  lemma {:induction false} WellFormedExtEq(a: Annotations, b: Annotations)
    requires WellFormed(a) && WellFormed(b)
    requires forall m :: Lookup(a, m) == Lookup(b, m)
    ensures a == b
  {
    if a != [] { assert Lookup(a, a[0].0).Some?; }
    if b != [] { assert Lookup(b, b[0].0).Some?; }
    if a == [] || b == [] {
    } else {
      var ka, kb := a[0].0, b[0].0;
      assert Lookup(a, ka).Some? && Lookup(b, kb).Some?;
      LookupFound(a, kb);
      LookupFound(b, ka);
      StrLessTrichotomy(ka, kb);
      if ka != kb {
        if StrLess(ka, kb) { LookupNotBelow(b, ka); } else { LookupNotBelow(a, kb); }
      }
      assert a[0] == b[0];
      WellFormedTail(a);
      WellFormedTail(b);
      forall m ensures Lookup(a[1..], m) == Lookup(b[1..], m) {
        if m == ka {
          TailLacksHead(a);
          TailLacksHead(b);
        } else {
          assert Lookup(a, m) == Lookup(a[1..], m);
          assert Lookup(b, m) == Lookup(b[1..], m);
        }
      }
      WellFormedExtEq(a[1..], b[1..]);
      assert a == [a[0]] + a[1..] && b == [b[0]] + b[1..];
    }
  }

  /** A well-formed list with the lookups a constructor leaves is what
      InitAnnotations builds. */
  lemma InitMatches(base: Annotations, after: Annotations, typ: string, path: string, title: string)
    requires WellFormed(base) && WellFormed(after) && ValidPath(path)
    requires forall m :: Lookup(after, m) ==
                           if m == "Title" then Some(title)
                           else if m == "Path" then Some(path)
                           else if m == "Type" then Some(typ)
                           else Lookup(base, m)
    ensures after == InitAnnotations(base, typ, path, title).value
  {
    WellFormedExtEq(after, InitAnnotations(base, typ, path, title).value);
  }

  /** The path a copy constructor gives: the one passed, or the original's
      when that is empty. */
  function CopyPath(a: Annotations, path: string): string {
    if path == "" then Path(a) else path
  }

  /** The annotations of a copy of type typ under `path`, when that path is
      accepted. */
  function CopyAnnotationsOf(a: Annotations, path: string, typ: string): Annotations
    requires WellFormed(a)
  {
    var r := InitAnnotations(a, typ, CopyPath(a, path), Title(a));
    if r.Ok? then r.value else a
  }

  /** Lookups in a default-constructed object (path and title empty) after
      a conversion copied the annotations of src over it and set "Type". */
  function ConvertedLookup(src: Annotations, typ: string, m: string): Option<string> {
    if m == "Type" then Some(typ)
    else if Lookup(src, m).Some? then Lookup(src, m)
    else if m == "Path" || m == "Title" then Some("")
    else None
  }

  /** The tail of a well-formed list does not hold the head's key. */
  lemma TailLacksHead(a: Annotations)
    requires WellFormed(a) && a != []
    ensures Lookup(a[1..], a[0].0) == None
  {
    WellFormedTail(a);
    if a[1..] != [] {
      LookupNotBelow(a[1..], a[0].0);
    }
  }

  /** What operator= leaves under a name: the source's path and title when
      they are non-empty, otherwise the old value. */
  function AssignedValue(dst: Annotations, src: Annotations, m: string): Option<string> {
    if m == "Path" && Path(src) != "" then Some(Path(src))
    else if m == "Title" && Title(src) != "" then Some(Title(src))
    else Lookup(dst, m)
  }

  // ---------------------------------------------------------------------------
  // The object

  class AnalysisObject {
    var annotations: Annotations

    ghost predicate Valid()
      reads this
    {
      WellFormed(annotations)
    }

    /** The default constructor: no annotations. */
    constructor ()
      ensures Valid() && annotations == []
    {
      annotations := [];
    }

    /** AnalysisObject(type, path, title): Type, then Path (which may throw),
        then Title. */
    static method Create(typ: string, path: string, title: string := "") returns (r: Result<AnalysisObject>)
      ensures r.Ok? <==> ValidPath(path)
      ensures r.Err? ==> r.error == AnnotationError
      ensures r.Ok? ==> fresh(r.value) && r.value.Valid()
      ensures r.Ok? ==> r.value.annotations == InitAnnotations([], typ, path, title).value
    {
      var ao := new AnalysisObject();
      ao.SetAnnotation("Type", typ);
      var o := ao.SetPathOf(path);
      if o.Fail? {
        return Err(o.error);
      }
      ao.SetTitle(title);
      InitMatches([], ao.annotations, typ, path, title);
      return Ok(ao);
    }

    /** AnalysisObject(type, path, ao, title): every annotation of ao, then
        Type, Path and Title override. */
    static method CreateFrom(typ: string, path: string, ao: AnalysisObject, title: string := "")
      returns (r: Result<AnalysisObject>)
      requires ao.Valid()
      ensures r.Ok? <==> ValidPath(path)
      ensures r.Err? ==> r.error == AnnotationError
      ensures r.Ok? ==> fresh(r.value) && r.value.Valid()
      ensures r.Ok? ==> r.value.annotations == InitAnnotations(ao.annotations, typ, path, title).value
    {
      var res := new AnalysisObject();
      res.CopyAnnotations(ao);
      res.SetAnnotation("Type", typ);
      var o := res.SetPathOf(path);
      if o.Fail? {
        return Err(o.error);
      }
      res.SetTitle(title);
      InitMatches(ao.annotations, res.annotations, typ, path, title);
      return Ok(res);
    }

    /** The BOOST_FOREACH over ao.annotations() that sets each one here. */
    method CopyAnnotations(ao: AnalysisObject)
      requires Valid() && ao.Valid() && annotations == []
      modifies this
      ensures Valid() && annotations == old(ao.annotations)
    {
      var names := ao.AnnotationNames();
      ghost var src := ao.annotations;
      for i := 0 to |names|
        invariant Valid() && ao.annotations == src
        invariant forall m :: Lookup(annotations, m) == if m in names[..i] then Lookup(src, m) else None
      {
        var v := ao.AnnotationValue(names[i]);
        LookupAt(ao.annotations, i);
        SetAnnotation(names[i], v.value);
        TakeSnoc(names, i);
      }
      assert names[..|names|] == names;
      forall m ensures Lookup(annotations, m) == Lookup(src, m) {
        LookupFound(src, m);
      }
      WellFormedExtEq(annotations, src);
    }

    /** operator=: copy the other's path and title when they are non-empty;
        every other annotation stays. A bad path throws before anything is
        stored. */
    method Assign(ao: AnalysisObject) returns (o: Outcome)
      requires Valid() && ao.Valid()
      modifies this
      ensures Valid()
      ensures o.Fail? ==> o.error == AnnotationError && annotations == old(annotations)
      ensures o.Pass? <==> ValidPath(Path(old(ao.annotations)))
      ensures o.Pass? ==> forall m :: Lookup(annotations, m) == AssignedValue(old(annotations), old(ao.annotations), m)
    {
      var p := Path(ao.annotations);
      var t := Title(ao.annotations);
      if |p| > 0 {
        o := SetPathOf(p);
        if o.Fail? { return; }
      }
      if |t| > 0 {
        SetTitle(t);
      }
      o := Pass;
    }

    /** annotations(): every name once, in map order. */
    method AnnotationNames() returns (names: seq<string>)
      requires Valid()
      ensures names == Keys(annotations)
      ensures forall i, j :: 0 <= i < j < |names| ==> StrLess(names[i], names[j])
      ensures forall m :: m in names <==> Lookup(annotations, m).Some?
    {
      names := [];
      for i := 0 to |annotations|
        invariant names == Keys(annotations[..i])
      {
        assert annotations[..i + 1][..i] == annotations[..i];
        KeysSnoc(annotations[..i], annotations[i]);
        TakeSnoc(annotations, i);
        names := names + [annotations[i].0];
      }
      assert annotations[..|annotations|] == annotations;
      KeysSortedUnique(annotations);
      forall m ensures m in names <==> Lookup(annotations, m).Some? {
        LookupFound(annotations, m);
      }
    }

    function HasAnnotation(name: string): bool
      reads this
    {
      Lookup(annotations, name).Some?
    }

    function AnnotationValue(name: string): (r: Result<string>)
      reads this
      ensures r.Ok? <==> HasAnnotation(name)
      ensures r.Ok? ==> Lookup(annotations, name) == Some(r.value)
    {
      LookupFound(annotations, name);
      Annotation(annotations, name)
    }

    method SetAnnotation(name: string, value: string)
      requires Valid()
      modifies this
      ensures Valid()
      ensures annotations == SetAnn(old(annotations), name, value)
      ensures forall m :: Lookup(annotations, m) == if m == name then Some(value) else Lookup(old(annotations), m)
    {
      SetAnnProperties(annotations, name, value);
      annotations := SetAnn(annotations, name, value);
    }

    /** setAnnotations(anns): replace the whole map. */
    method SetAnnotations(anns: Annotations)
      requires WellFormed(anns)
      modifies this
      ensures Valid() && annotations == anns
    {
      annotations := anns;
    }

    method RmAnnotation(name: string)
      requires Valid()
      modifies this
      ensures Valid()
      ensures forall m :: Lookup(annotations, m) == if m == name then None else Lookup(old(annotations), m)
    {
      RmAnnProperties(annotations, name);
      annotations := RmAnn(annotations, name);
    }

    method ClearAnnotations()
      modifies this
      ensures Valid() && annotations == []
    {
      annotations := [];
    }

    method SetTitle(title: string)
      requires Valid()
      modifies this
      ensures Valid()
      ensures forall m :: Lookup(annotations, m) == if m == "Title" then Some(title) else Lookup(old(annotations), m)
    {
      SetAnnotation("Title", title);
    }

    method SetPathOf(path: string) returns (o: Outcome)
      requires Valid()
      modifies this
      ensures Valid()
      ensures o.Pass? <==> ValidPath(path)
      ensures o.Fail? ==> o.error == AnnotationError && annotations == old(annotations)
      ensures o.Pass? ==> forall m :: Lookup(annotations, m) == if m == "Path" then Some(path) else Lookup(old(annotations), m)
    {
      if |path| > 0 && path[0] != '/' {
        return Fail(AnnotationError);
      }
      SetAnnotation("Path", path);
      o := Pass;
    }

    function GetPath(): string
      reads this
    {
      Path(annotations)
    }

    function GetTitle(): string
      reads this
    {
      Title(annotations)
    }

    function Name(): string
      reads this
    {
      NameOfPath(Path(annotations))
    }

    function Type(): Result<string>
      reads this
    {
      TypeOf(annotations)
    }
  }

  lemma KeysSnoc(a: Annotations, e: (string, string))
    ensures Keys(a + [e]) == Keys(a) + [e.0]
  {
  }

  /** path() and title() read back what setPath and setTitle stored, and are
      "" on an object without them. */
  lemma StandardAnnotationsRoundTrip(a: Annotations, path: string, title: string)
    requires WellFormed(a)
    ensures ValidPath(path) ==> Path(SetPath(a, path).value) == path
    ensures Title(SetAnn(a, "Title", title)) == title
    ensures Path([]) == "" && Title([]) == "" && TypeOf([]) == Err(AnnotationError)
  {
    SetAnnProperties(a, "Title", title);
    LookupFound(SetAnn(a, "Title", title), "Title");
  }

  // ---------------------------------------------------------------------------
  // Annotations set one by one on a new object (what the readers do)

  /** The annotations of a new object of type typ with no path and no title. */
  function Fresh(typ: string): (r: Annotations)
    ensures WellFormed(r)
  {
    InitAnnotations([], typ, "", "").value
  }

  /** setAnnotation for each entry of src, in map order. */
  function Overlaid(base: Annotations, src: Annotations): Annotations
    decreases |src|
  {
    if src == [] then base else Overlaid(SetAnn(base, src[0].0, src[0].1), src[1..])
  }

  lemma {:induction false} OverlaidSnoc(base: Annotations, src: Annotations, kv: (string, string))
    ensures Overlaid(base, src + [kv]) == SetAnn(Overlaid(base, src), kv.0, kv.1)
    decreases |src|
  {
    if src == [] {
      assert [kv][1..] == [];
      assert [] + [kv] == [kv];
    } else {
      assert (src + [kv])[1..] == src[1..] + [kv];
      assert (src + [kv])[0] == src[0];
      OverlaidSnoc(SetAnn(base, src[0].0, src[0].1), src[1..], kv);
    }
  }

  /** The value of the last entry for key m, if any. */
  function LastFor(src: Annotations, m: string): Option<string>
  {
    if src == [] then None
    else if LastFor(src[1..], m).Some? then LastFor(src[1..], m)
    else if src[0].0 == m then Some(src[0].1)
    else None
  }

  /** Setting the entries of src one by one keeps the list well formed, and
      a key then has the value of its last entry in src, or its old value
      when src has none. */
  lemma {:induction false} OverlaidLookup(base: Annotations, src: Annotations)
    requires WellFormed(base)
    ensures WellFormed(Overlaid(base, src))
    ensures forall m :: Lookup(Overlaid(base, src), m) == if LastFor(src, m).Some? then LastFor(src, m) else Lookup(base, m)
    decreases |src|
  {
    if src != [] {
      var next := SetAnn(base, src[0].0, src[0].1);
      SetAnnProperties(base, src[0].0, src[0].1);
      OverlaidLookup(next, src[1..]);
    }
  }

  /** In a well-formed list the last entry for a key is its only one. */
  lemma {:induction false} LastForWellFormed(a: Annotations, m: string)
    requires WellFormed(a)
    ensures LastFor(a, m) == Lookup(a, m)
  {
    if a != [] {
      WellFormedTail(a);
      LastForWellFormed(a[1..], m);
      if a[0].0 == m {
        TailLacksHead(a);
      }
    }
  }

  /** Lookups after the entries of src were set on a new object of type typ
      with no path and no title. */
  function LookupOverFresh(src: Annotations, typ: string, m: string): Option<string>
  {
    if Lookup(src, m).Some? then Lookup(src, m)
    else if m == "Type" then Some(typ)
    else if m == "Path" || m == "Title" then Some("")
    else None
  }

  /** The entries of a well-formed src, set on a new object, win over the
      object's own Type, Path and Title. */
  lemma FreshOverlaid(typ: string, src: Annotations)
    requires WellFormed(src)
    ensures WellFormed(Overlaid(Fresh(typ), src))
    ensures forall m :: Lookup(Overlaid(Fresh(typ), src), m) == LookupOverFresh(src, typ, m)
  {
    OverlaidLookup(Fresh(typ), src);
    forall m ensures LastFor(src, m) == Lookup(src, m) {
      LastForWellFormed(src, m);
    }
  }
}
