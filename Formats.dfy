/** Choosing a reader or writer from a file name (src/Writer.cc mkWriter,
    src/Reader.cc mkReader) and the writer's common entry points
    (src/Writer.cc write and writeBody).

    The format is the text after the last '.' of the name, or the whole
    name when it has no '.', lower-cased. writeBody looks at the object's
    "Type" annotation, casts the object to the class of that name and calls
    that class's write method; a type starting with '_' is skipped, any
    other unknown type throws. Utils::toLower is not part of this model and
    is taken to lower-case the ASCII letters A-Z only. The AIDA format is
    recognised by name only: its reader and writer are not part of this
    model. */
module Formats {
  import opened Wrappers
  import opened Dbn
  import opened Bins
  import opened Points
  import opened SortedVector
  import opened AnalysisObject
  import C = Counter
  import H = Histo1D
  import S1 = Scatter1D
  import S2 = Scatter2D
  import S3 = Scatter3D
  import P1 = Scatter2DConversions
  import P2 = Scatter3DConversions
  import WF = WriterFLAT
  import WY = WriterYODA
  import opened TextRows
  import R = ReaderFLAT
  import RY = ReaderYODA
  import opened Groups
  import opened LineGrammar

  // ---------------------------------------------------------------------------
  // The format named by a file name

  function LowerChar(c: char): char
  {
    if 'A' <= c <= 'Z' then (c as int - 'A' as int + 'a' as int) as char else c
  }

  predicate IsUpper(c: char) { 'A' <= c <= 'Z' }

  /** Every letter A-Z lower-cased, every other character kept. */
  function ToLower(s: string): (r: string)
    ensures |r| == |s|
    ensures forall i :: 0 <= i < |s| ==> !IsUpper(r[i])
    ensures forall i :: 0 <= i < |s| ==> !IsUpper(s[i]) ==> r[i] == s[i]
    ensures forall i :: 0 <= i < |s| ==> IsUpper(s[i]) ==> r[i] as int == s[i] as int + 32
  {
    seq(|s|, i requires 0 <= i < |s| => LowerChar(s[i]))
  }

  /** The position of the last '.', if any (std::string::find_last_of). */
  function LastDot(s: string): (r: Option<nat>)
    ensures r.Some? ==> r.value < |s| && s[r.value] == '.'
    ensures r.Some? ==> forall j :: r.value < j < |s| ==> s[j] != '.'
    ensures r.None? ==> forall j :: 0 <= j < |s| ==> s[j] != '.'
  {
    if s == [] then None
    else if s[|s| - 1] == '.' then Some(|s| - 1)
    else LastDot(s[..|s| - 1])
  }

  /** The text after the last '.', or the whole name. */
  function Extension(name: string): string
  {
    match LastDot(name)
    case None => name
    case Some(k) => name[k + 1..]
  }

  function FormatName(name: string): string
  {
    ToLower(Extension(name))
  }

  datatype Format = YodaFormat | AidaFormat | FlatFormat

  /** mkWriter and mkReader: "yoda", "aida", "dat" or "flat", whatever the
      case of its letters, else UserError. */
  function FormatOf(name: string): (r: Result<Format>)
    ensures r.Ok? <==> FormatName(name) in ["yoda", "aida", "dat", "flat"]
    ensures r == Ok(YodaFormat) <==> FormatName(name) == "yoda"
    ensures r == Ok(AidaFormat) <==> FormatName(name) == "aida"
    ensures r == Ok(FlatFormat) <==> FormatName(name) == "dat" || FormatName(name) == "flat"
    ensures r.Err? ==> r.error == UserError
  {
    var fmt := FormatName(name);
    if fmt == "yoda" then Ok(YodaFormat)
    else if fmt == "aida" then Ok(AidaFormat)
    else if fmt == "dat" || fmt == "flat" then Ok(FlatFormat)
    else Err(UserError)
  }

  /** The extension holds no '.', and the name is what comes before its last
      '.', that dot, then the extension. */
  lemma ExtensionSplit(name: string)
    ensures forall j :: 0 <= j < |Extension(name)| ==> Extension(name)[j] != '.'
    ensures LastDot(name).None? ==> Extension(name) == name
    ensures LastDot(name).Some? ==> name == name[..LastDot(name).value] + "." + Extension(name)
  {
    if LastDot(name).Some? {
      var k := LastDot(name).value;
      assert name == name[..k] + [name[k]] + name[k + 1..];
    }
  }

  lemma {:induction false} LastDotAfter(prefix: string, ext: string)
    requires forall j :: 0 <= j < |ext| ==> ext[j] != '.'
    ensures LastDot(prefix + "." + ext) == Some(|prefix|)
    decreases |ext|
  {
    var s := prefix + "." + ext;
    if ext != [] {
      assert s[|s| - 1] == ext[|ext| - 1];
      assert s[..|s| - 1] == prefix + "." + ext[..|ext| - 1];
      LastDotAfter(prefix, ext[..|ext| - 1]);
    } else {
      assert s[|s| - 1] == '.';
    }
  }

  /** Only the text after the last '.' decides the format: "a.b.YODA" is
      read as "yoda", whatever comes before. */
  lemma FormatOfSuffix(prefix: string, ext: string)
    requires forall j :: 0 <= j < |ext| ==> ext[j] != '.'
    ensures Extension(prefix + "." + ext) == ext
    ensures FormatOf(prefix + "." + ext) == FormatOf(ext)
  {
    LastDotAfter(prefix, ext);
    var s := prefix + "." + ext;
    assert s[|prefix| + 1..] == ext;
    ExtensionSplit(ext);
  }

  lemma LowerCharDot(c: char)
    ensures LowerChar(c) == '.' <==> c == '.'
  {
  }

  lemma {:induction false} LastDotLower(s: string)
    ensures LastDot(ToLower(s)) == LastDot(s)
    decreases |s|
  {
    if s != [] {
      var t := ToLower(s);
      LowerCharDot(s[|s| - 1]);
      assert ToLower(s[..|s| - 1]) == t[..|t| - 1];
      LastDotLower(s[..|s| - 1]);
    }
  }

  lemma ToLowerTwice(s: string)
    ensures ToLower(ToLower(s)) == ToLower(s)
  {
  }

  /** Two names with the same lower-cased extension name the same format. */
  lemma FormatOfSameName(a: string, b: string)
    requires FormatName(a) == FormatName(b)
    ensures FormatOf(a) == FormatOf(b)
  {
  }

  /** The case of the name's letters never matters. */
  lemma FormatOfLower(name: string)
    ensures FormatOf(ToLower(name)) == FormatOf(name)
  {
    FormatNameLower(name);
    FormatOfSameName(ToLower(name), name);
  }

  lemma FormatNameLower(name: string)
    ensures FormatName(ToLower(name)) == FormatName(name)
  {
    ExtensionLower(name);
    ToLowerTwice(Extension(name));
  }

  /** Lower-casing keeps the last '.', so the extension of the lower-cased
      name is the lower-cased extension. */
  lemma ExtensionLower(name: string)
    ensures Extension(ToLower(name)) == ToLower(Extension(name))
  {
    LastDotLower(name);
    if LastDot(name).Some? {
      ToLowerSlice(name, LastDot(name).value + 1);
    }
  }

  lemma ToLowerSlice(s: string, k: nat)
    requires k <= |s|
    ensures ToLower(s)[k..] == ToLower(s[k..])
  {
  }

  // ---------------------------------------------------------------------------
  // writeBody's type dispatch

  /** The eight classes writeBody knows. */
  datatype Kind = CounterKind | Histo1DKind | Histo2DKind | Profile1DKind | Profile2DKind
                | Scatter1DKind | Scatter2DKind | Scatter3DKind

  function KindName(k: Kind): string
  {
    match k
    case CounterKind => "Counter"
    case Histo1DKind => "Histo1D"
    case Histo2DKind => "Histo2D"
    case Profile1DKind => "Profile1D"
    case Profile2DKind => "Profile2D"
    case Scatter1DKind => "Scatter1D"
    case Scatter2DKind => "Scatter2D"
    case Scatter3DKind => "Scatter3D"
  }

  datatype Dispatch = WriteAs(kind: Kind) | Skip

  /** What writeBody does with an object of the given type(): a missing
      "Type" is the AnnotationError type() throws; an empty type is no
      underscore type (its [0] is the terminating NUL) and throws too. */
  function DispatchOf(typ: Result<string>): (r: Result<Dispatch>)
  {
    if typ.Err? then Err(typ.error)
    else if typ.value == "Counter" then Ok(WriteAs(CounterKind))
    else if typ.value == "Histo1D" then Ok(WriteAs(Histo1DKind))
    else if typ.value == "Histo2D" then Ok(WriteAs(Histo2DKind))
    else if typ.value == "Profile1D" then Ok(WriteAs(Profile1DKind))
    else if typ.value == "Profile2D" then Ok(WriteAs(Profile2DKind))
    else if typ.value == "Scatter1D" then Ok(WriteAs(Scatter1DKind))
    else if typ.value == "Scatter2D" then Ok(WriteAs(Scatter2DKind))
    else if typ.value == "Scatter3D" then Ok(WriteAs(Scatter3DKind))
    else if typ.value != [] && typ.value[0] == '_' then Ok(Skip)
    else Err(Exception)
  }

  /** Each class name is dispatched to its own write, and only that name. */
  lemma DispatchNames(typ: string, k: Kind)
    ensures DispatchOf(Ok(KindName(k))) == Ok(WriteAs(k))
    ensures DispatchOf(Ok(typ)) == Ok(WriteAs(k)) <==> typ == KindName(k)
  {
  }

  /** Skipped exactly when the type starts with '_'; thrown for every other
      type that is not a class name; a missing type throws AnnotationError. */
  lemma DispatchOthers(typ: string)
    ensures DispatchOf(Ok(typ)) == Ok(Skip) <==> typ != [] && typ[0] == '_'
    ensures DispatchOf(Ok(typ)).Err? <==> (forall k: Kind :: typ != KindName(k)) && !(typ != [] && typ[0] == '_')
    ensures DispatchOf(Ok(typ)).Err? ==> DispatchOf(Ok(typ)).error == Exception
    ensures DispatchOf(Err(AnnotationError)) == Err(AnnotationError)
  {
    if typ != [] && typ[0] == '_' {
      forall k: Kind ensures typ != KindName(k) {
        assert KindName(k)[0] != '_';
      }
    }
    if DispatchOf(Ok(typ)).Err? {
      forall k: Kind ensures typ != KindName(k) {
        DispatchNames(typ, k);
      }
    }
    if forall k: Kind :: typ != KindName(k) {
      assert typ != KindName(CounterKind) && typ != KindName(Histo1DKind) && typ != KindName(Histo2DKind);
      assert typ != KindName(Profile1DKind) && typ != KindName(Profile2DKind);
      assert typ != KindName(Scatter1DKind) && typ != KindName(Scatter2DKind) && typ != KindName(Scatter3DKind);
    }
  }

  // ---------------------------------------------------------------------------
  // Objects

  /** An object handed to a writer: one of the eight classes, or an object
      of a class the writers do not know (only its annotations matter). */
  datatype AO =
    | CounterAO(c: C.Counter)
    | Histo1DAO(h1: H.Histo1D)
    | Histo2DAO(h2: P2.Histo2D)
    | Profile1DAO(p1: P1.Profile1D)
    | Profile2DAO(p2: P2.Profile2D)
    | Scatter1DAO(s1: S1.Scatter1D)
    | Scatter2DAO(s2: S2.Scatter2D)
    | Scatter3DAO(s3: S3.Scatter3D)
    | OtherAO(annotations: Annotations)

  /** What a writer reads of an object: its class and the state of its
      fields when the write starts. */
  datatype View =
    | CounterView(annotations: Annotations, dbn0: Dbn0D)
    | Histo1DView(annotations: Annotations, bins: seq<HistoBin1D>, total: Dbn1D, underflow: Dbn1D, overflow: Dbn1D)
    | Histo2DView(histo2: P2.Histo2D)
    | Profile1DView(profile1: P1.Profile1D)
    | Profile2DView(profile2: P2.Profile2D)
    | Scatter1DView(annotations: Annotations, points1: seq<Point1D>)
    | Scatter2DView(annotations: Annotations, points2: seq<Point2D>)
    | Scatter3DView(annotations: Annotations, points3: seq<Point3D>)
    | OtherView(annotations: Annotations)

  function Footprint(ao: AO): set<object>
  {
    match ao
    case CounterAO(c) => {c}
    case Histo1DAO(h) => {h, h.axis}
    case Scatter1DAO(s) => {s}
    case Scatter2DAO(s) => {s}
    case Scatter3DAO(s) => {s}
    case _ => {}
  }

  function ViewOf(ao: AO): View
    reads Footprint(ao)
  {
    match ao
    case CounterAO(c) => CounterView(c.annotations, c.dbn)
    case Histo1DAO(h) => Histo1DView(h.annotations, h.axis.bins, h.axis.dbn, h.axis.underflow, h.axis.overflow)
    case Histo2DAO(h) => Histo2DView(h)
    case Profile1DAO(p) => Profile1DView(p)
    case Profile2DAO(p) => Profile2DView(p)
    case Scatter1DAO(s) => Scatter1DView(s.annotations, s.points)
    case Scatter2DAO(s) => Scatter2DView(s.annotations, s.points)
    case Scatter3DAO(s) => Scatter3DView(s.annotations, s.points)
    case OtherAO(a) => OtherView(a)
  }

  /** The class invariants the writers rely on. */
  ghost predicate Sound(ao: AO)
    reads Footprint(ao)
  {
    match ao
    case Histo1DAO(h) => h.Valid()
    case Histo2DAO(h) => WellFormed(h.annotations)
    case Profile1DAO(p) => WellFormed(p.annotations)
    case Profile2DAO(p) => WellFormed(p.annotations)
    case _ => true
  }

  predicate SoundView(v: View)
  {
    match v
    case Histo1DView(a, bins, _, _, _) => WellFormed(a) && ValidBins(bins)
    case Histo2DView(h) => WellFormed(h.annotations)
    case Profile1DView(p) => WellFormed(p.annotations)
    case Profile2DView(p) => WellFormed(p.annotations)
    case _ => true
  }

  lemma SoundViewOf(ao: AO)
    requires Sound(ao)
    ensures SoundView(ViewOf(ao))
  {
  }

  function AnnotationsOf(v: View): Annotations
  {
    match v
    case Histo2DView(h) => h.annotations
    case Profile1DView(p) => p.annotations
    case Profile2DView(p) => p.annotations
    case _ => v.annotations
  }

  function ClassOf(v: View): Option<Kind>
  {
    match v
    case CounterView(_, _) => Some(CounterKind)
    case Histo1DView(_, _, _, _, _) => Some(Histo1DKind)
    case Histo2DView(_) => Some(Histo2DKind)
    case Profile1DView(_) => Some(Profile1DKind)
    case Profile2DView(_) => Some(Profile2DKind)
    case Scatter1DView(_, _) => Some(Scatter1DKind)
    case Scatter2DView(_, _) => Some(Scatter2DKind)
    case Scatter3DView(_, _) => Some(Scatter3DKind)
    case OtherView(_) => None
  }

  /** writeBody's decision for an object: the dispatch on its type(), where
      the dynamic_cast to the named class throws std::bad_cast when the
      object is not of that class. */
  function Plan(v: View): (r: Result<Dispatch>)
    ensures r.Ok? && r.value.WriteAs? ==>
      ClassOf(v) == Some(r.value.kind) && TypeOf(AnnotationsOf(v)) == Ok(KindName(r.value.kind))
    ensures var d := DispatchOf(TypeOf(AnnotationsOf(v)));
      (r == Ok(Skip) <==> d == Ok(Skip))
      && (r.Err? <==> (d.Err? || (d.value.WriteAs? && ClassOf(v) != Some(d.value.kind))))
      && (d.Err? ==> r == d)
      && (r == Err(BadCast) <==> d.Ok? && d.value.WriteAs? && ClassOf(v) != Some(d.value.kind))
  {
    var d := DispatchOf(TypeOf(AnnotationsOf(v)));
    if d.Ok? && d.value.WriteAs? then
      DispatchNames(TypeOf(AnnotationsOf(v)).value, d.value.kind);
      if ClassOf(v) == Some(d.value.kind) then d else Err(BadCast)
    else d
  }

  // ---------------------------------------------------------------------------
  // Writing an object

  /** The values the per-class writes need that come from code outside this
      model: the bin measures mkScatter uses, the square root behind a
      counter's error, a Histo1D's and a Histo2D's mean and a Histo2D's
      volume. */
  datatype FlatMeasures = FlatMeasures(sqrt: real -> real, h1: P1.Histo1DMeasures, p1: P1.Profile1DMeasures,
                                       h2: P2.Histo2DMeasures, p2: P2.Profile2DMeasures)

  datatype YodaMeasures = YodaMeasures(mean1: Result<real>, mean2: Result<(real, real)>, volume: real)

  /** What writeBody of the FLAT writer does to the lines written so far:
      nothing when the plan fails or skips, else the block of the object's
      class. */
  predicate FlatWritten(v: View, ms: FlatMeasures, fmt: Formatter, o: Outcome, before: seq<string>, after: seq<string>)
    requires SoundView(v)
  {
    match Plan(v)
    case Err(e) => o == Fail(e) && after == before
    case Ok(Skip) => o == Outcome.Pass && after == before
    case Ok(WriteAs(_)) => FlatBlockWritten(v, ms, fmt, o, before, after)
  }

  /** The block of the object's class, written when the plan says to. */
  predicate FlatBlockWritten(v: View, ms: FlatMeasures, fmt: Formatter, o: Outcome, before: seq<string>, after: seq<string>)
    requires SoundView(v)
  {
    match v
    case CounterView(a, d) =>
      o == Outcome.Pass && after == before + WF.CounterBlock(a, d.sumW, ms.sqrt(d.sumW2), fmt)
    case Histo1DView(a, bins, _, _, _) =>
      o == Outcome.Pass
      && after == before + WF.Scatter2DBlock(WF.Converted("Scatter2D", a), InsertEach([], P1.HistoPoints(bins, false, ms.h1), Less2), fmt)
    case Profile1DView(p) =>
      o == Outcome.Pass
      && after == before + WF.Scatter2DBlock(WF.Converted("Scatter2D", p.annotations),
                                             InsertEach([], P1.ProfilePoints(p.bins, false, false, ms.p1), Less2), fmt)
    case Histo2DView(h) =>
      var pts := MapResults(h.bins, b => P2.Histo2DBinPoint(b, false, ms.h2));
      if pts.Ok? then
        o == Outcome.Pass
        && after == before + WF.Scatter3DBlock(WF.Converted("Scatter3D", h.annotations), InsertEach([], pts.value, Less3), fmt)
      else o.Fail? && after == before
    case Profile2DView(p) =>
      var pts := MapResults(p.bins, b => P2.Profile2DBinPoint(b, false, false, ms.p2));
      if pts.Ok? then
        o == Outcome.Pass
        && after == before + WF.Scatter3DBlock(WF.Converted("Scatter3D", p.annotations), InsertEach([], pts.value, Less3), fmt)
      else o.Fail? && after == before
    case Scatter1DView(a, pts) => o == Outcome.Pass && after == before + WF.Scatter1DBlock(a, pts, fmt)
    case Scatter2DView(a, pts) => o == Outcome.Pass && after == before + WF.Scatter2DBlock(a, pts, fmt)
    case Scatter3DView(a, pts) => o == Outcome.Pass && after == before + WF.Scatter3DBlock(a, pts, fmt)
    case OtherView(_) => false
  }

  /** The outcome of writeBody of the .yoda writer: the plan's error, or
      the mean's error, other than LowStatsError, for a Histo1D or Histo2D. */
  function YodaOutcome(v: View, ms: YodaMeasures): Outcome
  {
    match Plan(v)
    case Err(e) => Fail(e)
    case Ok(Skip) => Outcome.Pass
    case Ok(WriteAs(_)) => MeanOutcome(v, ms)
  }

  /** The outcome when the plan says to write: the mean's error, if any. */
  function MeanOutcome(v: View, ms: YodaMeasures): Outcome
  {
    if v.Histo1DView? && ms.mean1.Err? && ms.mean1.error != LowStatsError then Fail(ms.mean1.error)
    else if v.Histo2DView? && ms.mean2.Err? && ms.mean2.error != LowStatsError then Fail(ms.mean2.error)
    else Outcome.Pass
  }

  /** The lines writeBody of the .yoda writer adds: none when the plan fails
      or skips, only the opening lines when a Histo1D's or Histo2D's mean
      fails, else the block of the object's class. */
  function YodaLines(v: View, ms: YodaMeasures, fmt: Formatter): seq<string>
  {
    match Plan(v)
    case Err(_) => []
    case Ok(Skip) => []
    case Ok(WriteAs(_)) => YodaBlock(v, ms, fmt)
  }

  /** The lines written when the plan says to write. */
  function YodaBlock(v: View, ms: YodaMeasures, fmt: Formatter): seq<string>
  {
    match v
    case CounterView(a, d) => WY.CounterBlock(a, d, fmt)
    case Histo1DView(a, bins, total, underflow, overflow) =>
      if ms.mean1.Ok? || ms.mean1.error == LowStatsError then
        WY.Histo1DBlock(a, bins, total, underflow, overflow, ms.mean1, total.sumW, fmt)
      else WY.Opening("HISTO1D", a)
    case Histo2DView(h) =>
      if ms.mean2.Ok? || ms.mean2.error == LowStatsError then WY.Histo2DBlock(h, ms.mean2, ms.volume, fmt)
      else WY.Opening("HISTO2D", h.annotations)
    case Profile1DView(p) => WY.Profile1DBlock(p, fmt)
    case Profile2DView(p) => WY.Profile2DBlock(p, fmt)
    case Scatter1DView(a, pts) => WY.Scatter1DBlock(a, pts, fmt)
    case Scatter2DView(a, pts) => WY.Scatter2DBlock(a, pts, fmt)
    case Scatter3DView(a, pts) => WY.Scatter3DBlock(a, pts, fmt)
    case OtherView(_) => []
  }

  predicate YodaWritten(v: View, ms: YodaMeasures, fmt: Formatter, o: Outcome, before: seq<string>, after: seq<string>)
  {
    o == YodaOutcome(v, ms) && after == before + YodaLines(v, ms, fmt)
  }

  /** Writer::writeBody(stream, ao) of the FLAT writer. */
  method WriteBodyFLAT(w: WF.WriterFLAT, ao: AO, ms: FlatMeasures, fmt: Formatter) returns (o: Outcome)
    requires Sound(ao)
    modifies w
    ensures SoundView(old(ViewOf(ao))) && FlatWritten(old(ViewOf(ao)), ms, fmt, o, old(w.out), w.out)
  {
    SoundViewOf(ao);
    var plan := Plan(ViewOf(ao));
    if plan.Err? {
      return Fail(plan.error);
    }
    if plan.value.Skip? {
      return Outcome.Pass;
    }
    if ao.Histo1DAO? || ao.Profile1DAO? || ao.Histo2DAO? || ao.Profile2DAO? {
      o := WriteConvertedFLAT(w, ao, ms, fmt);
    } else {
      o := WriteDirectFLAT(w, ao, ms, fmt);
    }
  }

  /** The classes the FLAT writer writes as they are. */
  method WriteDirectFLAT(w: WF.WriterFLAT, ao: AO, ms: FlatMeasures, fmt: Formatter) returns (o: Outcome)
    requires Plan(ViewOf(ao)).Ok? && Plan(ViewOf(ao)).value.WriteAs?
    requires ao.CounterAO? || ao.Scatter1DAO? || ao.Scatter2DAO? || ao.Scatter3DAO?
    modifies w
    ensures FlatWritten(old(ViewOf(ao)), ms, fmt, o, old(w.out), w.out)
  {
    o := Outcome.Pass;
    match ao {
      case CounterAO(c) =>
        w.WriteCounter(c, ms.sqrt, fmt);
      case Scatter1DAO(s) =>
        w.WriteScatter1D(s, fmt);
      case Scatter2DAO(s) =>
        w.WriteScatter2D(s, fmt);
      case Scatter3DAO(s) =>
        w.WriteScatter3D(s, fmt);
    }
  }

  /** The classes the FLAT writer writes as the scatter mkScatter makes. */
  method WriteConvertedFLAT(w: WF.WriterFLAT, ao: AO, ms: FlatMeasures, fmt: Formatter) returns (o: Outcome)
    requires Sound(ao) && Plan(ViewOf(ao)).Ok? && Plan(ViewOf(ao)).value.WriteAs?
    requires ao.Histo1DAO? || ao.Profile1DAO? || ao.Histo2DAO? || ao.Profile2DAO?
    modifies w
    ensures SoundView(old(ViewOf(ao))) && FlatWritten(old(ViewOf(ao)), ms, fmt, o, old(w.out), w.out)
  {
    SoundViewOf(ao);
    match ao
    case Histo1DAO(h) =>
      o := w.WriteHisto1D(h, ms.h1, fmt);
    case Profile1DAO(p) =>
      o := w.WriteProfile1D(p, ms.p1, fmt);
    case Histo2DAO(h) =>
      o := w.WriteHisto2D(h, ms.h2, fmt);
    case Profile2DAO(p) =>
      o := w.WriteProfile2D(p, ms.p2, fmt);
  }

  /** Writer::writeBody(stream, ao) of the .yoda writer. */
  method WriteBodyYODA(w: WY.WriterYODA, ao: AO, ms: YodaMeasures, fmt: Formatter) returns (o: Outcome)
    requires Sound(ao)
    modifies w
    ensures YodaWritten(old(ViewOf(ao)), ms, fmt, o, old(w.out), w.out)
  {
    var plan := Plan(ViewOf(ao));
    if plan.Err? {
      return Fail(plan.error);
    }
    if plan.value.Skip? {
      return Outcome.Pass;
    }
    if ao.Histo1DAO? || ao.Histo2DAO? {
      o := WriteWithMeanYODA(w, ao, ms, fmt);
    } else {
      o := WriteDirectYODA(w, ao, ms, fmt);
    }
  }

  /** The classes whose .yoda write cannot fail. */
  method WriteDirectYODA(w: WY.WriterYODA, ao: AO, ms: YodaMeasures, fmt: Formatter) returns (o: Outcome)
    requires Plan(ViewOf(ao)).Ok? && Plan(ViewOf(ao)).value.WriteAs?
    requires !ao.Histo1DAO? && !ao.Histo2DAO?
    modifies w
    ensures YodaWritten(old(ViewOf(ao)), ms, fmt, o, old(w.out), w.out)
  {
    if ao.Profile1DAO? || ao.Profile2DAO? {
      o := WriteProfileYODA(w, ao, ms, fmt);
    } else {
      o := WriteUnbinnedYODA(w, ao, ms, fmt);
    }
  }

  method WriteProfileYODA(w: WY.WriterYODA, ao: AO, ms: YodaMeasures, fmt: Formatter) returns (o: Outcome)
    requires Plan(ViewOf(ao)).Ok? && Plan(ViewOf(ao)).value.WriteAs?
    requires ao.Profile1DAO? || ao.Profile2DAO?
    modifies w
    ensures YodaWritten(old(ViewOf(ao)), ms, fmt, o, old(w.out), w.out)
  {
    o := Outcome.Pass;
    match ao
    case Profile1DAO(p) =>
      w.WriteProfile1D(p, fmt);
    case Profile2DAO(p) =>
      w.WriteProfile2D(p, fmt);
  }

  method WriteUnbinnedYODA(w: WY.WriterYODA, ao: AO, ms: YodaMeasures, fmt: Formatter) returns (o: Outcome)
    requires Plan(ViewOf(ao)).Ok? && Plan(ViewOf(ao)).value.WriteAs?
    requires ao.CounterAO? || ao.Scatter1DAO? || ao.Scatter2DAO? || ao.Scatter3DAO?
    modifies w
    ensures YodaWritten(old(ViewOf(ao)), ms, fmt, o, old(w.out), w.out)
  {
    if ao.CounterAO? || ao.Scatter1DAO? {
      o := WriteCounterOrScatter1DYODA(w, ao, ms, fmt);
    } else {
      o := WriteScatter2DOr3DYODA(w, ao, ms, fmt);
    }
  }

  method WriteCounterOrScatter1DYODA(w: WY.WriterYODA, ao: AO, ms: YodaMeasures, fmt: Formatter) returns (o: Outcome)
    requires Plan(ViewOf(ao)).Ok? && Plan(ViewOf(ao)).value.WriteAs?
    requires ao.CounterAO? || ao.Scatter1DAO?
    modifies w
    ensures YodaWritten(old(ViewOf(ao)), ms, fmt, o, old(w.out), w.out)
  {
    o := Outcome.Pass;
    match ao
    case CounterAO(c) =>
      w.WriteCounter(c, fmt);
    case Scatter1DAO(s) =>
      w.WriteScatter1D(s, fmt);
  }

  method WriteScatter2DOr3DYODA(w: WY.WriterYODA, ao: AO, ms: YodaMeasures, fmt: Formatter) returns (o: Outcome)
    requires Plan(ViewOf(ao)).Ok? && Plan(ViewOf(ao)).value.WriteAs?
    requires ao.Scatter2DAO? || ao.Scatter3DAO?
    modifies w
    ensures YodaWritten(old(ViewOf(ao)), ms, fmt, o, old(w.out), w.out)
  {
    o := Outcome.Pass;
    if ao.Scatter2DAO? {
      w.WriteScatter2D(ao.s2, fmt);
    } else {
      w.WriteScatter3D(ao.s3, fmt);
    }
  }

  /** Histo1D and Histo2D, whose summary lines need the mean. */
  method WriteWithMeanYODA(w: WY.WriterYODA, ao: AO, ms: YodaMeasures, fmt: Formatter) returns (o: Outcome)
    requires Sound(ao) && Plan(ViewOf(ao)).Ok? && Plan(ViewOf(ao)).value.WriteAs?
    requires ao.Histo1DAO? || ao.Histo2DAO?
    modifies w
    ensures YodaWritten(old(ViewOf(ao)), ms, fmt, o, old(w.out), w.out)
  {
    ghost var before := w.out;
    match ao {
      case Histo1DAO(h) =>
        o := w.WriteHisto1D(h, ms.mean1, fmt);
        Histo1DWritten(ViewOf(ao), ms, fmt, o, before, w.out);
      case Histo2DAO(h) =>
        o := w.WriteHisto2D(h, ms.mean2, ms.volume, fmt);
        Histo2DWritten(ViewOf(ao), ms, fmt, o, before, w.out);
    }
  }

  /** What WriterYODA.WriteHisto1D promises is what writeBody promises. */
  lemma Histo1DWritten(v: View, ms: YodaMeasures, fmt: Formatter, o: Outcome, before: seq<string>, after: seq<string>)
    requires v.Histo1DView? && Plan(v).Ok? && Plan(v).value.WriteAs?
    requires o.Pass? <==> ms.mean1.Ok? || ms.mean1.error == LowStatsError
    requires o.Fail? ==> o.error == ms.mean1.error && after == before + WY.Opening("HISTO1D", v.annotations)
    requires o.Pass? ==> after == before + WY.Histo1DBlock(v.annotations, v.bins, v.total, v.underflow, v.overflow,
                                                         ms.mean1, v.total.sumW, fmt)
    ensures YodaWritten(v, ms, fmt, o, before, after)
  {
  }

  /** What WriterYODA.WriteHisto2D promises is what writeBody promises. */
  lemma Histo2DWritten(v: View, ms: YodaMeasures, fmt: Formatter, o: Outcome, before: seq<string>, after: seq<string>)
    requires v.Histo2DView? && Plan(v).Ok? && Plan(v).value.WriteAs?
    requires o.Pass? <==> ms.mean2.Ok? || ms.mean2.error == LowStatsError
    requires o.Fail? ==> o.error == ms.mean2.error && after == before + WY.Opening("HISTO2D", v.histo2.annotations)
    requires o.Pass? ==> after == before + WY.Histo2DBlock(v.histo2, ms.mean2, ms.volume, fmt)
    ensures YodaWritten(v, ms, fmt, o, before, after)
  {
  }

  /** Writer::writeBody(stream, const AnalysisObject*): a null pointer is a
      WriteError and writes nothing. */
  method WriteBodyOfFLAT(w: WF.WriterFLAT, ao: Option<AO>, ms: FlatMeasures, fmt: Formatter) returns (o: Outcome)
    requires ao.Some? ==> Sound(ao.value)
    modifies w
    ensures ao.None? ==> o == Fail(WriteError) && w.out == old(w.out)
    ensures ao.Some? ==> SoundView(old(ViewOf(ao.value))) && FlatWritten(old(ViewOf(ao.value)), ms, fmt, o, old(w.out), w.out)
  {
    if ao.None? {
      return Fail(WriteError);
    }
    o := WriteBodyFLAT(w, ao.value, ms, fmt);
  }

  method WriteBodyOfYODA(w: WY.WriterYODA, ao: Option<AO>, ms: YodaMeasures, fmt: Formatter) returns (o: Outcome)
    requires ao.Some? ==> Sound(ao.value)
    modifies w
    ensures ao.None? ==> o == Fail(WriteError) && w.out == old(w.out)
    ensures ao.Some? ==> YodaWritten(old(ViewOf(ao.value)), ms, fmt, o, old(w.out), w.out)
  {
    if ao.None? {
      return Fail(WriteError);
    }
    o := WriteBodyYODA(w, ao.value, ms, fmt);
  }

  /** Writer::write(stream, ao): header, body, footer. */
  method WriteFLAT(w: WF.WriterFLAT, ao: AO, ms: FlatMeasures, fmt: Formatter) returns (o: Outcome)
    requires Sound(ao)
    modifies w
    ensures SoundView(old(ViewOf(ao))) && FlatWritten(old(ViewOf(ao)), ms, fmt, o, old(w.out), w.out)
  {
    w.WriteHeader();
    o := WriteBodyFLAT(w, ao, ms, fmt);
    w.WriteFooter();
  }

  method WriteYODA(w: WY.WriterYODA, ao: AO, ms: YodaMeasures, fmt: Formatter) returns (o: Outcome)
    requires Sound(ao)
    modifies w
    ensures YodaWritten(old(ViewOf(ao)), ms, fmt, o, old(w.out), w.out)
  {
    w.WriteHeader();
    o := WriteBodyYODA(w, ao, ms, fmt);
    w.WriteFooter();
  }

  // ---------------------------------------------------------------------------
  // What the written lines are worth

  /** A failed write leaves the FLAT stream as it was, whatever failed. */
  lemma FlatFailWritesNothing(v: View, ms: FlatMeasures, fmt: Formatter, o: Outcome, before: seq<string>, after: seq<string>)
    requires SoundView(v) && FlatWritten(v, ms, fmt, o, before, after) && o.Fail?
    ensures after == before
    ensures Plan(v).Err? ==> o.error == Plan(v).error
  {
  }

  /** A Scatter2D written through writeBody to an empty FLAT stream is read
      back by a fresh FLAT reader as one Scatter2D of its points as the
      reader rebuilds them. */
  lemma FlatScatter2DReadBack(v: View, ms: FlatMeasures, fmt: Formatter, lex: Lexer, ends: set<int>, o: Outcome, out: seq<string>)
    requires v.Scatter2DView? && TypeOf(v.annotations) == Ok("Scatter2D") && v.points2 != []
    requires Readable(fmt, lex) && NumberLexer(lex) && WF.FlatNames(v.annotations)
    requires FlatWritten(v, ms, fmt, o, [], out)
    ensures o.Pass?
    ensures var r := R.Run(R.Start(ends, R.Cleared()), out, lex);
      r.2.Pass? && |r.1| == 1 && r.1[0].FlatScatter2D? && r.1[0].points2 == SortAll(WF.Reread2DAll(v.points2), Less2)
  {
    FlatScatter2DWritten(v, ms, fmt, o, out);
    WF.Scatter2DReadBack(v.annotations, v.points2, fmt, lex, ends);
  }

  /** writeBody of a Scatter2D typed "Scatter2D" writes its block. */
  lemma FlatScatter2DWritten(v: View, ms: FlatMeasures, fmt: Formatter, o: Outcome, out: seq<string>)
    requires v.Scatter2DView? && TypeOf(v.annotations) == Ok("Scatter2D") && SoundView(v)
    requires FlatWritten(v, ms, fmt, o, [], out)
    ensures o.Pass? && out == WF.Scatter2DBlock(v.annotations, v.points2, fmt)
  {
    DispatchNames("Scatter2D", Scatter2DKind);
    assert Plan(v) == Ok(WriteAs(Scatter2DKind));
    assert [] + WF.Scatter2DBlock(v.annotations, v.points2, fmt) == WF.Scatter2DBlock(v.annotations, v.points2, fmt);
  }

  lemma HistoLinesUntagged(v: View, ms: YodaMeasures, fmt: Formatter, lex: Lexer)
    requires Readable(fmt, lex) && NumberLexer(lex) && WY.PlainNames(AnnotationsOf(v))
    requires v.Histo1DView? || v.Histo2DView?
    ensures WY.AllUntagged(YodaLines(v, ms, fmt))
  {
    var a := AnnotationsOf(v);
    if Plan(v).Ok? && Plan(v).value.WriteAs? {
      match v
      case Histo1DView(_, bins, total, underflow, overflow) =>
        WY.Histo1DBlockUntagged(a, bins, total, underflow, overflow, ms.mean1, total.sumW, fmt, lex);
        WY.OpeningUntagged("HISTO1D", a);
      case Histo2DView(h) =>
        WY.Histo2DBlockUntagged(h, ms.mean2, ms.volume, fmt, lex);
        WY.OpeningUntagged("HISTO2D", a);
    }
  }

  lemma OtherLinesUntagged(v: View, ms: YodaMeasures, fmt: Formatter, lex: Lexer)
    requires Readable(fmt, lex) && NumberLexer(lex) && WY.PlainNames(AnnotationsOf(v))
    requires !v.Histo1DView? && !v.Histo2DView?
    ensures WY.AllUntagged(YodaLines(v, ms, fmt))
  {
    var a := AnnotationsOf(v);
    if Plan(v).Ok? && Plan(v).value.WriteAs? {
      match v
      case CounterView(_, d) => WY.CounterBlockUntagged(a, d, fmt, lex);
      case Profile1DView(p) => WY.Profile1DBlockUntagged(p, fmt, lex);
      case Profile2DView(p) => WY.Profile2DBlockUntagged(p, fmt, lex);
      case Scatter1DView(_, pts) => WY.ScatterBlocksUntagged(a, pts, [], [], fmt, lex);
      case Scatter2DView(_, pts) => WY.ScatterBlocksUntagged(a, [], pts, [], fmt, lex);
      case Scatter3DView(_, pts) => WY.ScatterBlocksUntagged(a, [], [], pts, fmt, lex);
    }
  }

  /** Everything the .yoda writer writes, whether the write fails or not,
      carries none of the .yoda reader's BEGIN and END tags: the written
      lines start "BEGIN YODA_" and "END YODA_", without the reader's "# ". */
  lemma YodaWrittenUntagged(v: View, ms: YodaMeasures, fmt: Formatter, lex: Lexer, o: Outcome, before: seq<string>, after: seq<string>)
    requires Readable(fmt, lex) && NumberLexer(lex) && WY.PlainNames(AnnotationsOf(v))
    requires WY.AllUntagged(before) && YodaWritten(v, ms, fmt, o, before, after)
    ensures WY.AllUntagged(after)
  {
    if v.Histo1DView? || v.Histo2DView? {
      HistoLinesUntagged(v, ms, fmt, lex);
    } else {
      OtherLinesUntagged(v, ms, fmt, lex);
    }
    WY.UntaggedJoin(before, YodaLines(v, ms, fmt));
  }

  /** So a .yoda file written object after object reads as nothing. */
  lemma YodaWriteUnread(v: View, ms: YodaMeasures, fmt: Formatter, lex: Lexer, o: Outcome, out: seq<string>,
                        ends: set<int>, records: RY.Records)
    requires Readable(fmt, lex) && NumberLexer(lex) && WY.PlainNames(AnnotationsOf(v))
    requires YodaWritten(v, ms, fmt, o, [], out)
    ensures RY.Run(RY.Start(ends, records), out, lex) == (RY.Start(ends, records), [], Outcome.Pass)
  {
    YodaWrittenUntagged(v, ms, fmt, lex, o, [], out);
    WY.WrittenLinesUnread(out, ends, records, lex);
  }
}
