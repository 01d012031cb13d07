/** The writer of the flat text format (src/WriterFLAT.cc).

    Every object goes out as a "# BEGIN HISTOGRAM <path>" block of rows of
    numbers, except a counter, which gets a "# BEGIN COUNTER <path>" block
    with one "value error" row. Histograms and profiles are written as the
    scatter mkScatter makes of them, after "Type" was set on that scatter;
    the annotations the writer lists leave out empty names and "Type", so
    that setting never shows. Header and footer only flush the stream.

    The bin measures mkScatter needs come from headers that are not part of
    this model and are parameters, as is the square root of the counter's
    error. */
module WriterFLAT {
  import opened Wrappers
  import opened Points
  import opened SortedVector
  import opened AnalysisObject
  import opened LineGrammar
  import opened Groups
  import opened TextRows
  import C = Counter
  import H = Histo1D
  import S1 = Scatter1D
  import S2 = Scatter2D
  import S3 = Scatter3D
  import P1 = Scatter2DConversions
  import P2 = Scatter3DConversions
  import R = ReaderFLAT
  import Y = WriterYODA

  // ---------------------------------------------------------------------------
  // Rows

  /** A Scatter1D row: x and its two errors, as in the .yoda format. */
  function Point1DRow(p: Point1D, fmt: Formatter): string
  {
    Y.Point1DRow(p, fmt)
  }

  /** A Scatter2D row: the x interval the point covers, then y and its two
      errors. */
  function Point2DRow(p: Point2D, fmt: Formatter): string
  {
    Row(Texts([XMin2(p), XMax2(p), p.y, p.eyMinus, p.eyPlus], fmt))
  }

  /** A Scatter3D row: the x and y intervals, then z and its two errors. */
  function Point3DRow(p: Point3D, fmt: Formatter): string
  {
    Row(Texts([XMin3(p), XMax3(p), YMin3(p), YMax3(p), p.z, p.ezMinus, p.ezPlus], fmt))
  }

  function CounterRow(value: real, error: real, fmt: Formatter): string
  {
    Row(Texts([value, error], fmt))
  }

  const CounterHead := Y.Comment("value", "\t error")
  const Scatter1DHead := Y.Comment("value", "\t errminus\t errplus")
  const Scatter2DHead := Y.Comment("xlow", "\t xhigh\t val\t errminus\t errplus")
  const Scatter3DHead := Y.Comment("xlow", "\t xhigh\t ylow\t yhigh\t val\t errminus\t errplus")

  // ---------------------------------------------------------------------------
  // Blocks

  /** The BEGIN line and the annotations, without "Type". */
  function Opening(kind: string, a: Annotations): seq<string>
  {
    ["# BEGIN " + kind + " " + Path(a)] + AnnotationLines(a, true)
  }

  function Closing(kind: string): seq<string>
  {
    ["# END " + kind, ""]
  }

  function CounterBlock(a: Annotations, value: real, error: real, fmt: Formatter): seq<string>
  {
    Opening("COUNTER", a) + [CounterHead, CounterRow(value, error, fmt)] + Closing("COUNTER")
  }

  function Scatter1DBlock(a: Annotations, pts: seq<Point1D>, fmt: Formatter): seq<string>
  {
    Opening("HISTOGRAM", a) + [Scatter1DHead] + Rows(pts, fmt, Point1DRow) + Closing("HISTOGRAM")
  }

  function Scatter2DBlock(a: Annotations, pts: seq<Point2D>, fmt: Formatter): seq<string>
  {
    Opening("HISTOGRAM", a) + [Scatter2DHead] + Rows(pts, fmt, Point2DRow) + Closing("HISTOGRAM")
  }

  function Scatter3DBlock(a: Annotations, pts: seq<Point3D>, fmt: Formatter): seq<string>
  {
    Opening("HISTOGRAM", a) + [Scatter3DHead] + Rows(pts, fmt, Point3DRow) + Closing("HISTOGRAM")
  }

  /** The annotations of the scatter mkScatter makes of an object with
      annotations src: a new scatter of the given type with src's entries
      set on it. */
  function Converted(typ: string, src: Annotations): Annotations
  {
    Overlaid(Fresh(typ), src)
  }

  // ---------------------------------------------------------------------------
  // The writer

  class WriterFLAT {
    var out: seq<string>

    constructor ()
      ensures out == []
    {
      out := [];
    }

    /** writeHeader and writeFooter only flush the stream: no line is
        written and the writer's state stays as it is. */
    method WriteHeader()
    {
    }

    method WriteFooter()
    {
    }

    /** _writeAnnotations: name=value for every entry whose name is neither
        empty nor "Type", in map order. */
    method WriteAnnotations(a: Annotations)
      modifies this
      ensures out == old(out) + AnnotationLines(a, true)
    {
      for i := 0 to |a|
        invariant out == old(out) + AnnotationLines(a[..i], true)
      {
        AnnotationLinesSnoc(a, i, true);
        if a[i].0 == "" {
          continue;
        }
        if a[i].0 == "Type" {
          continue;
        }
        out := out + [AnnotationLine(a[i])];
      }
      assert a[..|a|] == a;
    }

    /** The loop over the points: one row each, in order. */
    method WriteRows<T>(s: seq<T>, fmt: Formatter, row: (T, Formatter) -> string)
      modifies this
      ensures out == old(out) + Rows(s, fmt, row)
    {
      for i := 0 to |s|
        invariant out == old(out) + Rows(s[..i], fmt, row)
      {
        RowsSnoc(s, i, fmt, row);
        out := out + [row(s[i], fmt)];
      }
      assert s[..|s|] == s;
    }

    method WriteOpening(kind: string, a: Annotations)
      modifies this
      ensures out == old(out) + Opening(kind, a)
    {
      out := out + ["# BEGIN " + kind + " " + Path(a)];
      WriteAnnotations(a);
    }

    method WriteClosing(kind: string)
      modifies this
      ensures out == old(out) + Closing(kind)
    {
      out := out + ["# END " + kind, ""];
    }

    /** writeCounter: val() and err() in one row. */
    method WriteCounter(c: C.Counter, sqrt: real -> real, fmt: Formatter)
      modifies this
      ensures out == old(out) + CounterBlock(c.annotations, c.dbn.sumW, sqrt(c.dbn.sumW2), fmt)
    {
      WriteOpening("COUNTER", c.annotations);
      out := out + [CounterHead, CounterRow(c.Val(), c.ErrVal(sqrt), fmt)];
      WriteClosing("COUNTER");
    }

    method WriteScatter1D(s: S1.Scatter1D, fmt: Formatter)
      modifies this
      ensures out == old(out) + Scatter1DBlock(s.annotations, s.points, fmt)
    {
      WriteOpening("HISTOGRAM", s.annotations);
      out := out + [Scatter1DHead];
      WriteRows(s.points, fmt, Point1DRow);
      WriteClosing("HISTOGRAM");
    }

    method WriteScatter2D(s: S2.Scatter2D, fmt: Formatter)
      modifies this
      ensures out == old(out) + Scatter2DBlock(s.annotations, s.points, fmt)
    {
      WriteOpening("HISTOGRAM", s.annotations);
      out := out + [Scatter2DHead];
      WriteRows(s.points, fmt, Point2DRow);
      WriteClosing("HISTOGRAM");
    }

    method WriteScatter3D(s: S3.Scatter3D, fmt: Formatter)
      modifies this
      ensures out == old(out) + Scatter3DBlock(s.annotations, s.points, fmt)
    {
      WriteOpening("HISTOGRAM", s.annotations);
      out := out + [Scatter3DHead];
      WriteRows(s.points, fmt, Point3DRow);
      WriteClosing("HISTOGRAM");
    }

    /** writeHisto1D: the Scatter2D of mkScatter(h), with "Type" set to
        "Histo1D", which the annotation lines do not show. mkScatter throws
        when h has no "Type", before anything is written. */
    method WriteHisto1D(h: H.Histo1D, m: P1.Histo1DMeasures, fmt: Formatter) returns (o: Outcome)
      requires h.Valid()
      modifies this
      ensures o.Pass? <==> TypeOf(h.annotations).Ok?
      ensures o.Fail? ==> o.error == AnnotationError && out == old(out)
      ensures o.Pass? ==>
        out == old(out) + Scatter2DBlock(Converted("Scatter2D", h.annotations), InsertEach([], P1.HistoPoints(h.axis.bins, false, m), Less2), fmt)
    {
      var r := P1.MkScatterOfHisto1D(h, false, m);
      if r.Err? {
        return Fail(r.error);
      }
      var tmp := r.value;
      tmp.SetAnnotation("Type", "Histo1D");
      ConvertedRetyped(h.annotations, "Scatter2D", "Histo1D", tmp.annotations);
      Retyped2DBlock(Converted("Scatter2D", h.annotations), "Histo1D", tmp.points, fmt);
      WriteScatter2D(tmp, fmt);
      o := Outcome.Pass;
    }

    /** writeProfile1D: the Scatter2D of mkScatter(p), typed "Profile1D". */
    method WriteProfile1D(p: P1.Profile1D, m: P1.Profile1DMeasures, fmt: Formatter) returns (o: Outcome)
      requires WellFormed(p.annotations)
      modifies this
      ensures o.Pass? <==> TypeOf(p.annotations).Ok?
      ensures o.Fail? ==> o.error == AnnotationError && out == old(out)
      ensures o.Pass? ==>
        out == old(out) + Scatter2DBlock(Converted("Scatter2D", p.annotations), InsertEach([], P1.ProfilePoints(p.bins, false, false, m), Less2), fmt)
    {
      var r := P1.MkScatterOfProfile1D(p, false, false, m);
      if r.Err? {
        return Fail(r.error);
      }
      var tmp := r.value;
      tmp.SetAnnotation("Type", "Profile1D");
      ConvertedRetyped(p.annotations, "Scatter2D", "Profile1D", tmp.annotations);
      Retyped2DBlock(Converted("Scatter2D", p.annotations), "Profile1D", tmp.points, fmt);
      WriteScatter2D(tmp, fmt);
      o := Outcome.Pass;
    }

    /** writeHisto2D: the Scatter3D of mkScatter(h), typed "Histo2D";
        mkScatter throws when h has no "Type" or a bin's value cannot be
        computed. */
    method WriteHisto2D(h: P2.Histo2D, m: P2.Histo2DMeasures, fmt: Formatter) returns (o: Outcome)
      requires WellFormed(h.annotations)
      modifies this
      ensures var pts := MapResults(h.bins, b => P2.Histo2DBinPoint(b, false, m));
        o.Pass? <==> TypeOf(h.annotations).Ok? && pts.Ok?
      ensures o.Fail? ==> out == old(out)
      ensures o.Fail? && TypeOf(h.annotations).Err? ==> o.error == AnnotationError
      ensures var pts := MapResults(h.bins, b => P2.Histo2DBinPoint(b, false, m));
        o.Pass? ==> out == old(out) + Scatter3DBlock(Converted("Scatter3D", h.annotations), InsertEach([], pts.value, Less3), fmt)
    {
      var r := P2.MkScatterOfHisto2D(h, false, m);
      if r.Err? {
        return Fail(r.error);
      }
      var tmp := r.value;
      tmp.SetAnnotation("Type", "Histo2D");
      ConvertedRetyped(h.annotations, "Scatter3D", "Histo2D", tmp.annotations);
      Retyped3DBlock(Converted("Scatter3D", h.annotations), "Histo2D", tmp.points, fmt);
      WriteScatter3D(tmp, fmt);
      o := Outcome.Pass;
    }

    /** writeProfile2D: the Scatter3D of mkScatter(p), typed "Profile2D". */
    method WriteProfile2D(p: P2.Profile2D, m: P2.Profile2DMeasures, fmt: Formatter) returns (o: Outcome)
      requires WellFormed(p.annotations)
      modifies this
      ensures var pts := MapResults(p.bins, b => P2.Profile2DBinPoint(b, false, false, m));
        o.Pass? <==> TypeOf(p.annotations).Ok? && pts.Ok?
      ensures o.Fail? ==> out == old(out)
      ensures o.Fail? && TypeOf(p.annotations).Err? ==> o.error == AnnotationError
      ensures var pts := MapResults(p.bins, b => P2.Profile2DBinPoint(b, false, false, m));
        o.Pass? ==> out == old(out) + Scatter3DBlock(Converted("Scatter3D", p.annotations), InsertEach([], pts.value, Less3), fmt)
    {
      var r := P2.MkScatterOfProfile2D(p, false, false, m);
      if r.Err? {
        return Fail(r.error);
      }
      var tmp := r.value;
      tmp.SetAnnotation("Type", "Profile2D");
      ConvertedRetyped(p.annotations, "Scatter3D", "Profile2D", tmp.annotations);
      Retyped3DBlock(Converted("Scatter3D", p.annotations), "Profile2D", tmp.points, fmt);
      WriteScatter3D(tmp, fmt);
      o := Outcome.Pass;
    }
  }

  // ---------------------------------------------------------------------------
  // The "Type" a write sets is not written

  /** The annotations of the converted scatter once "Type" was set on it:
      those of a new scatter with src's entries set on it, "Type" replaced. */
  lemma ConvertedRetyped(src: Annotations, scatter: string, typ: string, after: Annotations)
    requires WellFormed(src) && WellFormed(after) && TypeOf(src).Ok?
    requires forall a :: Lookup(after, a) == if a == "Type" then Some(typ) else ConvertedLookup(src, TypeOf(src).value, a)
    ensures WellFormed(Converted(scatter, src))
    ensures after == SetAnn(Converted(scatter, src), "Type", typ)
  {
    var conv := Converted(scatter, src);
    FreshOverlaid(scatter, src);
    SetAnnProperties(conv, "Type", typ);
    WellFormedExtEq(after, SetAnn(conv, "Type", typ));
  }

  /** Setting "Type" on a list leaves the entries the flat writer keeps as
      they were. */
  lemma {:induction false} KeptRetyped(a: Annotations, typ: string)
    ensures Kept(SetAnn(a, "Type", typ), true) == Kept(a, true)
  {
    if a != [] && a[0].0 != "Type" && !StrLess("Type", a[0].0) {
      var rest := SetAnn(a[1..], "Type", typ);
      KeptRetyped(a[1..], typ);
      assert SetAnn(a, "Type", typ) == [a[0]] + rest;
      assert ([a[0]] + rest)[1..] == rest;
    } else if a != [] && a[0].0 == "Type" {
      assert ([("Type", typ)] + a[1..])[1..] == a[1..];
    } else if a != [] {
      assert ([("Type", typ)] + a)[1..] == a;
    }
  }

  /** Setting "Type" changes no line of a flat block. */
  lemma TypeNotWritten(a: Annotations, typ: string)
    requires WellFormed(a)
    ensures Path(SetAnn(a, "Type", typ)) == Path(a)
    ensures AnnotationLines(SetAnn(a, "Type", typ), true) == AnnotationLines(a, true)
  {
    SetAnnProperties(a, "Type", typ);
    assert Lookup(SetAnn(a, "Type", typ), "Path") == Lookup(a, "Path");
    KeptRetyped(a, typ);
  }

  lemma Retyped2DBlock(a: Annotations, typ: string, pts: seq<Point2D>, fmt: Formatter)
    requires WellFormed(a)
    ensures Scatter2DBlock(SetAnn(a, "Type", typ), pts, fmt) == Scatter2DBlock(a, pts, fmt)
  {
    TypeNotWritten(a, typ);
  }

  lemma Retyped3DBlock(a: Annotations, typ: string, pts: seq<Point3D>, fmt: Formatter)
    requires WellFormed(a)
    ensures Scatter3DBlock(SetAnn(a, "Type", typ), pts, fmt) == Scatter3DBlock(a, pts, fmt)
  {
    TypeNotWritten(a, typ);
  }

  // ---------------------------------------------------------------------------
  // What the flat reader makes of a written block

  /** No annotation name starts like a number, with a blank or with '#':
      the annotation lines are then neither rows of numbers nor group
      tags. */
  predicate FlatNames(a: Annotations)
  {
    forall i :: 0 <= i < |a| ==>
      a[i].0 == [] || (a[i].0[0] !in NumberStart && !IsSpace(a[i].0[0]) && a[i].0[0] != '#')
  }

  /** The lines between a histogram block's BEGIN and END lines. */
  function HistogramBody(a: Annotations, head: string, rows: seq<string>): seq<string>
  {
    AnnotationLines(a, true) + [head] + rows
  }

  /** A written histogram block is a BEGIN line of the reader's HISTOGRAM
      group with the path after a blank, the body, the END line and an empty
      line. */
  lemma HistogramShape(a: Annotations, head: string, rows: seq<string>)
    ensures Opening("HISTOGRAM", a) + [head] + rows + Closing("HISTOGRAM") ==
      [BeginLine(R.FlatGroups(), 1, " " + Path(a))] + HistogramBody(a, head, rows)
      + [EndLine(R.FlatGroups(), 1, "")] + [""]
  {
    assert R.FlatGroups()[0] == "HISTOGRAM";
    var begin := "# BEGIN " + "HISTOGRAM" + " " + Path(a);
    AppendAssoc(BeginTag, "HISTOGRAM", " " + Path(a));
    assert begin == BeginLine(R.FlatGroups(), 1, " " + Path(a));
    assert "# END " + "HISTOGRAM" == EndLine(R.FlatGroups(), 1, "");
  }

  /** A line that starts with no blank has its first character as the first
      character of its first token. */
  lemma FirstTokenHead(line: string)
    requires line != [] && !IsSpace(line[0])
    ensures Tokens(line) != [] && Tokens(line)[0] != [] && Tokens(line)[0][0] == line[0]
  {
    assert SkipSpace(line) == line;
    assert WordLength(line) >= 1;
  }

  /** A line that starts with neither a blank nor a number is no point. */
  lemma NoPointLine(line: string, lex: Lexer)
    requires NumberLexer(lex) && line != [] && !IsSpace(line[0]) && line[0] !in NumberStart
    ensures R.S1PointOf(R.ParseRow(line, lex)).None?
    ensures R.S2PointOf(R.ParseRow(line, lex)).None?
    ensures R.S3PointOf(R.ParseRow(line, lex)).None?
  {
    FirstTokenHead(line);
    R.NoPointRow(line, lex);
  }

  predicate NoPoints(rows: seq<R.Row>)
  {
    forall i :: 0 <= i < |rows| ==> R.S1PointOf(rows[i]).None? && R.S2PointOf(rows[i]).None? && R.S3PointOf(rows[i]).None?
  }

  lemma NoPointsJoin(x: seq<R.Row>, y: seq<R.Row>)
    requires NoPoints(x) && NoPoints(y)
    ensures NoPoints(x + y)
  {
    forall i | 0 <= i < |x + y|
      ensures R.S1PointOf((x + y)[i]).None? && R.S2PointOf((x + y)[i]).None? && R.S3PointOf((x + y)[i]).None?
    {
      if i >= |x| { assert (x + y)[i] == y[i - |x|]; }
    }
  }

  lemma LineHoldsNoPoint(line: string, lex: Lexer)
    requires NumberLexer(lex) && line != [] && !IsSpace(line[0]) && line[0] !in NumberStart
    ensures NoPoints(R.ParseRows([line], lex))
  {
    NoPointLine(line, lex);
  }

  lemma AnnotationsHoldNoPoint(a: Annotations, lex: Lexer)
    requires NumberLexer(lex) && FlatNames(a)
    ensures NoPoints(R.ParseRows(AnnotationLines(a, true), lex))
  {
    var anns := AnnotationLines(a, true);
    var k := Kept(a, true);
    KeptFrom(a, true);
    forall i | 0 <= i < |anns|
      ensures R.S1PointOf(R.ParseRow(anns[i], lex)).None? && R.S2PointOf(R.ParseRow(anns[i], lex)).None?
        && R.S3PointOf(R.ParseRow(anns[i], lex)).None?
    {
      assert anns[i] == AnnotationLine(k[i]);
      assert k[i] in a;
      NoPointLine(anns[i], lex);
    }
  }

  /** The BEGIN line, the annotations and the comment above the rows hold
      no point. */
  lemma OpeningHoldsNoPoint(g: int, a: Annotations, head: string, lex: Lexer)
    requires 1 <= g <= 4 && NumberLexer(lex) && FlatNames(a) && head != [] && head[0] == '#'
    ensures NoPoints(R.ParseRows([BeginLine(R.FlatGroups(), g, " " + Path(a))] + AnnotationLines(a, true) + [head], lex))
  {
    var begin := BeginLine(R.FlatGroups(), g, " " + Path(a));
    var anns := AnnotationLines(a, true);
    assert begin[0] == '#';
    LineHoldsNoPoint(begin, lex);
    AnnotationsHoldNoPoint(a, lex);
    LineHoldsNoPoint(head, lex);
    R.ParseRowsAppend([begin], anns, lex);
    NoPointsJoin(R.ParseRows([begin], lex), R.ParseRows(anns, lex));
    R.ParseRowsAppend([begin] + anns, [head], lex);
    NoPointsJoin(R.ParseRows([begin] + anns, lex), R.ParseRows([head], lex));
  }

  /** The body of a written histogram block holds no END line, so the
      reader takes all of it as content of the block. */
  lemma BodyUntagged(a: Annotations, head: string, rows: seq<string>)
    requires FlatNames(a) && Untagged(head) && Y.AllUntagged(rows)
    ensures Y.AllUntagged(HistogramBody(a, head, rows))
  {
    var anns := AnnotationLines(a, true);
    var k := Kept(a, true);
    KeptFrom(a, true);
    forall i | 0 <= i < |anns| ensures Untagged(anns[i]) {
      assert anns[i] == AnnotationLine(k[i]);
      assert k[i] in a;
      UntaggedByHead(anns[i]);
    }
    Y.UntaggedJoin(anns, [head]);
    Y.UntaggedJoin(anns + [head], rows);
  }

  /** Reading a written histogram block from a fresh reader: the object the
      records built from the block's lines make, or ReadError when they hold
      no point. The empty line after the END changes nothing. */
  lemma HistogramRead(a: Annotations, head: string, rows: seq<string>, lex: Lexer, ends: set<int>)
    requires Y.AllUntagged(HistogramBody(a, head, rows))
    ensures var r := R.Run(R.Start(ends, R.Cleared()), Opening("HISTOGRAM", a) + [head] + rows + Closing("HISTOGRAM"), lex);
      var recs := R.ApplyRows(R.Cleared(), R.ParseRows([BeginLine(R.FlatGroups(), 1, " " + Path(a))] + HistogramBody(a, head, rows), lex));
      match R.Emit(recs)
      case Ok(o) => r.1 == [o] && r.2.Pass?
      case Err(_) => r.1 == [] && r.2 == Fail(ReadError)
  {
    var m := R.Start(ends, R.Cleared());
    var body := HistogramBody(a, head, rows);
    var block := [BeginLine(R.FlatGroups(), 1, " " + Path(a))] + body + [EndLine(R.FlatGroups(), 1, "")];
    HistogramShape(a, head, rows);
    R.HistogramBlock(m, 1, " " + Path(a), body, "", lex);
    R.RunAppend(m, block, [""], lex);
    var mid := R.Run(m, block, lex);
    if mid.2.Pass? {
      R.RunOne(mid.0, "", lex);
      R.LineOutsideBlock(mid.0, "", lex);
      assert mid.1 + [] == mid.1;
    }
  }

  // ---------------------------------------------------------------------------
  // Scatter2D rows read back

  /** What the flat reader makes of a written Scatter2D point: the middle of
      the x interval with half its width on both sides, y as written. */
  function Reread2D(p: Point2D): Point2D
  {
    var lo, hi := XMin2(p), XMax2(p);
    Point2D(R.Mid(lo, hi), p.y, R.HalfWidth(lo, hi), R.HalfWidth(lo, hi), p.eyMinus, p.eyPlus)
  }

  function Reread2DAll(pts: seq<Point2D>): (r: seq<Point2D>)
    ensures |r| == |pts|
  {
    seq(|pts|, i requires 0 <= i < |pts| => Reread2D(pts[i]))
  }

  /** x moves by half the difference of its errors, which both become their
      mean; y and its errors stay. So a point comes back as itself exactly
      when its x errors are equal. */
  lemma Reread2DMeaning(p: Point2D)
    ensures Reread2D(p).x == p.x + (p.exPlus - p.exMinus) / 2.0
    ensures Reread2D(p).exMinus == Reread2D(p).exPlus == (p.exMinus + p.exPlus) / 2.0
    ensures Reread2D(p).y == p.y && Reread2D(p).eyMinus == p.eyMinus && Reread2D(p).eyPlus == p.eyPlus
    ensures Reread2D(p) == p <==> p.exMinus == p.exPlus
  {
  }

  /** A written Scatter2D row is read as five numbers. */
  lemma Point2DRowRead(p: Point2D, fmt: Formatter, lex: Lexer)
    requires Readable(fmt, lex)
    ensures R.ParseRow(Point2DRow(p, fmt), lex) == R.Scatter2DPoint(Reread2D(p))
  {
    var xs := [XMin2(p), XMax2(p), p.y, p.eyMinus, p.eyPlus];
    TextsRead(xs, fmt, lex);
    R.Asym1DLine(Point2DRow(p, fmt), lex);
  }

  lemma Point2DRowUntagged(p: Point2D, fmt: Formatter, lex: Lexer)
    requires Readable(fmt, lex) && NumberLexer(lex)
    ensures Untagged(Point2DRow(p, fmt))
  {
    Y.TextsRowUntagged([XMin2(p), XMax2(p), p.y, p.eyMinus, p.eyPlus], fmt, lex);
  }

  lemma Rows2DRead(pts: seq<Point2D>, fmt: Formatter, lex: Lexer)
    requires Readable(fmt, lex) && NumberLexer(lex)
    ensures var parsed := R.ParseRows(Rows(pts, fmt, Point2DRow), lex);
      Collect(parsed, R.S1PointOf) == [] && Collect(parsed, R.S2PointOf) == Reread2DAll(pts)
    ensures Y.AllUntagged(Rows(pts, fmt, Point2DRow))
  {
    var rows := Rows(pts, fmt, Point2DRow);
    var parsed := R.ParseRows(rows, lex);
    forall i | 0 <= i < |pts| ensures parsed[i] == R.Scatter2DPoint(Reread2D(pts[i])) && Untagged(rows[i]) {
      Point2DRowRead(pts[i], fmt, lex);
      Point2DRowUntagged(pts[i], fmt, lex);
    }
    CollectNone(parsed, R.S1PointOf);
    CollectAll(parsed, R.S2PointOf);
  }

  /** Lines that hold no point, followed by rows: fresh records then
      hold exactly the points of the rows. */
  lemma LeadThenRows(lead: seq<string>, rows: seq<string>, lex: Lexer)
    requires NoPoints(R.ParseRows(lead, lex))
    ensures var recs := R.ApplyRows(R.Cleared(), R.ParseRows(lead + rows, lex));
      var mine := R.ParseRows(rows, lex);
      recs.s1Points == Collect(mine, R.S1PointOf) && recs.s2Points == Collect(mine, R.S2PointOf)
      && recs.s3Points == Collect(mine, R.S3PointOf)
  {
    var first := R.ParseRows(lead, lex);
    var mine := R.ParseRows(rows, lex);
    R.ParseRowsAppend(lead, rows, lex);
    CollectAppend(first, mine, R.S1PointOf);
    CollectAppend(first, mine, R.S2PointOf);
    CollectAppend(first, mine, R.S3PointOf);
    CollectNone(first, R.S1PointOf);
    CollectNone(first, R.S2PointOf);
    CollectNone(first, R.S3PointOf);
    R.ApplyRowsCollects(R.Cleared(), first + mine);
  }

  /** The points a written histogram or counter block leaves in fresh records are
      those of its rows. */
  lemma BlockRecords(g: int, a: Annotations, head: string, rows: seq<string>, lex: Lexer)
    requires 1 <= g <= 4 && NumberLexer(lex) && FlatNames(a) && head != [] && head[0] == '#'
    ensures var parsed := R.ParseRows([BeginLine(R.FlatGroups(), g, " " + Path(a))] + HistogramBody(a, head, rows), lex);
      var recs := R.ApplyRows(R.Cleared(), parsed);
      var mine := R.ParseRows(rows, lex);
      recs.s1Points == Collect(mine, R.S1PointOf) && recs.s2Points == Collect(mine, R.S2PointOf)
      && recs.s3Points == Collect(mine, R.S3PointOf)
  {
    var begin := BeginLine(R.FlatGroups(), g, " " + Path(a));
    var anns := AnnotationLines(a, true);
    OpeningHoldsNoPoint(g, a, head, lex);
    assert [begin] + HistogramBody(a, head, rows) == ([begin] + anns + [head]) + rows;
    LeadThenRows([begin] + anns + [head], rows, lex);
  }

  /** Reading a written Scatter2D block from a fresh reader: one Scatter2D
      of the reread points, sorted, or ReadError when there is no point. */
  lemma Scatter2DReadBack(a: Annotations, pts: seq<Point2D>, fmt: Formatter, lex: Lexer, ends: set<int>)
    requires Readable(fmt, lex) && NumberLexer(lex) && FlatNames(a)
    ensures var r := R.Run(R.Start(ends, R.Cleared()), Scatter2DBlock(a, pts, fmt), lex);
      (pts == [] ==> r.1 == [] && r.2 == Fail(ReadError))
      && (pts != [] ==> r.2.Pass? && |r.1| == 1 && r.1[0].FlatScatter2D? && r.1[0].points2 == SortAll(Reread2DAll(pts), Less2))
  {
    var rows := Rows(pts, fmt, Point2DRow);
    Rows2DRead(pts, fmt, lex);
    BodyUntagged(a, Scatter2DHead, rows);
    HistogramRead(a, Scatter2DHead, rows, lex, ends);
    BlockRecords(1, a, Scatter2DHead, rows, lex);
  }

  /** Points whose x errors are symmetric are read back as they are. */
  lemma Reread2DSymmetric(pts: seq<Point2D>)
    requires forall i :: 0 <= i < |pts| ==> pts[i].exMinus == pts[i].exPlus
    ensures Reread2DAll(pts) == pts
  {
    forall i | 0 <= i < |pts| ensures Reread2DAll(pts)[i] == pts[i] {
      Reread2DMeaning(pts[i]);
    }
  }

  /** A Scatter2D written to FLAT and read back by a fresh reader is the
      same object, when its points are strictly ordered and their x errors
      are symmetric (the FLAT row keeps only the x edges). */
  lemma Scatter2DRoundTrip(a: Annotations, pts: seq<Point2D>, fmt: Formatter, lex: Lexer, ends: set<int>)
    requires Readable(fmt, lex) && NumberLexer(lex) && FlatNames(a)
    requires pts != [] && Chained(pts, Less2)
    requires forall i :: 0 <= i < |pts| ==> pts[i].exMinus == pts[i].exPlus
    ensures var r := R.Run(R.Start(ends, R.Cleared()), Scatter2DBlock(a, pts, fmt), lex);
      r.2.Pass? && |r.1| == 1 && r.1[0].FlatScatter2D? && r.1[0].points2 == pts
  {
    Scatter2DReadBack(a, pts, fmt, lex, ends);
    Reread2DSymmetric(pts);
    SortAllChained(pts, Less2);
  }

  // ---------------------------------------------------------------------------
  // Scatter1D rows read back

  /** A written Scatter1D row is read as three numbers: the point itself. */
  lemma Point1DRowRead(p: Point1D, fmt: Formatter, lex: Lexer)
    requires Readable(fmt, lex)
    ensures R.ParseRow(Point1DRow(p, fmt), lex) == R.Scatter1DPoint(p)
  {
    TextsRead([p.x, p.exMinus, p.exPlus], fmt, lex);
    R.Asym0DLine(Point1DRow(p, fmt), lex);
  }

  lemma Rows1DRead(pts: seq<Point1D>, fmt: Formatter, lex: Lexer)
    requires Readable(fmt, lex) && NumberLexer(lex)
    ensures Collect(R.ParseRows(Rows(pts, fmt, Point1DRow), lex), R.S1PointOf) == pts
    ensures Y.AllUntagged(Rows(pts, fmt, Point1DRow))
  {
    var rows := Rows(pts, fmt, Point1DRow);
    var parsed := R.ParseRows(rows, lex);
    forall i | 0 <= i < |pts| ensures parsed[i] == R.Scatter1DPoint(pts[i]) && Untagged(rows[i]) {
      Point1DRowRead(pts[i], fmt, lex);
      Y.TextsRowUntagged([pts[i].x, pts[i].exMinus, pts[i].exPlus], fmt, lex);
    }
    CollectAll(parsed, R.S1PointOf);
  }

  /** Reading a written Scatter1D block from a fresh reader: one Scatter1D
      of the same points, sorted, or ReadError when there is no point. */
  lemma Scatter1DReadBack(a: Annotations, pts: seq<Point1D>, fmt: Formatter, lex: Lexer, ends: set<int>)
    requires Readable(fmt, lex) && NumberLexer(lex) && FlatNames(a)
    ensures var r := R.Run(R.Start(ends, R.Cleared()), Scatter1DBlock(a, pts, fmt), lex);
      (pts == [] ==> r.1 == [] && r.2 == Fail(ReadError))
      && (pts != [] ==> r.2.Pass? && |r.1| == 1 && r.1[0].FlatScatter1D? && r.1[0].points1 == SortAll(pts, Less1))
  {
    var rows := Rows(pts, fmt, Point1DRow);
    Rows1DRead(pts, fmt, lex);
    BodyUntagged(a, Scatter1DHead, rows);
    HistogramRead(a, Scatter1DHead, rows, lex, ends);
    BlockRecords(1, a, Scatter1DHead, rows, lex);
  }

  /** A Scatter1D written to FLAT and read back by a fresh reader has the
      same points, when they are strictly ordered. */
  lemma Scatter1DRoundTrip(a: Annotations, pts: seq<Point1D>, fmt: Formatter, lex: Lexer, ends: set<int>)
    requires Readable(fmt, lex) && NumberLexer(lex) && FlatNames(a)
    requires pts != [] && Chained(pts, Less1)
    ensures var r := R.Run(R.Start(ends, R.Cleared()), Scatter1DBlock(a, pts, fmt), lex);
      r.2.Pass? && |r.1| == 1 && r.1[0].FlatScatter1D? && r.1[0].points1 == pts
  {
    Scatter1DReadBack(a, pts, fmt, lex, ends);
    SortAllChained(pts, Less1);
  }

  // ---------------------------------------------------------------------------
  // Scatter3D rows read back

  /** What the flat reader makes of a written Scatter3D point: the middle of
      the x and y intervals with half their widths as errors, z as written. */
  function Reread3D(p: Point3D): Point3D
  {
    var xw, yw := R.HalfWidth(XMin3(p), XMax3(p)), R.HalfWidth(YMin3(p), YMax3(p));
    Point3D(R.Mid(XMin3(p), XMax3(p)), R.Mid(YMin3(p), YMax3(p)), p.z, xw, xw, yw, yw, p.ezMinus, p.ezPlus)
  }

  function Reread3DAll(pts: seq<Point3D>): (r: seq<Point3D>)
    ensures |r| == |pts|
  {
    seq(|pts|, i requires 0 <= i < |pts| => Reread3D(pts[i]))
  }

  /** A point comes back as itself exactly when its x errors are equal and
      its y errors are equal. */
  lemma Reread3DMeaning(p: Point3D)
    ensures Reread3D(p).x == p.x + (p.exPlus - p.exMinus) / 2.0
    ensures Reread3D(p).y == p.y + (p.eyPlus - p.eyMinus) / 2.0
    ensures Reread3D(p).exMinus == Reread3D(p).exPlus == (p.exMinus + p.exPlus) / 2.0
    ensures Reread3D(p).eyMinus == Reread3D(p).eyPlus == (p.eyMinus + p.eyPlus) / 2.0
    ensures Reread3D(p).z == p.z && Reread3D(p).ezMinus == p.ezMinus && Reread3D(p).ezPlus == p.ezPlus
    ensures Reread3D(p) == p <==> p.exMinus == p.exPlus && p.eyMinus == p.eyPlus
  {
  }

  lemma Point3DRowRead(p: Point3D, fmt: Formatter, lex: Lexer)
    requires Readable(fmt, lex)
    ensures R.ParseRow(Point3DRow(p, fmt), lex) == R.Scatter3DPoint(Reread3D(p))
  {
    TextsRead([XMin3(p), XMax3(p), YMin3(p), YMax3(p), p.z, p.ezMinus, p.ezPlus], fmt, lex);
    R.Asym2DLine(Point3DRow(p, fmt), lex);
  }

  lemma Rows3DRead(pts: seq<Point3D>, fmt: Formatter, lex: Lexer)
    requires Readable(fmt, lex) && NumberLexer(lex)
    ensures var parsed := R.ParseRows(Rows(pts, fmt, Point3DRow), lex);
      Collect(parsed, R.S1PointOf) == [] && Collect(parsed, R.S2PointOf) == []
      && Collect(parsed, R.S3PointOf) == Reread3DAll(pts)
    ensures Y.AllUntagged(Rows(pts, fmt, Point3DRow))
  {
    var rows := Rows(pts, fmt, Point3DRow);
    var parsed := R.ParseRows(rows, lex);
    forall i | 0 <= i < |pts| ensures parsed[i] == R.Scatter3DPoint(Reread3D(pts[i])) && Untagged(rows[i]) {
      var p := pts[i];
      Point3DRowRead(p, fmt, lex);
      Y.TextsRowUntagged([XMin3(p), XMax3(p), YMin3(p), YMax3(p), p.z, p.ezMinus, p.ezPlus], fmt, lex);
    }
    CollectNone(parsed, R.S1PointOf);
    CollectNone(parsed, R.S2PointOf);
    CollectAll(parsed, R.S3PointOf);
  }

  /** Reading a written Scatter3D block from a fresh reader: one Scatter3D
      of the reread points, sorted, or ReadError when there is no point. */
  lemma Scatter3DReadBack(a: Annotations, pts: seq<Point3D>, fmt: Formatter, lex: Lexer, ends: set<int>)
    requires Readable(fmt, lex) && NumberLexer(lex) && FlatNames(a)
    ensures var r := R.Run(R.Start(ends, R.Cleared()), Scatter3DBlock(a, pts, fmt), lex);
      (pts == [] ==> r.1 == [] && r.2 == Fail(ReadError))
      && (pts != [] ==> r.2.Pass? && |r.1| == 1 && r.1[0].FlatScatter3D? && r.1[0].points3 == SortAll(Reread3DAll(pts), Less3))
  {
    var rows := Rows(pts, fmt, Point3DRow);
    Rows3DRead(pts, fmt, lex);
    BodyUntagged(a, Scatter3DHead, rows);
    HistogramRead(a, Scatter3DHead, rows, lex, ends);
    BlockRecords(1, a, Scatter3DHead, rows, lex);
  }

  lemma Reread3DSymmetric(pts: seq<Point3D>)
    requires forall i :: 0 <= i < |pts| ==> pts[i].exMinus == pts[i].exPlus && pts[i].eyMinus == pts[i].eyPlus
    ensures Reread3DAll(pts) == pts
  {
    forall i | 0 <= i < |pts| ensures Reread3DAll(pts)[i] == pts[i] {
      Reread3DMeaning(pts[i]);
    }
  }

  /** A Scatter3D written to FLAT and read back by a fresh reader has the
      same points, when they are strictly ordered and their x and y errors
      are symmetric. */
  lemma Scatter3DRoundTrip(a: Annotations, pts: seq<Point3D>, fmt: Formatter, lex: Lexer, ends: set<int>)
    requires Readable(fmt, lex) && NumberLexer(lex) && FlatNames(a)
    requires pts != [] && Chained(pts, Less3)
    requires forall i :: 0 <= i < |pts| ==> pts[i].exMinus == pts[i].exPlus && pts[i].eyMinus == pts[i].eyPlus
    ensures var r := R.Run(R.Start(ends, R.Cleared()), Scatter3DBlock(a, pts, fmt), lex);
      r.2.Pass? && |r.1| == 1 && r.1[0].FlatScatter3D? && r.1[0].points3 == pts
  {
    Scatter3DReadBack(a, pts, fmt, lex, ends);
    Reread3DSymmetric(pts);
    SortAllChained(pts, Less3);
  }

  // ---------------------------------------------------------------------------
  // Counter blocks read back

  lemma CounterShape(a: Annotations, head: string, row: string)
    ensures Opening("COUNTER", a) + [head, row] + Closing("COUNTER") ==
      [BeginLine(R.FlatGroups(), 4, " " + Path(a))] + HistogramBody(a, head, [row])
      + [EndLine(R.FlatGroups(), 4, "")] + [""]
  {
    assert R.FlatGroups()[3] == "COUNTER";
    var begin := "# BEGIN " + "COUNTER" + " " + Path(a);
    AppendAssoc(BeginTag, "COUNTER", " " + Path(a));
    assert begin == BeginLine(R.FlatGroups(), 4, " " + Path(a));
    assert "# END " + "COUNTER" == EndLine(R.FlatGroups(), 4, "");
  }

  /** Reading a written counter block from a fresh reader: no object, and
      the records its lines leave. */
  lemma CounterRead(a: Annotations, head: string, row: string, lex: Lexer, ends: set<int>)
    requires Y.AllUntagged(HistogramBody(a, head, [row]))
    ensures var r := R.Run(R.Start(ends, R.Cleared()), Opening("COUNTER", a) + [head, row] + Closing("COUNTER"), lex);
      var recs := R.ApplyRows(R.Cleared(), R.ParseRows([BeginLine(R.FlatGroups(), 4, " " + Path(a))] + HistogramBody(a, head, [row]), lex));
      r.1 == [] && r.2.Pass? && r.0.records == recs
  {
    var m := R.Start(ends, R.Cleared());
    var body := HistogramBody(a, head, [row]);
    var block := [BeginLine(R.FlatGroups(), 4, " " + Path(a))] + body + [EndLine(R.FlatGroups(), 4, "")];
    CounterShape(a, head, row);
    R.CounterBlock(m, " " + Path(a), body, "", lex);
    R.RunAppend(m, block, [""], lex);
    var mid := R.Run(m, block, lex);
    R.RunOne(mid.0, "", lex);
    R.LineOutsideBlock(mid.0, "", lex);
  }

  /** A written counter row is read as a 1D point with a symmetric error. */
  lemma CounterRowRead(value: real, error: real, fmt: Formatter, lex: Lexer)
    requires Readable(fmt, lex) && NumberLexer(lex)
    ensures var parsed := R.ParseRows([CounterRow(value, error, fmt)], lex);
      Collect(parsed, R.S1PointOf) == [Point1D(value, error, error)]
      && Collect(parsed, R.S2PointOf) == [] && Collect(parsed, R.S3PointOf) == []
    ensures Y.AllUntagged([CounterRow(value, error, fmt)])
  {
    var row := CounterRow(value, error, fmt);
    TextsRead([value, error], fmt, lex);
    R.Sym0DLine(row, lex);
    Y.TextsRowUntagged([value, error], fmt, lex);
    var parsed := R.ParseRows([row], lex);
    assert parsed == [R.Scatter1DPoint(Point1D(value, error, error))];
    assert parsed[1..] == [];
  }

  lemma CounterRecords(a: Annotations, head: string, rows: seq<string>, p: Point1D, lex: Lexer)
    requires NumberLexer(lex) && FlatNames(a) && head != [] && head[0] == '#'
    requires var mine := R.ParseRows(rows, lex);
      Collect(mine, R.S1PointOf) == [p] && Collect(mine, R.S2PointOf) == [] && Collect(mine, R.S3PointOf) == []
    ensures var recs := R.ApplyRows(R.Cleared(), R.ParseRows([BeginLine(R.FlatGroups(), 4, " " + Path(a))] + HistogramBody(a, head, rows), lex));
      recs.s1Points == [p] && recs.s2Points == [] && recs.s3Points == []
  {
    BlockRecords(4, a, head, rows, lex);
  }

  /** The reader has no counter object: a written counter block yields
      nothing, yet its "value error" row stays in the records as a 1D point
      with a symmetric error, where it decides the kind of the next
      histogram block read. */
  lemma CounterReadBack(a: Annotations, value: real, error: real, fmt: Formatter, lex: Lexer, ends: set<int>)
    requires Readable(fmt, lex) && NumberLexer(lex) && FlatNames(a)
    ensures var r := R.Run(R.Start(ends, R.Cleared()), CounterBlock(a, value, error, fmt), lex);
      r.1 == [] && r.2.Pass? && r.0.records.s1Points == [Point1D(value, error, error)]
      && r.0.records.s2Points == [] && r.0.records.s3Points == []
  {
    var row := CounterRow(value, error, fmt);
    CounterRowRead(value, error, fmt, lex);
    CounterRecords(a, CounterHead, [row], Point1D(value, error, error), lex);
    BodyUntagged(a, CounterHead, [row]);
    CounterRead(a, CounterHead, row, lex, ends);
  }
}
