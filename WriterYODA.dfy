/** The writer of the .yoda text format (src/WriterYODA.cc).

    Each write appends the lines of one block to the stream: a
    "BEGIN YODA_<KIND> <path>" line, the annotations, the comment and data
    rows of the object, and "END YODA_<KIND>" followed by an empty line.
    Header and footer only flush the stream, so they write nothing.

    The mean and integral summaries of the histograms come from headers that
    are not part of this model; they are parameters, the mean as the value
    or the error computing it throws. */
module WriterYODA {
  import opened Wrappers
  import opened Dbn
  import opened Bins
  import opened Points
  import opened AnalysisObject
  import opened LineGrammar
  import opened Groups
  import opened TextRows
  import C = Counter
  import H = Histo1D
  import S1 = Scatter1D
  import S2 = Scatter2D
  import S3 = Scatter3D
  import P1 = Scatter2DConversions
  import P2 = Scatter3DConversions
  import R = ReaderYODA

  // ---------------------------------------------------------------------------
  // Columns and rows

  /** The counter row: sumW, sumW2 and numEntries, all three as doubles. */
  function CounterCols(d: Dbn0D, fmt: Formatter): seq<string>
  {
    Texts([d.sumW, d.sumW2, d.numFills as real], fmt)
  }

  /** The sums of each distribution, in the column order of the writer;
      the fill count follows them as an integer. */
  function Dbn1DSums(d: Dbn1D): seq<real> { [d.sumW, d.sumW2, d.sumWX, d.sumWX2] }

  /** A Profile1D distribution is written without its sumWXY. */
  function Profile1DSums(d: Dbn2D): seq<real> { [d.sumW, d.sumW2, d.sumWX, d.sumWX2, d.sumWY, d.sumWY2] }

  function Histo2DSums(d: Dbn2D): seq<real> { [d.sumW, d.sumW2, d.sumWX, d.sumWX2, d.sumWY, d.sumWY2, d.sumWXY] }

  /** A Profile2D distribution is written without sumWXZ and sumWYZ. */
  function Profile2DSums(d: Dbn3D): seq<real>
  {
    [d.sumW, d.sumW2, d.sumWX, d.sumWX2, d.sumWY, d.sumWY2, d.sumWZ, d.sumWZ2, d.sumWXY]
  }

  function Dbn1DCols(d: Dbn1D, fmt: Formatter): seq<string> { Counted(Dbn1DSums(d), d.numFills, fmt) }
  function Profile1DCols(d: Dbn2D, fmt: Formatter): seq<string> { Counted(Profile1DSums(d), d.numFills, fmt) }
  function Histo2DCols(d: Dbn2D, fmt: Formatter): seq<string> { Counted(Histo2DSums(d), d.numFills, fmt) }
  function Profile2DCols(d: Dbn3D, fmt: Formatter): seq<string> { Counted(Profile2DSums(d), d.numFills, fmt) }

  function TotalRow(cols: seq<string>): string { TaggedRow(R.Total, "   \t", cols) }
  function UnderflowRow(cols: seq<string>): string { TaggedRow(R.Underflow, "\t", cols) }
  function OverflowRow(cols: seq<string>): string { TaggedRow(R.Overflow, "\t", cols) }

  /** Bin rows: the edges, then the columns of the bin's distribution. */
  function Histo1DBinRow(b: HistoBin1D, fmt: Formatter): string
  {
    Row(Counted([b.xMin, b.xMax] + Dbn1DSums(b.dbn), b.dbn.numFills, fmt))
  }

  function Profile1DBinRow(b: P1.ProfileBin1D, fmt: Formatter): string
  {
    Row(Counted([b.xMin, b.xMax] + Profile1DSums(b.dbn), b.dbn.numFills, fmt))
  }

  function Histo2DBinRow(b: P2.HistoBin2D, fmt: Formatter): string
  {
    Row(Counted([b.xMin, b.xMax, b.yMin, b.yMax] + Histo2DSums(b.dbn), b.dbn.numFills, fmt))
  }

  function Profile2DBinRow(b: P2.ProfileBin2D, fmt: Formatter): string
  {
    Row(Counted([b.xMin, b.xMax, b.yMin, b.yMax] + Profile2DSums(b.dbn), b.dbn.numFills, fmt))
  }

  /** Point rows: each coordinate followed by its minus and plus errors. */
  function Point1DRow(p: Point1D, fmt: Formatter): string
  {
    Row(Texts([p.x, p.exMinus, p.exPlus], fmt))
  }

  function Point2DRow(p: Point2D, fmt: Formatter): string
  {
    Row(Texts([p.x, p.exMinus, p.exPlus, p.y, p.eyMinus, p.eyPlus], fmt))
  }

  function Point3DRow(p: Point3D, fmt: Formatter): string
  {
    Row(Texts([p.x, p.exMinus, p.exPlus, p.y, p.eyMinus, p.eyPlus, p.z, p.ezMinus, p.ezPlus], fmt))
  }

  // ---------------------------------------------------------------------------
  // Comment lines

  /** A comment line: its first word is kept apart from the rest, so that
      proofs about where the line starts need not unfold the rest. A first
      word that does not open with B or E keeps the line free of group
      tags. */
  function Comment(first: string, rest: string): (r: string)
    ensures |r| >= 2 + |first| && r[..2] == "# " && r[2..2 + |first|] == first
    ensures first != [] && first[0] != 'B' && first[0] != 'E' ==> Untagged(r)
  {
    var r := "# " + first + rest;
    assert r[..2] == "# " && r[2..2 + |first|] == first;
    if first != [] && first[0] != 'B' && first[0] != 'E' then
      assert r[2] == r[2..2 + |first|][0];
      UntaggedByHead(r); r
    else r
  }

  /** The column comments written above the rows, as the writer spells
      them. */
  const CounterHead := Comment("sumW", "\t sumW2\t numEntries")
  const Histo1DTotalHead := Comment("ID", "\t ID\t sumw\t sumw2\t sumwx\t sumwx2\t numEntries")
  const Histo1DBinHead := Comment("xlow", "\t xhigh\t sumw\t sumw2\t sumwx\t sumwx2\t numEntries")
  const Histo2DTotalHead := Comment("ID", "\t ID\t sumw\t sumw2\t sumwx\t sumwx2\t sumwy\t sumwy2\t sumwxy\t numEntries")
  const Histo2DBinHead := Comment("xlow", "\t xhigh\t ylow\t yhigh\t sumw\t sumw2\t sumwx\t sumwx2\t sumwy\t sumwy2\t sumwxy\t numEntries")
  const Profile1DTotalHead := Comment("ID", "\t ID\t sumw\t sumw2\t sumwx\t sumwx2\t sumwy\t sumwy2\t numEntries")
  const Profile1DBinHead := Comment("xlow", "\t xhigh\t sumw\t sumw2\t sumwx\t sumwx2\t sumwy\t sumwy2\t numEntries")
  const Profile2DTotalHead := Comment("sumw", "\t sumw2\t sumwx\t sumwx2\t sumwy\t sumwy2\t sumwz\t sumwz2\t sumwxy\t numEntries")
  const Profile2DBinHead := Comment("xlow", "\t xhigh\t ylow\t yhigh\t sumw\t sumw2\t sumwx\t sumwx2\t sumwy\t sumwy2\t sumwz\t sumwz2\t sumwxy\t numEntries")
  const Scatter1DHead := Comment("xval", "\t xerr-\t xerr+")
  const Scatter2DHead := Comment("xval", "\t xerr-\t xerr+\t yval\t yerr-\t yerr+")
  const Scatter3DHead := Comment("xval", "\t xerr-\t xerr+\t yval\t yerr-\t yerr+\t zval\t zerr-\t zerr+")

  /** Written where the 2D outflows would go. */
  const OutflowComment := Comment("2D", " outflow persistency not currently supported until API is stable")

  // ---------------------------------------------------------------------------
  // Blocks

  /** The BEGIN line and the annotations: every entry with a non-empty name,
      "Type" included. */
  function Opening(kind: string, a: Annotations): seq<string>
  {
    ["BEGIN YODA_" + kind + " " + Path(a)] + AnnotationLines(a, false)
  }

  function Closing(kind: string): seq<string>
  {
    ["END YODA_" + kind, ""]
  }

  function CounterBlock(a: Annotations, d: Dbn0D, fmt: Formatter): seq<string>
  {
    Opening("COUNTER", a) + [CounterHead, Row(CounterCols(d, fmt))] + Closing("COUNTER")
  }

  /** The summary comments, or none when the mean throws LowStatsError. */
  function Histo1DSummary(mean: Result<real>, area: real, fmt: Formatter): seq<string>
  {
    if mean.Ok? then ["# Mean: " + fmt(mean.value), "# Area: " + fmt(area)] else []
  }

  function Histo1DBlock(a: Annotations, bins: seq<HistoBin1D>, total: Dbn1D, underflow: Dbn1D, overflow: Dbn1D,
                        mean: Result<real>, area: real, fmt: Formatter): seq<string>
  {
    Opening("HISTO1D", a) + Histo1DBody(bins, total, underflow, overflow, mean, area, fmt)
  }

  /** What follows the annotations of a histogram when the write goes on. */
  function Histo1DBody(bins: seq<HistoBin1D>, total: Dbn1D, underflow: Dbn1D, overflow: Dbn1D,
                       mean: Result<real>, area: real, fmt: Formatter): seq<string>
  {
    Histo1DSummary(mean, area, fmt) + Histo1DStats(total, underflow, overflow, fmt)
    + Rows(bins, fmt, Histo1DBinRow) + Closing("HISTO1D")
  }

  /** The total and outflow rows under their column comment, then the
      column comment of the bins. */
  function Histo1DStats(total: Dbn1D, underflow: Dbn1D, overflow: Dbn1D, fmt: Formatter): seq<string>
  {
    [Histo1DTotalHead,
     TotalRow(Dbn1DCols(total, fmt)), UnderflowRow(Dbn1DCols(underflow, fmt)), OverflowRow(Dbn1DCols(overflow, fmt)),
     Histo1DBinHead]
  }

  function Histo2DSummary(mean: Result<(real, real)>, volume: real, fmt: Formatter): seq<string>
  {
    if mean.Ok? then ["# Mean: (" + fmt(mean.value.0) + ", " + fmt(mean.value.1) + ")", "# Volume: " + fmt(volume)]
    else []
  }


  function Histo2DBlock(h: P2.Histo2D, mean: Result<(real, real)>, volume: real, fmt: Formatter): seq<string>
  {
    Opening("HISTO2D", h.annotations) + Histo2DBody(h, mean, volume, fmt)
  }

  function Histo2DBody(h: P2.Histo2D, mean: Result<(real, real)>, volume: real, fmt: Formatter): seq<string>
  {
    Histo2DSummary(mean, volume, fmt) + Histo2DStats(h.total, fmt) + Rows(h.bins, fmt, Histo2DBinRow)
    + Closing("HISTO2D")
  }

  /** The total row, and a comment in place of the outflows. */
  function Histo2DStats(total: Dbn2D, fmt: Formatter): seq<string>
  {
    [Histo2DTotalHead,
     TotalRow(Histo2DCols(total, fmt)), OutflowComment,
     Histo2DBinHead]
  }

  function Profile1DBlock(p: P1.Profile1D, fmt: Formatter): seq<string>
  {
    Opening("PROFILE1D", p.annotations) + Profile1DStats(p.total, p.underflow, p.overflow, fmt)
    + Rows(p.bins, fmt, Profile1DBinRow) + Closing("PROFILE1D")
  }

  function Profile1DStats(total: Dbn2D, underflow: Dbn2D, overflow: Dbn2D, fmt: Formatter): seq<string>
  {
    [Profile1DTotalHead,
     TotalRow(Profile1DCols(total, fmt)), UnderflowRow(Profile1DCols(underflow, fmt)),
     OverflowRow(Profile1DCols(overflow, fmt)),
     Profile1DBinHead]
  }

  function Profile2DBlock(p: P2.Profile2D, fmt: Formatter): seq<string>
  {
    Opening("PROFILE2D", p.annotations) + Profile2DStats(p.total, fmt)
    + Rows(p.bins, fmt, Profile2DBinRow) + Closing("PROFILE2D")
  }

  function Profile2DStats(total: Dbn3D, fmt: Formatter): seq<string>
  {
    [Profile2DTotalHead,
     TotalRow(Profile2DCols(total, fmt)), OutflowComment,
     Profile2DBinHead]
  }

  function Scatter1DBlock(a: Annotations, pts: seq<Point1D>, fmt: Formatter): seq<string>
  {
    Opening("SCATTER1D", a) + [Scatter1DHead] + Rows(pts, fmt, Point1DRow) + Closing("SCATTER1D")
  }

  function Scatter2DBlock(a: Annotations, pts: seq<Point2D>, fmt: Formatter): seq<string>
  {
    Opening("SCATTER2D", a) + [Scatter2DHead] + Rows(pts, fmt, Point2DRow)
    + Closing("SCATTER2D")
  }

  function Scatter3DBlock(a: Annotations, pts: seq<Point3D>, fmt: Formatter): seq<string>
  {
    Opening("SCATTER3D", a) + [Scatter3DHead]
    + Rows(pts, fmt, Point3DRow) + Closing("SCATTER3D")
  }

  // ---------------------------------------------------------------------------
  // The writer

  /** The stream is the sequence of lines written so far. */
  class WriterYODA {
    var out: seq<string>

    constructor ()
      ensures out == []
    {
      out := [];
    }

    /** writeHeader and writeFooter only flush the stream: no line is
        written and the writer's state stays as it is. */
    method WriteHeader()
    {
    }

    method WriteFooter()
    {
    }

    /** _writeAnnotations: name=value for every entry whose name is not
        empty, in map order. */
    method WriteAnnotations(a: Annotations)
      modifies this
      ensures out == old(out) + AnnotationLines(a, false)
    {
      for i := 0 to |a|
        invariant out == old(out) + AnnotationLines(a[..i], false)
      {
        AnnotationLinesSnoc(a, i, false);
        if a[i].0 != "" {
          out := out + [AnnotationLine(a[i])];
        }
      }
      assert a[..|a|] == a;
    }

    /** The loop over the bins or points: one row each, in order. */
    method WriteRows<T>(s: seq<T>, fmt: Formatter, row: (T, Formatter) -> string)
      modifies this
      ensures out == old(out) + Rows(s, fmt, row)
    {
      for i := 0 to |s|
        invariant out == old(out) + Rows(s[..i], fmt, row)
      {
        RowsSnoc(s, i, fmt, row);
        out := out + [row(s[i], fmt)];
      }
      assert s[..|s|] == s;
    }

    method WriteOpening(kind: string, a: Annotations)
      modifies this
      ensures out == old(out) + Opening(kind, a)
    {
      out := out + ["BEGIN YODA_" + kind + " " + Path(a)];
      WriteAnnotations(a);
    }

    method WriteClosing(kind: string)
      modifies this
      ensures out == old(out) + Closing(kind)
    {
      out := out + ["END YODA_" + kind, ""];
    }

    method WriteCounter(c: C.Counter, fmt: Formatter)
      modifies this
      ensures out == old(out) + CounterBlock(c.annotations, c.dbn, fmt)
    {
      WriteOpening("COUNTER", c.annotations);
      out := out + [CounterHead, Row(Texts([c.SumW(), c.SumW2(), c.NumEntries()], fmt))];
      WriteClosing("COUNTER");
    }

    /** writeHisto1D with the mean xMean() yields: a LowStatsError drops
        the two summary lines and the block goes on; any other error ends
        the write after the annotations. */
    method WriteHisto1D(h: H.Histo1D, mean: Result<real>, fmt: Formatter) returns (o: Outcome)
      requires h.Valid()
      modifies this
      ensures o.Pass? <==> mean.Ok? || mean.error == LowStatsError
      ensures o.Fail? ==> o.error == mean.error && out == old(out) + Opening("HISTO1D", h.annotations)
      ensures o.Pass? ==> out == old(out) + Histo1DBlock(h.annotations, h.axis.bins, h.axis.dbn, h.axis.underflow,
                                                         h.axis.overflow, mean, h.axis.dbn.sumW, fmt)
    {
      ghost var start := out;
      WriteOpening("HISTO1D", h.annotations);
      if mean.Err? && mean.error != LowStatsError {
        o := Fail(mean.error);
      } else {
        o := Outcome.Pass;
        WriteHisto1DBody(h, mean, fmt);
        ghost var a := h.axis;
        AppendAssoc(start, Opening("HISTO1D", h.annotations),
                    Histo1DBody(a.bins, a.dbn, a.underflow, a.overflow, mean, a.dbn.sumW, fmt));
      }
    }

    /** Everything after the annotations. */
    method WriteHisto1DBody(h: H.Histo1D, mean: Result<real>, fmt: Formatter)
      requires h.Valid()
      modifies this
      ensures out == old(out) + Histo1DBody(h.axis.bins, h.axis.dbn, h.axis.underflow, h.axis.overflow, mean,
                                            h.axis.dbn.sumW, fmt)
    {
      var area := h.SumW(true);
      var summary := Histo1DSummary(mean, area, fmt);
      var a := h.axis;
      var stats := Histo1DStats(a.dbn, a.underflow, a.overflow, fmt);
      ghost var start := out;
      out := out + summary;
      out := out + stats;
      WriteRows(a.bins, fmt, Histo1DBinRow);
      WriteClosing("HISTO1D");
      ghost var rows := Rows(a.bins, fmt, Histo1DBinRow);
      AppendAssoc(start, summary, stats);
      AppendAssoc(start, summary + stats, rows);
      AppendAssoc(start, summary + stats + rows, Closing("HISTO1D"));
    }

    method WriteHisto2D(h: P2.Histo2D, mean: Result<(real, real)>, volume: real, fmt: Formatter) returns (o: Outcome)
      modifies this
      ensures o.Pass? <==> mean.Ok? || mean.error == LowStatsError
      ensures o.Fail? ==> o.error == mean.error && out == old(out) + Opening("HISTO2D", h.annotations)
      ensures o.Pass? ==> out == old(out) + Histo2DBlock(h, mean, volume, fmt)
    {
      ghost var start := out;
      WriteOpening("HISTO2D", h.annotations);
      if mean.Err? && mean.error != LowStatsError {
        o := Fail(mean.error);
      } else {
        o := Outcome.Pass;
        WriteHisto2DBody(h, mean, volume, fmt);
        AppendAssoc(start, Opening("HISTO2D", h.annotations), Histo2DBody(h, mean, volume, fmt));
      }
    }

    method WriteHisto2DBody(h: P2.Histo2D, mean: Result<(real, real)>, volume: real, fmt: Formatter)
      modifies this
      ensures out == old(out) + Histo2DBody(h, mean, volume, fmt)
    {
      var summary := Histo2DSummary(mean, volume, fmt);
      var stats := Histo2DStats(h.total, fmt);
      ghost var start := out;
      out := out + summary;
      out := out + stats;
      WriteRows(h.bins, fmt, Histo2DBinRow);
      WriteClosing("HISTO2D");
      ghost var rows := Rows(h.bins, fmt, Histo2DBinRow);
      AppendAssoc(start, summary, stats);
      AppendAssoc(start, summary + stats, rows);
      AppendAssoc(start, summary + stats + rows, Closing("HISTO2D"));
    }

    method WriteProfile1D(p: P1.Profile1D, fmt: Formatter)
      modifies this
      ensures out == old(out) + Profile1DBlock(p, fmt)
    {
      ghost var start := out;
      WriteOpening("PROFILE1D", p.annotations);
      ghost var opening := out[|start|..];
      var stats := Profile1DStats(p.total, p.underflow, p.overflow, fmt);
      out := out + stats;
      WriteRows(p.bins, fmt, Profile1DBinRow);
      WriteClosing("PROFILE1D");
      assert out == start + opening + stats + Rows(p.bins, fmt, Profile1DBinRow) + Closing("PROFILE1D");
    }

    method WriteProfile2D(p: P2.Profile2D, fmt: Formatter)
      modifies this
      ensures out == old(out) + Profile2DBlock(p, fmt)
    {
      WriteOpening("PROFILE2D", p.annotations);
      out := out + Profile2DStats(p.total, fmt);
      WriteRows(p.bins, fmt, Profile2DBinRow);
      WriteClosing("PROFILE2D");
    }

    method WriteScatter1D(s: S1.Scatter1D, fmt: Formatter)
      modifies this
      ensures out == old(out) + Scatter1DBlock(s.annotations, s.points, fmt)
    {
      WriteOpening("SCATTER1D", s.annotations);
      out := out + [Scatter1DHead];
      WriteRows(s.points, fmt, Point1DRow);
      WriteClosing("SCATTER1D");
    }

    method WriteScatter2D(s: S2.Scatter2D, fmt: Formatter)
      modifies this
      ensures out == old(out) + Scatter2DBlock(s.annotations, s.points, fmt)
    {
      WriteOpening("SCATTER2D", s.annotations);
      out := out + [Scatter2DHead];
      WriteRows(s.points, fmt, Point2DRow);
      WriteClosing("SCATTER2D");
    }

    method WriteScatter3D(s: S3.Scatter3D, fmt: Formatter)
      modifies this
      ensures out == old(out) + Scatter3DBlock(s.annotations, s.points, fmt)
    {
      WriteOpening("SCATTER3D", s.annotations);
      out := out + [Scatter3DHead];
      WriteRows(s.points, fmt, Point3DRow);
      WriteClosing("SCATTER3D");
    }
  }

  // ---------------------------------------------------------------------------
  // The rows as the reader's content parser takes them

  /** A bin row comes back as the bin. */
  lemma Histo1DBinRead(b: HistoBin1D, fmt: Formatter, lex: Lexer)
    requires Readable(fmt, lex) && NumberLexer(lex)
    ensures R.ParseRow(Histo1DBinRow(b, fmt), lex) == R.Histo1DBin(b)
  {
    CountedRead([b.xMin, b.xMax] + Dbn1DSums(b.dbn), b.dbn.numFills, fmt, lex);
    R.Histo1DBinLine(Histo1DBinRow(b, fmt), lex);
  }

  /** The total, underflow and overflow rows come back as the three
      distributions. */
  lemma Histo1DOutflowsRead(total: Dbn1D, underflow: Dbn1D, overflow: Dbn1D, fmt: Formatter, lex: Lexer)
    requires Readable(fmt, lex) && NumberLexer(lex)
    ensures R.ParseRow(TotalRow(Dbn1DCols(total, fmt)), lex) == R.Histo1DTotal(total)
    ensures R.ParseRow(UnderflowRow(Dbn1DCols(underflow, fmt)), lex) == R.Histo1DUnderflow(underflow)
    ensures R.ParseRow(OverflowRow(Dbn1DCols(overflow, fmt)), lex) == R.Histo1DOverflow(overflow)
  {
    Histo1DTotalRowRead(total, fmt, lex);
    Histo1DUnderflowRowRead(underflow, fmt, lex);
    Histo1DOverflowRowRead(overflow, fmt, lex);
  }

  lemma Histo1DTotalRowRead(d: Dbn1D, fmt: Formatter, lex: Lexer)
    requires Readable(fmt, lex) && NumberLexer(lex)
    ensures R.ParseRow(TotalRow(Dbn1DCols(d, fmt)), lex) == R.Histo1DTotal(d)
  {
    var line := TotalRow(Dbn1DCols(d, fmt));
    TaggedWord(R.Total);
    TaggedCountedRead(R.Total, "   \t", Dbn1DSums(d), d.numFills, fmt, lex);
    R.Histo1DTaggedLine(line, R.Total, lex);
  }

  lemma Histo1DUnderflowRowRead(d: Dbn1D, fmt: Formatter, lex: Lexer)
    requires Readable(fmt, lex) && NumberLexer(lex)
    ensures R.ParseRow(UnderflowRow(Dbn1DCols(d, fmt)), lex) == R.Histo1DUnderflow(d)
  {
    var line := UnderflowRow(Dbn1DCols(d, fmt));
    TaggedWord(R.Underflow);
    TaggedCountedRead(R.Underflow, "\t", Dbn1DSums(d), d.numFills, fmt, lex);
    R.Histo1DTaggedLine(line, R.Underflow, lex);
  }

  lemma Histo1DOverflowRowRead(d: Dbn1D, fmt: Formatter, lex: Lexer)
    requires Readable(fmt, lex) && NumberLexer(lex)
    ensures R.ParseRow(OverflowRow(Dbn1DCols(d, fmt)), lex) == R.Histo1DOverflow(d)
  {
    var line := OverflowRow(Dbn1DCols(d, fmt));
    TaggedWord(R.Overflow);
    TaggedCountedRead(R.Overflow, "\t", Dbn1DSums(d), d.numFills, fmt, lex);
    R.Histo1DTaggedLine(line, R.Overflow, lex);
  }

  /** The literal words of the total and outflow rows are words. */
  lemma TaggedWord(tag: string)
    requires tag == R.Total || tag == R.Underflow || tag == R.Overflow
    ensures IsWord(tag) && tag[0] != '#'
  {
  }

  /** A Profile1D bin row comes back as the bin without its cross term,
      which the writer does not write. */
  lemma Profile1DBinRead(b: P1.ProfileBin1D, fmt: Formatter, lex: Lexer)
    requires Readable(fmt, lex) && NumberLexer(lex)
    ensures R.ParseRow(Profile1DBinRow(b, fmt), lex) == R.Profile1DBin(b.(dbn := b.dbn.(sumWXY := 0.0)))
  {
    CountedRead([b.xMin, b.xMax] + Profile1DSums(b.dbn), b.dbn.numFills, fmt, lex);
    R.Profile1DBinLine(Profile1DBinRow(b, fmt), lex);
  }

  lemma Profile1DOutflowsRead(total: Dbn2D, underflow: Dbn2D, overflow: Dbn2D, fmt: Formatter, lex: Lexer)
    requires Readable(fmt, lex) && NumberLexer(lex)
    ensures R.ParseRow(TotalRow(Profile1DCols(total, fmt)), lex) == R.Profile1DTotal(total.(sumWXY := 0.0))
    ensures R.ParseRow(UnderflowRow(Profile1DCols(underflow, fmt)), lex) ==
      R.Profile1DUnderflow(underflow.(sumWXY := 0.0))
    ensures R.ParseRow(OverflowRow(Profile1DCols(overflow, fmt)), lex) == R.Profile1DOverflow(overflow.(sumWXY := 0.0))
  {
    Profile1DTotalRowRead(total, fmt, lex);
    Profile1DUnderflowRowRead(underflow, fmt, lex);
    Profile1DOverflowRowRead(overflow, fmt, lex);
  }

  lemma Profile1DTotalRowRead(d: Dbn2D, fmt: Formatter, lex: Lexer)
    requires Readable(fmt, lex) && NumberLexer(lex)
    ensures R.ParseRow(TotalRow(Profile1DCols(d, fmt)), lex) == R.Profile1DTotal(d.(sumWXY := 0.0))
  {
    var line := TotalRow(Profile1DCols(d, fmt));
    TaggedWord(R.Total);
    TaggedCountedRead(R.Total, "   \t", Profile1DSums(d), d.numFills, fmt, lex);
    R.Profile1DTaggedLine(line, R.Total, lex);
  }

  lemma Profile1DUnderflowRowRead(d: Dbn2D, fmt: Formatter, lex: Lexer)
    requires Readable(fmt, lex) && NumberLexer(lex)
    ensures R.ParseRow(UnderflowRow(Profile1DCols(d, fmt)), lex) == R.Profile1DUnderflow(d.(sumWXY := 0.0))
  {
    var line := UnderflowRow(Profile1DCols(d, fmt));
    TaggedWord(R.Underflow);
    TaggedCountedRead(R.Underflow, "\t", Profile1DSums(d), d.numFills, fmt, lex);
    R.Profile1DTaggedLine(line, R.Underflow, lex);
  }

  lemma Profile1DOverflowRowRead(d: Dbn2D, fmt: Formatter, lex: Lexer)
    requires Readable(fmt, lex) && NumberLexer(lex)
    ensures R.ParseRow(OverflowRow(Profile1DCols(d, fmt)), lex) == R.Profile1DOverflow(d.(sumWXY := 0.0))
  {
    var line := OverflowRow(Profile1DCols(d, fmt));
    TaggedWord(R.Overflow);
    TaggedCountedRead(R.Overflow, "\t", Profile1DSums(d), d.numFills, fmt, lex);
    R.Profile1DTaggedLine(line, R.Overflow, lex);
  }

  lemma Histo2DBinRead(b: P2.HistoBin2D, fmt: Formatter, lex: Lexer)
    requires Readable(fmt, lex) && NumberLexer(lex)
    ensures R.ParseRow(Histo2DBinRow(b, fmt), lex) == R.Histo2DBin(b)
  {
    CountedRead([b.xMin, b.xMax, b.yMin, b.yMax] + Histo2DSums(b.dbn), b.dbn.numFills, fmt, lex);
    R.Histo2DBinLine(Histo2DBinRow(b, fmt), lex);
  }

  lemma Histo2DTotalRead(total: Dbn2D, fmt: Formatter, lex: Lexer)
    requires Readable(fmt, lex) && NumberLexer(lex)
    ensures R.ParseRow(TotalRow(Histo2DCols(total, fmt)), lex) == R.Histo2DTotal(total)
  {
    TaggedWord(R.Total);
    TaggedCountedRead(R.Total, "   \t", Histo2DSums(total), total.numFills, fmt, lex);
    R.Histo2DTotalLine(TotalRow(Histo2DCols(total, fmt)), lex);
  }

  /** A Profile2D row comes back without the two cross terms the writer
      leaves out. */
  lemma Profile2DBinRead(b: P2.ProfileBin2D, fmt: Formatter, lex: Lexer)
    requires Readable(fmt, lex) && NumberLexer(lex)
    ensures R.ParseRow(Profile2DBinRow(b, fmt), lex) == R.Profile2DBin(b.(dbn := b.dbn.(sumWXZ := 0.0, sumWYZ := 0.0)))
  {
    CountedRead([b.xMin, b.xMax, b.yMin, b.yMax] + Profile2DSums(b.dbn), b.dbn.numFills, fmt, lex);
    R.Profile2DBinLine(Profile2DBinRow(b, fmt), lex);
  }

  lemma Profile2DTotalRead(total: Dbn3D, fmt: Formatter, lex: Lexer)
    requires Readable(fmt, lex) && NumberLexer(lex)
    ensures R.ParseRow(TotalRow(Profile2DCols(total, fmt)), lex) ==
      R.Profile2DTotal(total.(sumWXZ := 0.0, sumWYZ := 0.0))
  {
    TaggedWord(R.Total);
    TaggedCountedRead(R.Total, "   \t", Profile2DSums(total), total.numFills, fmt, lex);
    R.Profile2DTotalLine(TotalRow(Profile2DCols(total, fmt)), lex);
  }

  /** Scatter1D and Scatter2D point rows come back as the points. */
  lemma Point1DRead(p: Point1D, fmt: Formatter, lex: Lexer)
    requires Readable(fmt, lex) && NumberLexer(lex)
    ensures R.ParseRow(Point1DRow(p, fmt), lex) == R.Scatter1DPoint(p)
  {
    TextsRead([p.x, p.exMinus, p.exPlus], fmt, lex);
    R.Scatter1DPointLine(Point1DRow(p, fmt), lex);
  }

  lemma Point2DRead(p: Point2D, fmt: Formatter, lex: Lexer)
    requires Readable(fmt, lex) && NumberLexer(lex)
    ensures R.ParseRow(Point2DRow(p, fmt), lex) == R.Scatter2DPoint(p)
  {
    TextsRead([p.x, p.exMinus, p.exPlus, p.y, p.eyMinus, p.eyPlus], fmt, lex);
    R.Scatter2DPointLine(Point2DRow(p, fmt), lex);
  }

  // ---------------------------------------------------------------------------
  // What the reader makes of a whole block

  /** No annotation name starts with '#' (an empty name is never written). */
  predicate PlainNames(a: Annotations)
  {
    forall i :: 0 <= i < |a| ==> a[i].0 == [] || a[i].0[0] != '#'
  }

  predicate AllUntagged(lines: seq<string>)
  {
    forall i :: 0 <= i < |lines| ==> Untagged(lines[i])
  }

  lemma UntaggedJoin(a: seq<string>, b: seq<string>)
    requires AllUntagged(a) && AllUntagged(b)
    ensures AllUntagged(a + b)
  {
    forall i | 0 <= i < |a + b| ensures Untagged((a + b)[i]) {
      if i >= |a| {
        assert (a + b)[i] == b[i - |a|];
      }
    }
  }

  lemma OpeningUntagged(kind: string, a: Annotations)
    requires PlainNames(a)
    ensures AllUntagged(Opening(kind, a))
  {
    var k := Kept(a, false);
    KeptFrom(a, false);
    var lines := AnnotationLines(a, false);
    forall i | 0 <= i < |lines| ensures Untagged(lines[i]) {
      assert lines[i] == AnnotationLine(k[i]);
      assert k[i] in a;
      UntaggedByHead(lines[i]);
    }
    var begin := "BEGIN YODA_" + kind + " " + Path(a);
    UntaggedByHead(begin);
    UntaggedJoin([begin], lines);
  }

  lemma ClosingUntagged(kind: string)
    ensures AllUntagged(Closing(kind))
  {
    UntaggedByHead("END YODA_" + kind);
    UntaggedByHead("");
  }

  /** A row that starts with a formatted number. */
  lemma NumberRowUntagged(cols: seq<string>, x: real, fmt: Formatter, lex: Lexer)
    requires Readable(fmt, lex) && NumberLexer(lex)
    requires cols != [] && cols[0] == fmt(x)
    ensures Untagged(Row(cols))
  {
    FormattedWord(fmt, lex, x);
    RowHead(cols);
    UntaggedByHead(Row(cols));
  }

  /** A total or outflow row starts with its tag. */
  lemma TaggedRowUntagged(tag: string, cols: seq<string>)
    requires tag == R.Total || tag == R.Underflow || tag == R.Overflow
    ensures Untagged(TaggedRow(tag, "   \t", cols)) && Untagged(TaggedRow(tag, "\t", cols))
  {
    TaggedWord(tag);
    UntaggedByHead(TaggedRow(tag, "   \t", cols));
    UntaggedByHead(TaggedRow(tag, "\t", cols));
  }

  lemma RowsUntagged<T>(s: seq<T>, fmt: Formatter, row: (T, Formatter) -> string)
    requires forall i :: 0 <= i < |s| ==> Untagged(row(s[i], fmt))
    ensures AllUntagged(Rows(s, fmt, row))
  {
    forall i | 0 <= i < |s| ensures Untagged(Rows(s, fmt, row)[i]) {
      assert Rows(s, fmt, row)[i] == row(s[i], fmt);
    }
  }

  /** A row of formatted numbers never starts with '#'. */
  lemma TextsRowUntagged(xs: seq<real>, fmt: Formatter, lex: Lexer)
    requires Readable(fmt, lex) && NumberLexer(lex) && xs != []
    ensures Untagged(Row(Texts(xs, fmt)))
  {
    NumberRowUntagged(Texts(xs, fmt), xs[0], fmt, lex);
  }

  lemma CountedRowUntagged(xs: seq<real>, n: nat, fmt: Formatter, lex: Lexer)
    requires Readable(fmt, lex) && NumberLexer(lex) && xs != []
    ensures Untagged(Row(Counted(xs, n, fmt)))
  {
    assert Counted(xs, n, fmt)[0] == Texts(xs, fmt)[0];
    NumberRowUntagged(Counted(xs, n, fmt), xs[0], fmt, lex);
  }

  lemma SummaryUntagged(first: string, x: real, rest: string, fmt: Formatter)
    requires |first| > 2 && first[0] == '#' && first[1] == ' ' && first[2] == 'M'
    ensures Untagged(first + fmt(x) + rest)
  {
    var line := first + fmt(x) + rest;
    assert line[0] == first[0] && line[1] == first[1] && line[2] == first[2];
    UntaggedByHead(line);
  }

  lemma Histo1DSummaryUntagged(mean: Result<real>, area: real, fmt: Formatter)
    ensures AllUntagged(Histo1DSummary(mean, area, fmt))
  {
    if mean.Ok? {
      SummaryUntagged("# Mean: ", mean.value, "", fmt);
      UntaggedByHead("# Area: " + fmt(area));
      assert "# Mean: " + fmt(mean.value) == "# Mean: " + fmt(mean.value) + "";
    }
  }

  lemma Histo2DSummaryUntagged(mean: Result<(real, real)>, volume: real, fmt: Formatter)
    ensures AllUntagged(Histo2DSummary(mean, volume, fmt))
  {
    if mean.Ok? {
      SummaryUntagged("# Mean: (", mean.value.0, ", " + fmt(mean.value.1) + ")", fmt);
      AppendAssoc("# Mean: (" + fmt(mean.value.0), ", " + fmt(mean.value.1), ")");
      AppendAssoc("# Mean: (", fmt(mean.value.0), ", " + fmt(mean.value.1) + ")");
      UntaggedByHead("# Volume: " + fmt(volume));
    }
  }

  lemma Histo1DStatsUntagged(total: Dbn1D, underflow: Dbn1D, overflow: Dbn1D, fmt: Formatter)
    ensures AllUntagged(Histo1DStats(total, underflow, overflow, fmt))
  {
    TaggedRowUntagged(R.Total, Dbn1DCols(total, fmt));
    TaggedRowUntagged(R.Underflow, Dbn1DCols(underflow, fmt));
    TaggedRowUntagged(R.Overflow, Dbn1DCols(overflow, fmt));
  }

  lemma Histo2DStatsUntagged(total: Dbn2D, fmt: Formatter)
    ensures AllUntagged(Histo2DStats(total, fmt))
  {
    TaggedRowUntagged(R.Total, Histo2DCols(total, fmt));
  }

  lemma Profile1DStatsUntagged(total: Dbn2D, underflow: Dbn2D, overflow: Dbn2D, fmt: Formatter)
    ensures AllUntagged(Profile1DStats(total, underflow, overflow, fmt))
  {
    TaggedRowUntagged(R.Total, Profile1DCols(total, fmt));
    TaggedRowUntagged(R.Underflow, Profile1DCols(underflow, fmt));
    TaggedRowUntagged(R.Overflow, Profile1DCols(overflow, fmt));
  }

  lemma Profile2DStatsUntagged(total: Dbn3D, fmt: Formatter)
    ensures AllUntagged(Profile2DStats(total, fmt))
  {
    TaggedRowUntagged(R.Total, Profile2DCols(total, fmt));
  }

  lemma Histo1DRowsUntagged(bins: seq<HistoBin1D>, fmt: Formatter, lex: Lexer)
    requires Readable(fmt, lex) && NumberLexer(lex)
    ensures AllUntagged(Rows(bins, fmt, Histo1DBinRow))
  {
    forall i | 0 <= i < |bins| ensures Untagged(Histo1DBinRow(bins[i], fmt)) {
      var b := bins[i];
      CountedRowUntagged([b.xMin, b.xMax] + Dbn1DSums(b.dbn), b.dbn.numFills, fmt, lex);
    }
    RowsUntagged(bins, fmt, Histo1DBinRow);
  }

  lemma Profile1DRowsUntagged(bins: seq<P1.ProfileBin1D>, fmt: Formatter, lex: Lexer)
    requires Readable(fmt, lex) && NumberLexer(lex)
    ensures AllUntagged(Rows(bins, fmt, Profile1DBinRow))
  {
    forall i | 0 <= i < |bins| ensures Untagged(Profile1DBinRow(bins[i], fmt)) {
      var b := bins[i];
      CountedRowUntagged([b.xMin, b.xMax] + Profile1DSums(b.dbn), b.dbn.numFills, fmt, lex);
    }
    RowsUntagged(bins, fmt, Profile1DBinRow);
  }

  lemma Histo2DRowsUntagged(bins: seq<P2.HistoBin2D>, fmt: Formatter, lex: Lexer)
    requires Readable(fmt, lex) && NumberLexer(lex)
    ensures AllUntagged(Rows(bins, fmt, Histo2DBinRow))
  {
    forall i | 0 <= i < |bins| ensures Untagged(Histo2DBinRow(bins[i], fmt)) {
      var b := bins[i];
      CountedRowUntagged([b.xMin, b.xMax, b.yMin, b.yMax] + Histo2DSums(b.dbn), b.dbn.numFills, fmt, lex);
    }
    RowsUntagged(bins, fmt, Histo2DBinRow);
  }

  lemma Profile2DRowsUntagged(bins: seq<P2.ProfileBin2D>, fmt: Formatter, lex: Lexer)
    requires Readable(fmt, lex) && NumberLexer(lex)
    ensures AllUntagged(Rows(bins, fmt, Profile2DBinRow))
  {
    forall i | 0 <= i < |bins| ensures Untagged(Profile2DBinRow(bins[i], fmt)) {
      var b := bins[i];
      CountedRowUntagged([b.xMin, b.xMax, b.yMin, b.yMax] + Profile2DSums(b.dbn), b.dbn.numFills, fmt, lex);
    }
    RowsUntagged(bins, fmt, Profile2DBinRow);
  }

  lemma PointRowsUntagged(p1: seq<Point1D>, p2: seq<Point2D>, p3: seq<Point3D>, fmt: Formatter, lex: Lexer)
    requires Readable(fmt, lex) && NumberLexer(lex)
    ensures AllUntagged(Rows(p1, fmt, Point1DRow))
    ensures AllUntagged(Rows(p2, fmt, Point2DRow))
    ensures AllUntagged(Rows(p3, fmt, Point3DRow))
  {
    forall i | 0 <= i < |p1| ensures Untagged(Point1DRow(p1[i], fmt)) {
      var p := p1[i];
      TextsRowUntagged([p.x, p.exMinus, p.exPlus], fmt, lex);
    }
    forall i | 0 <= i < |p2| ensures Untagged(Point2DRow(p2[i], fmt)) {
      var p := p2[i];
      TextsRowUntagged([p.x, p.exMinus, p.exPlus, p.y, p.eyMinus, p.eyPlus], fmt, lex);
    }
    forall i | 0 <= i < |p3| ensures Untagged(Point3DRow(p3[i], fmt)) {
      var p := p3[i];
      TextsRowUntagged([p.x, p.exMinus, p.exPlus, p.y, p.eyMinus, p.eyPlus, p.z, p.ezMinus, p.ezPlus], fmt, lex);
    }
    RowsUntagged(p1, fmt, Point1DRow);
    RowsUntagged(p2, fmt, Point2DRow);
    RowsUntagged(p3, fmt, Point3DRow);
  }

  lemma CounterBlockUntagged(a: Annotations, d: Dbn0D, fmt: Formatter, lex: Lexer)
    requires Readable(fmt, lex) && NumberLexer(lex) && PlainNames(a)
    ensures AllUntagged(CounterBlock(a, d, fmt))
  {
    OpeningUntagged("COUNTER", a);
    TextsRowUntagged([d.sumW, d.sumW2, d.numFills as real], fmt, lex);
    UntaggedJoin(Opening("COUNTER", a), [CounterHead, Row(CounterCols(d, fmt))]);
    ClosingUntagged("COUNTER");
    UntaggedJoin(Opening("COUNTER", a) + [CounterHead, Row(CounterCols(d, fmt))], Closing("COUNTER"));
  }

  lemma Histo1DBlockUntagged(a: Annotations, bins: seq<HistoBin1D>, total: Dbn1D, underflow: Dbn1D, overflow: Dbn1D,
                             mean: Result<real>, area: real, fmt: Formatter, lex: Lexer)
    requires Readable(fmt, lex) && NumberLexer(lex) && PlainNames(a)
    ensures AllUntagged(Histo1DBlock(a, bins, total, underflow, overflow, mean, area, fmt))
  {
    var summary := Histo1DSummary(mean, area, fmt);
    var stats := Histo1DStats(total, underflow, overflow, fmt);
    var rows := Rows(bins, fmt, Histo1DBinRow);
    Histo1DSummaryUntagged(mean, area, fmt);
    Histo1DStatsUntagged(total, underflow, overflow, fmt);
    Histo1DRowsUntagged(bins, fmt, lex);
    ClosingUntagged("HISTO1D");
    UntaggedJoin(summary, stats);
    UntaggedJoin(summary + stats, rows);
    UntaggedJoin(summary + stats + rows, Closing("HISTO1D"));
    OpeningUntagged("HISTO1D", a);
    UntaggedJoin(Opening("HISTO1D", a), Histo1DBody(bins, total, underflow, overflow, mean, area, fmt));
  }

  lemma Histo2DBlockUntagged(h: P2.Histo2D, mean: Result<(real, real)>, volume: real, fmt: Formatter, lex: Lexer)
    requires Readable(fmt, lex) && NumberLexer(lex) && PlainNames(h.annotations)
    ensures AllUntagged(Histo2DBlock(h, mean, volume, fmt))
  {
    var summary := Histo2DSummary(mean, volume, fmt);
    var stats := Histo2DStats(h.total, fmt);
    var rows := Rows(h.bins, fmt, Histo2DBinRow);
    Histo2DSummaryUntagged(mean, volume, fmt);
    Histo2DStatsUntagged(h.total, fmt);
    Histo2DRowsUntagged(h.bins, fmt, lex);
    ClosingUntagged("HISTO2D");
    UntaggedJoin(summary, stats);
    UntaggedJoin(summary + stats, rows);
    UntaggedJoin(summary + stats + rows, Closing("HISTO2D"));
    OpeningUntagged("HISTO2D", h.annotations);
    UntaggedJoin(Opening("HISTO2D", h.annotations), Histo2DBody(h, mean, volume, fmt));
  }

  lemma Profile1DBlockUntagged(p: P1.Profile1D, fmt: Formatter, lex: Lexer)
    requires Readable(fmt, lex) && NumberLexer(lex) && PlainNames(p.annotations)
    ensures AllUntagged(Profile1DBlock(p, fmt))
  {
    var opening := Opening("PROFILE1D", p.annotations);
    var stats := Profile1DStats(p.total, p.underflow, p.overflow, fmt);
    var rows := Rows(p.bins, fmt, Profile1DBinRow);
    OpeningUntagged("PROFILE1D", p.annotations);
    Profile1DStatsUntagged(p.total, p.underflow, p.overflow, fmt);
    Profile1DRowsUntagged(p.bins, fmt, lex);
    ClosingUntagged("PROFILE1D");
    UntaggedJoin(opening, stats);
    UntaggedJoin(opening + stats, rows);
    UntaggedJoin(opening + stats + rows, Closing("PROFILE1D"));
  }

  lemma Profile2DBlockUntagged(p: P2.Profile2D, fmt: Formatter, lex: Lexer)
    requires Readable(fmt, lex) && NumberLexer(lex) && PlainNames(p.annotations)
    ensures AllUntagged(Profile2DBlock(p, fmt))
  {
    var opening := Opening("PROFILE2D", p.annotations);
    var stats := Profile2DStats(p.total, fmt);
    var rows := Rows(p.bins, fmt, Profile2DBinRow);
    OpeningUntagged("PROFILE2D", p.annotations);
    Profile2DStatsUntagged(p.total, fmt);
    Profile2DRowsUntagged(p.bins, fmt, lex);
    ClosingUntagged("PROFILE2D");
    UntaggedJoin(opening, stats);
    UntaggedJoin(opening + stats, rows);
    UntaggedJoin(opening + stats + rows, Closing("PROFILE2D"));
  }

  lemma ScatterBlocksUntagged(a: Annotations, p1: seq<Point1D>, p2: seq<Point2D>, p3: seq<Point3D>,
                              fmt: Formatter, lex: Lexer)
    requires Readable(fmt, lex) && NumberLexer(lex) && PlainNames(a)
    ensures AllUntagged(Scatter1DBlock(a, p1, fmt))
    ensures AllUntagged(Scatter2DBlock(a, p2, fmt))
    ensures AllUntagged(Scatter3DBlock(a, p3, fmt))
  {
    PointRowsUntagged(p1, p2, p3, fmt, lex);
    OpeningUntagged("SCATTER1D", a);
    OpeningUntagged("SCATTER2D", a);
    OpeningUntagged("SCATTER3D", a);
    ClosingUntagged("SCATTER1D");
    ClosingUntagged("SCATTER2D");
    ClosingUntagged("SCATTER3D");
    UntaggedJoin(Opening("SCATTER1D", a), [Scatter1DHead]);
    UntaggedJoin(Opening("SCATTER1D", a) + [Scatter1DHead], Rows(p1, fmt, Point1DRow));
    UntaggedJoin(Opening("SCATTER1D", a) + [Scatter1DHead] + Rows(p1, fmt, Point1DRow), Closing("SCATTER1D"));
    UntaggedJoin(Opening("SCATTER2D", a), [Scatter2DHead]);
    UntaggedJoin(Opening("SCATTER2D", a) + [Scatter2DHead], Rows(p2, fmt, Point2DRow));
    UntaggedJoin(Opening("SCATTER2D", a) + [Scatter2DHead] + Rows(p2, fmt, Point2DRow), Closing("SCATTER2D"));
    UntaggedJoin(Opening("SCATTER3D", a), [Scatter3DHead]);
    UntaggedJoin(Opening("SCATTER3D", a) + [Scatter3DHead], Rows(p3, fmt, Point3DRow));
    UntaggedJoin(Opening("SCATTER3D", a) + [Scatter3DHead] + Rows(p3, fmt, Point3DRow), Closing("SCATTER3D"));
  }

  /** The writer and the reader disagree on the block header: the writer
      opens a block with "BEGIN YODA_..." and closes it with "END YODA_...",
      while the reader only starts a group on a line beginning "# BEGIN ".
      So a fresh read of written lines with no group tag in them yields no
      object and leaves the reader as it was. */
  lemma WrittenLinesUnread(lines: seq<string>, ends: set<int>, records: R.Records, lex: Lexer)
    requires AllUntagged(lines)
    ensures R.Run(R.Start(ends, records), lines, lex) == (R.Start(ends, records), [], Outcome.Pass)
  {
    R.RunOutside(R.Start(ends, records), lines, lex);
  }

  /** A written Histo1D block in particular. */
  lemma Histo1DBlockUnread(a: Annotations, bins: seq<HistoBin1D>, total: Dbn1D, underflow: Dbn1D, overflow: Dbn1D,
                           mean: Result<real>, area: real, fmt: Formatter, lex: Lexer,
                           ends: set<int>, records: R.Records)
    requires Readable(fmt, lex) && NumberLexer(lex) && PlainNames(a)
    ensures var lines := Histo1DBlock(a, bins, total, underflow, overflow, mean, area, fmt);
      R.Run(R.Start(ends, records), lines, lex) == (R.Start(ends, records), [], Outcome.Pass)
  {
    Histo1DBlockUntagged(a, bins, total, underflow, overflow, mean, area, fmt, lex);
    WrittenLinesUnread(Histo1DBlock(a, bins, total, underflow, overflow, mean, area, fmt), ends, records, lex);
  }
}
