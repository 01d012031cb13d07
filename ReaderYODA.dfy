/** The reader of the .yoda text format (src/ReaderYODA.cc,
    include/YODA/ReaderYODA.h).

    Each line is first offered to the group grammar (module Groups); then,
    inside a block, it is parsed as a content row, whose action stores what
    it read in the reader's records; on the first line after a block the
    records become one object and are cleared. The records and the two
    symbol tables are static members in the source, so they outlive a read:
    here they are the fields of the reader object.

    Numbers are whitespace-separated words judged as a whole by the `lex`
    parameter (double_); counts are decimal words below 2^64 (ulong_).
    The object the source constructs from the records is modelled by the
    arguments it is constructed from, with the sorting of the scatter point
    vectors and the annotations set on it. */
module ReaderYODA {
  import opened Wrappers
  import opened Dbn
  import opened Bins
  import opened Points
  import opened SortedVector
  import opened AnalysisObject
  import opened Lines
  import opened LineGrammar
  import opened Groups
  import opened AxisLayout
  import S2 = Scatter2DConversions
  import S3 = Scatter3DConversions

  // ---------------------------------------------------------------------------
  // Content rows

  /** What one line of a block is, rule by rule of yoda_grammar::line. */
  datatype Row =
    | Profile2DBin(p2Bin: S3.ProfileBin2D)
    | Profile2DTotal(d3: Dbn3D)
    | Histo2DBin(h2Bin: S3.HistoBin2D)
    | Histo2DTotal(d2: Dbn2D)
    | Profile1DBin(p1Bin: S2.ProfileBin1D)
    | Profile1DTotal(d2: Dbn2D)
    | Profile1DUnderflow(d2: Dbn2D)
    | Profile1DOverflow(d2: Dbn2D)
    | Histo1DBin(h1Bin: HistoBin1D)
    | Histo1DTotal(d1: Dbn1D)
    | Histo1DUnderflow(d1: Dbn1D)
    | Histo1DOverflow(d1: Dbn1D)
    | Scatter2DPoint(pt2: Point2D)
    | Scatter1DPoint(pt1: Point1D)
    | KeyVal(key: string, value: string)
    | Comment
    | Unparsed

  const Total := "Total"
  const Underflow := "Underflow"
  const Overflow := "Overflow"

  /** The distributions of the rows, in column order: the sums, then the
      fill count. The profiles carry no cross term. */
  function Histo1DDbn(v: seq<real>, n: ULong): Dbn1D
    requires |v| == 4
  {
    Dbn1D(n, v[0], v[1], v[2], v[3])
  }

  function Profile1DDbn(v: seq<real>, n: ULong): Dbn2D
    requires |v| == 6
  {
    Dbn2D(n, v[0], v[1], v[2], v[3], v[4], v[5], 0.0)
  }

  function Histo2DDbn(v: seq<real>, n: ULong): Dbn2D
    requires |v| == 7
  {
    Dbn2D(n, v[0], v[1], v[2], v[3], v[4], v[5], v[6])
  }

  function Profile2DDbn(v: seq<real>, n: ULong): Dbn3D
    requires |v| == 9
  {
    Dbn3D(n, v[0], v[1], v[2], v[3], v[4], v[5], v[6], v[7], v[8], 0.0, 0.0)
  }

  /** The statistics rules, longest first: `lead` literal words, k numbers
      and a count. The first that matches the front of the line wins. */
  function StatsRow(toks: seq<string>, lex: Lexer): Option<Row>
  {
    var p2b := LeadNumbersCount(toks, [], 13, lex);
    if p2b.Some? then
      var v := p2b.value.0;
      Some(Profile2DBin(S3.ProfileBin2D(v[0], v[1], v[2], v[3], Profile2DDbn(v[4..], p2b.value.1))))
    else
    var p2t := LeadNumbersCount(toks, [Total, Total], 9, lex);
    if p2t.Some? then Some(Profile2DTotal(Profile2DDbn(p2t.value.0, p2t.value.1)))
    else
    var h2b := LeadNumbersCount(toks, [], 11, lex);
    if h2b.Some? then
      var v := h2b.value.0;
      Some(Histo2DBin(S3.HistoBin2D(v[0], v[1], v[2], v[3], Histo2DDbn(v[4..], h2b.value.1))))
    else
    var h2t := LeadNumbersCount(toks, [Total, Total], 7, lex);
    if h2t.Some? then Some(Histo2DTotal(Histo2DDbn(h2t.value.0, h2t.value.1)))
    else
    var p1b := LeadNumbersCount(toks, [], 8, lex);
    if p1b.Some? then
      var v := p1b.value.0;
      Some(Profile1DBin(S2.ProfileBin1D(v[0], v[1], Profile1DDbn(v[2..], p1b.value.1))))
    else
    var p1t := LeadNumbersCount(toks, [Total, Total], 6, lex);
    if p1t.Some? then Some(Profile1DTotal(Profile1DDbn(p1t.value.0, p1t.value.1)))
    else
    var p1u := LeadNumbersCount(toks, [Underflow, Underflow], 6, lex);
    if p1u.Some? then Some(Profile1DUnderflow(Profile1DDbn(p1u.value.0, p1u.value.1)))
    else
    var p1o := LeadNumbersCount(toks, [Overflow, Overflow], 6, lex);
    if p1o.Some? then Some(Profile1DOverflow(Profile1DDbn(p1o.value.0, p1o.value.1)))
    else
    Histo1DRow(toks, lex)
  }

  function Histo1DRow(toks: seq<string>, lex: Lexer): Option<Row>
  {
    var h1b := LeadNumbersCount(toks, [], 6, lex);
    if h1b.Some? then
      var v := h1b.value.0;
      Some(Histo1DBin(HistoBin1D(v[0], v[1], Histo1DDbn(v[2..], h1b.value.1))))
    else
    var h1t := LeadNumbersCount(toks, [Total, Total], 4, lex);
    if h1t.Some? then Some(Histo1DTotal(Histo1DDbn(h1t.value.0, h1t.value.1)))
    else
    var h1u := LeadNumbersCount(toks, [Underflow, Underflow], 4, lex);
    if h1u.Some? then Some(Histo1DUnderflow(Histo1DDbn(h1u.value.0, h1u.value.1)))
    else
    var h1o := LeadNumbersCount(toks, [Overflow, Overflow], 4, lex);
    if h1o.Some? then Some(Histo1DOverflow(Histo1DDbn(h1o.value.0, h1o.value.1)))
    else None
  }

  /** The point rules: x exminus explus y eyminus eyplus, then x exminus
      explus. */
  function PointRow(toks: seq<string>, lex: Lexer): Option<Row>
  {
    var s2 := Numbers(toks, 6, lex);
    if s2.Some? then
      var v := s2.value;
      Some(Scatter2DPoint(Point2D(v[0], v[3], v[1], v[2], v[4], v[5])))
    else
    var s1 := Numbers(toks, 3, lex);
    if s1.Some? then Some(Scatter1DPoint(Point1D(s1.value[0], s1.value[1], s1.value[2])))
    else None
  }

  /** yoda_grammar::line: the data rules, then a key=value annotation, then a
      comment; a line none of them matches is reported and skipped. */
  function ParseRow(line: string, lex: Lexer): Row
  {
    var toks := Tokens(line);
    var st := StatsRow(toks, lex);
    if st.Some? then st.value
    else
    var pt := PointRow(toks, lex);
    if pt.Some? then pt.value
    else
    match KeyValue(line)
    case Some(kv) => KeyVal(kv.0, kv.1)
    case None => if IsComment(line) then Comment else Unparsed
  }

  // ---------------------------------------------------------------------------
  // The records the actions fill

  datatype Records = Records(
    h1Bins: seq<HistoBin1D>, h1Total: Dbn1D, h1Underflow: Dbn1D, h1Overflow: Dbn1D,
    h2Bins: seq<S3.HistoBin2D>, h2Total: Dbn2D,
    p1Bins: seq<S2.ProfileBin1D>, p1Total: Dbn2D, p1Underflow: Dbn2D, p1Overflow: Dbn2D,
    p2Bins: seq<S3.ProfileBin2D>, p2Total: Dbn3D,
    s1Points: seq<Point1D>, s2Points: seq<Point2D>,
    annotations: Annotations)

  /** cleanup(): no bins, no points, no annotations, every distribution
      reset. This is also the records' state before the first read. */
  function Cleared(): (r: Records)
    ensures r.h1Bins == [] && r.h2Bins == [] && r.p1Bins == [] && r.p2Bins == []
    ensures r.s1Points == [] && r.s2Points == [] && r.annotations == []
    ensures r.h1Total == r.h1Underflow == r.h1Overflow == Zero1D()
    ensures r.h2Total == r.p1Total == r.p1Underflow == r.p1Overflow == Zero2D() && r.p2Total == Zero3D()
  {
    Records([], Zero1D(), Zero1D(), Zero1D(), [], Zero2D(), [], Zero2D(), Zero2D(), Zero2D(), [], Zero3D(), [], [], [])
  }

  /** The action of a row: bins and points are pushed back, the total and
      outflow distributions are replaced, an annotation is set (an existing
      key is overwritten); comments and unparsed lines change nothing. */
  function ApplyRow(r: Records, row: Row): Records
  {
    match row
    case Profile2DBin(b) => r.(p2Bins := r.p2Bins + [b])
    case Profile2DTotal(d) => r.(p2Total := d)
    case Histo2DBin(b) => r.(h2Bins := r.h2Bins + [b])
    case Histo2DTotal(d) => r.(h2Total := d)
    case Profile1DBin(b) => r.(p1Bins := r.p1Bins + [b])
    case Profile1DTotal(d) => r.(p1Total := d)
    case Profile1DUnderflow(d) => r.(p1Underflow := d)
    case Profile1DOverflow(d) => r.(p1Overflow := d)
    case Histo1DBin(b) => r.(h1Bins := r.h1Bins + [b])
    case Histo1DTotal(d) => r.(h1Total := d)
    case Histo1DUnderflow(d) => r.(h1Underflow := d)
    case Histo1DOverflow(d) => r.(h1Overflow := d)
    case Scatter2DPoint(p) => r.(s2Points := r.s2Points + [p])
    case Scatter1DPoint(p) => r.(s1Points := r.s1Points + [p])
    case KeyVal(k, v) => r.(annotations := SetAnn(r.annotations, k, v))
    case Comment => r
    case Unparsed => r
  }

  function ParseRows(lines: seq<string>, lex: Lexer): (rows: seq<Row>)
    ensures |rows| == |lines| && forall i :: 0 <= i < |lines| ==> rows[i] == ParseRow(lines[i], lex)
  {
    Map(lines, RowParser(lex))
  }

  function RowParser(lex: Lexer): string -> Row
  {
    line => ParseRow(line, lex)
  }

  lemma ParseRowsAppend(a: seq<string>, b: seq<string>, lex: Lexer)
    ensures ParseRows(a + b, lex) == ParseRows(a, lex) + ParseRows(b, lex)
  {
    MapAppend(a, b, RowParser(lex));
  }

  /** The rows' actions, in file order. */
  function ApplyRows(r: Records, rows: seq<Row>): Records
  {
    if rows == [] then r else ApplyRow(ApplyRows(r, rows[..|rows| - 1]), rows[|rows| - 1])
  }

  // ---------------------------------------------------------------------------
  // The objects built when a block is left

  /** What the source constructs: a Histo1D, Histo2D, Profile1D or Profile2D
      from its bins and distributions (the 2D ones with eight empty outflow
      distributions), a Scatter1D or Scatter2D from its point vector, which
      the sorted-vector conversion sorts; then the records' annotations are
      set on it one by one. */
  datatype ReadObject =
    | ReadHisto1D(h1Bins: seq<HistoBin1D>, h1Total: Dbn1D, h1Underflow: Dbn1D, h1Overflow: Dbn1D, annotations: Annotations)
    | ReadHisto2D(h2Bins: seq<S3.HistoBin2D>, h2Total: Dbn2D, annotations: Annotations)
    | ReadProfile1D(p1Bins: seq<S2.ProfileBin1D>, p1Total: Dbn2D, p1Underflow: Dbn2D, p1Overflow: Dbn2D,
                    annotations: Annotations)
    | ReadProfile2D(p2Bins: seq<S3.ProfileBin2D>, p2Total: Dbn3D, annotations: Annotations)
    | ReadScatter1D(s1Points: seq<Point1D>, annotations: Annotations)
    | ReadScatter2D(s2Points: seq<Point2D>, annotations: Annotations)

  function TypeName(g: int): string
    requires 1 <= g <= 6
  {
    ["Histo1D", "Histo2D", "Profile1D", "Profile2D", "Scatter1D", "Scatter2D"][g - 1]
  }

  /** The edges of a profile bin, as an empty bin of the same range: the
      axis layout looks at the edges only. */
  function ProfileEdges(b: S2.ProfileBin1D): HistoBin1D
  {
    HistoBin1D(b.xMin, b.xMax, Zero1D())
  }

  function ProfileEdgesAll(s: seq<S2.ProfileBin1D>): (r: seq<HistoBin1D>)
    ensures |r| == |s| && forall i :: 0 <= i < |s| ==> r[i] == ProfileEdges(s[i])
  {
    seq(|s|, i requires 0 <= i < |s| => ProfileEdges(s[i]))
  }

  /** The bin order on profile bins: by lower edge, then by upper edge. */
  predicate ProfileLess(a: S2.ProfileBin1D, b: S2.ProfileBin1D)
  {
    BinLess(ProfileEdges(a), ProfileEdges(b))
  }

  /** The profile bin vector as the Profile1D's axis sorts it. */
  function SortProfileBins(s: seq<S2.ProfileBin1D>): seq<S2.ProfileBin1D>
  {
    SortAll(s, ProfileLess)
  }

  /** What _updateAxis rejects with a RangeError: sorted bins of proper width
      of which one overlaps the one before it. */
  predicate AxisRejects(sorted: seq<HistoBin1D>)
  {
    ValidBins(sorted) && Layout(sorted).Err?
  }

  /** The object of group g (1 to 6) from the records. The Histo1D and the
      Profile1D are built on an Axis1D, which sorts the bins and throws a
      RangeError, out of the read, when two of them overlap. */
  function Emit(r: Records, g: int): (o: Result<ReadObject>)
    requires 1 <= g <= 6
    ensures o.Err? <==> (g == 1 && AxisRejects(SortBins(r.h1Bins)))
                        || (g == 3 && AxisRejects(ProfileEdgesAll(SortProfileBins(r.p1Bins))))
    ensures o.Err? ==> o.error == RangeError
    ensures o.Ok? ==> o.value.annotations == Overlaid(Fresh(TypeName(g)), r.annotations)
  {
    var anns := Overlaid(Fresh(TypeName(g)), r.annotations);
    if g == 1 then
      var bins := SortBins(r.h1Bins);
      if AxisRejects(bins) then Err(RangeError)
      else Ok(ReadHisto1D(bins, r.h1Total, r.h1Underflow, r.h1Overflow, anns))
    else if g == 2 then Ok(ReadHisto2D(r.h2Bins, r.h2Total, anns))
    else if g == 3 then
      var bins := SortProfileBins(r.p1Bins);
      if AxisRejects(ProfileEdgesAll(bins)) then Err(RangeError)
      else Ok(ReadProfile1D(bins, r.p1Total, r.p1Underflow, r.p1Overflow, anns))
    else if g == 4 then Ok(ReadProfile2D(r.p2Bins, r.p2Total, anns))
    else if g == 5 then Ok(ReadScatter1D(SortAll(r.s1Points, Less1), anns))
    else Ok(ReadScatter2D(SortAll(r.s2Points, Less2), anns))
  }

  // ---------------------------------------------------------------------------
  // The read loop

  /** The group names and their ids, 1 to 8. */
  function YodaGroups(): seq<string>
  {
    ["YODA_HISTO1D", "YODA_HISTO2D", "YODA_PROFILE1D", "YODA_PROFILE2D",
     "YODA_SCATTER1D", "YODA_SCATTER2D", "YODA_SCATTER3D", "YODA_COUNTER"]
  }

  datatype Machine = Machine(ctx: Context, records: Records)

  /** The result of some passes of the loop: the state, the objects pushed
      on aos, and whether a RangeError out of a constructor ended the read. */
  type Progress = (Machine, seq<ReadObject>, Outcome)

  /** One pass of the loop body: the group line check, then by context
      either the content parse (inside any block, the BEGIN line included),
      or, on the first line after a Histo1D to Scatter2D block, the object
      and the cleanup. A constructor that throws leaves the context switched
      and the records as they were. Leaving a Scatter3D or Counter block
      builds nothing and keeps the records. */
  function Step(m: Machine, line: string, lex: Lexer): Progress
  {
    var c := Regroup(m.ctx, MatchGroup(line, YodaGroups(), m.ctx.beginsOn, m.ctx.ends));
    if 1 <= c.context <= 8 then (Machine(c, ApplyRow(m.records, ParseRow(line, lex))), [], Outcome.Pass)
    else if -6 <= c.context <= -1 && c.contextChange then
      match Emit(m.records, -c.context)
      case Ok(o) => (Machine(c.(contextChange := false), Cleared()), [o], Outcome.Pass)
      case Err(e) => (Machine(c, m.records), [], Fail(e))
    else (Machine(c, m.records), [], Outcome.Pass)
  }

  /** A loop over lines with a given body that may throw: the final state
      and the objects the passes produced, in order; after a throw no
      further line is looked at. */
  function Fold(m: Machine, lines: seq<string>, step: (Machine, string) -> Progress): Progress
  {
    if lines == [] then (m, [], Outcome.Pass)
    else
      var prev := Fold(m, lines[..|lines| - 1], step);
      if prev.2.Fail? then prev
      else
        var last := step(prev.0, lines[|lines| - 1]);
        (last.0, prev.1 + last.1, last.2)
  }

  /** The read loop: Step over every line. */
  function Run(m: Machine, lines: seq<string>, lex: Lexer): Progress
  {
    Fold(m, lines, (mm: Machine, line: string) => Step(mm, line, lex))
  }

  /** The state a read starts from: context 0, the BEGIN table filled, the
      END table and the records left from before. */
  function Start(ends: set<int>, records: Records): Machine
  {
    Machine(Context(0, false, true, ends), records)
  }

  lemma RunSnoc(m: Machine, lines: seq<string>, i: nat, lex: Lexer)
    requires i < |lines|
    ensures var prev := Run(m, lines[..i], lex); var last := Step(prev.0, lines[i], lex);
      Run(m, lines[..i + 1], lex) == if prev.2.Fail? then prev else (last.0, prev.1 + last.1, last.2)
  {
    assert lines[..i + 1][..i] == lines[..i];
  }

  class ReaderYODA {
    var records: Records
    var beginsOn: bool
    var ends: set<int>

    /** The static members before any read: empty tables and records. */
    constructor ()
      ensures records == Cleared() && !beginsOn && ends == {}
    {
      records := Cleared();
      beginsOn := false;
      ends := {};
    }

    /** _readDoc over the lines of the stream: the objects pushed on aos
        before the read ended, and the RangeError that ended it early, if
        one did. */
    method ReadDoc(lines: seq<string>, lex: Lexer) returns (aos: seq<ReadObject>, outcome: Outcome)
      modifies this
      ensures var r := Run(Start(old(ends), old(records)), lines, lex);
        aos == r.1 && outcome == r.2 && records == r.0.records && beginsOn == r.0.ctx.beginsOn && ends == r.0.ctx.ends
    {
      var start := Start(ends, records);
      var m := start;
      aos := [];
      outcome := Outcome.Pass;
      var i := 0;
      while i < |lines| && outcome.Pass?
        invariant 0 <= i <= |lines|
        invariant Run(start, lines[..i], lex) == (m, aos, outcome)
      {
        var emitted;
        m, emitted, outcome := StepLine(m, lines[i], lex);
        aos := aos + emitted;
        RunSnoc(start, lines, i, lex);
        i := i + 1;
      }
      if outcome.Fail? {
        RunStopped(start, lines, i, lex);
      } else {
        assert lines[..i] == lines;
      }
      records, beginsOn, ends := m.records, m.ctx.beginsOn, m.ctx.ends;
    }

    /** One turn of the _readDoc loop: the group table consulted, the context
        switched, then the line parsed into the records or, on the line after
        a block, the object built from them and the records cleared. */
    static method StepLine(m: Machine, s: string, lex: Lexer) returns (next: Machine, emitted: seq<ReadObject>, outcome: Outcome)
      ensures (next, emitted, outcome) == Step(m, s, lex)
    {
      var context, contextChange, beginsOn, ends := m.ctx.context, m.ctx.contextChange, m.ctx.beginsOn, m.ctx.ends;
      var records := m.records;
      var newContext := MatchGroup(s, YodaGroups(), beginsOn, ends);
      if newContext.Some? {
        context := newContext.value;
        if context > 0 {
          beginsOn := false;
          ends := ends + {context};
        }
        if context < 0 {
          ends := ends - {-context};
          beginsOn := true;
          contextChange := true;
        }
      }
      assert Context(context, contextChange, beginsOn, ends) == Regroup(m.ctx, newContext);
      emitted := [];
      outcome := Outcome.Pass;
      if 1 <= context <= 8 {
        records := ApplyRow(records, ParseRow(s, lex));
      } else if -6 <= context <= -1 && contextChange {
        var o := Emit(records, -context);
        if o.Err? {
          outcome := Fail(o.error);
        } else {
          emitted := [o.value];
          records := Cleared();
          contextChange := false;
        }
      }
      next := Machine(Context(context, contextChange, beginsOn, ends), records);
    }

    /** read(stream): the lines as safe_getline delivers them, then the
        document loop. */
    method Read(text: string, lex: Lexer) returns (aos: seq<ReadObject>, outcome: Outcome)
      modifies this
      ensures var r := Run(Start(old(ends), old(records)), LinesOf(text), lex);
        aos == r.1 && outcome == r.2 && records == r.0.records && beginsOn == r.0.ctx.beginsOn && ends == r.0.ctx.ends
    {
      var lines := ReadLines(text);
      aos, outcome := ReadDoc(lines, lex);
    }
  }

  // ---------------------------------------------------------------------------
  // Properties

  /** No group name is a prefix of another. */
  lemma YodaGroupsPrefixFree()
    ensures PrefixFree(YodaGroups())
  {
    var names := YodaGroups();
    forall g, h | 0 <= g < |names| && 0 <= h < |names| && g != h
      ensures !IsPrefix(names[g], names[h])
    {
      if |names[g]| <= |names[h]| {
        assert names[h][..|names[g]|] != names[g] by {
          var family := [0, 0, 1, 1, 2, 2, 2, 3];
          var k := if family[g] != family[h] then 5 else if family[g] == 0 then 10 else 12;
          assert names[h][k] != names[g][k];
        }
      }
    }
  }

  /** A BEGIN line of a known group, met while the BEGIN table is on, opens
      the block: the context is the group, the BEGIN table goes off, the
      group waits for its END, and the line itself is parsed as content. */
  lemma EnterBlock(m: Machine, g: int, rest: string, lex: Lexer)
    requires m.ctx.beginsOn && 1 <= g <= 8
    ensures var line := BeginLine(YodaGroups(), g, rest);
      Step(m, line, lex) ==
        (Machine(Context(g, m.ctx.contextChange, false, m.ctx.ends + {g}), ApplyRow(m.records, ParseRow(line, lex))), [],
         Outcome.Pass)
  {
    YodaGroupsPrefixFree();
    BeginMatches(YodaGroups(), g, rest, true, m.ctx.ends);
  }

  /** Inside a block a BEGIN line is only content: the block stays open. */
  lemma BeginInsideBlock(m: Machine, g: int, rest: string, lex: Lexer)
    requires !m.ctx.beginsOn && 1 <= m.ctx.context <= 8 && 1 <= g <= 8
    ensures var line := BeginLine(YodaGroups(), g, rest);
      Step(m, line, lex) == (Machine(m.ctx, ApplyRow(m.records, ParseRow(line, lex))), [], Outcome.Pass)
  {
    YodaGroupsPrefixFree();
    BeginMatches(YodaGroups(), g, rest, false, m.ctx.ends);
  }

  /** The END line of an open block closes it. For a Histo1D to Scatter2D
      block that line emits the one object built from the records and clears
      them, or ends the read with the constructor's RangeError, the records
      kept; for a Scatter3D or Counter block nothing is built and the
      records, annotations included, carry over to whatever is read next. */
  lemma LeaveBlock(m: Machine, g: int, rest: string, lex: Lexer)
    requires 1 <= g <= 8 && g in m.ctx.ends
    ensures var r := Step(m, EndLine(YodaGroups(), g, rest), lex);
      if g <= 6 then Closed(m, g, r)
      else r == (Machine(Context(-g, true, true, m.ctx.ends - {g}), m.records), [], Outcome.Pass)
  {
    YodaGroupsPrefixFree();
    EndMatches(YodaGroups(), g, rest, m.ctx.beginsOn, m.ctx.ends);
    StepCloses(m, EndLine(YodaGroups(), g, rest), lex, g);
  }

  /** What closing a Histo1D to Scatter2D block from state m, its records
      the block's, gives: the object and the cleanup, or the RangeError. */
  predicate Closed(m: Machine, g: int, r: Progress)
    requires 1 <= g <= 6
  {
    match Emit(m.records, g)
    case Ok(o) => r == (Machine(Context(-g, false, true, m.ctx.ends - {g}), Cleared()), [o], Outcome.Pass)
    case Err(_) => r == (Machine(Context(-g, true, true, m.ctx.ends - {g}), m.records), [], Fail(RangeError))
  }

  /** Step on a line that the group table reads as closing group g. */
  lemma StepCloses(m: Machine, line: string, lex: Lexer, g: int)
    requires 1 <= g <= 8 && MatchGroup(line, YodaGroups(), m.ctx.beginsOn, m.ctx.ends) == Some(-g)
    ensures var r := Step(m, line, lex);
      if g <= 6 then Closed(m, g, r)
      else r == (Machine(Context(-g, true, true, m.ctx.ends - {g}), m.records), [], Outcome.Pass)
  {
    var c := Regroup(m.ctx, Some(-g));
    assert c == Context(-g, true, true, m.ctx.ends - {g});
  }

  /** Inside a block the END line of a group that is not open is only
      content. */
  lemma EndOfOtherGroup(m: Machine, g: int, rest: string, lex: Lexer)
    requires 1 <= m.ctx.context <= 8 && !m.ctx.beginsOn && 1 <= g <= 8 && g !in m.ctx.ends
    ensures var line := EndLine(YodaGroups(), g, rest);
      Step(m, line, lex) == (Machine(m.ctx, ApplyRow(m.records, ParseRow(line, lex))), [], Outcome.Pass)
  {
    YodaGroupsPrefixFree();
    EndMatches(YodaGroups(), g, rest, false, m.ctx.ends);
  }

  /** Lines that carry neither tag are never group lines. */
  lemma UntaggedLine(line: string, beginsOn: bool, ends: set<int>)
    requires !IsPrefix(BeginTag, line) && !IsPrefix(EndTag, line)
    ensures MatchGroup(line, YodaGroups(), beginsOn, ends) == None
  {
  }

  /** Before the first block, and between blocks once the object is out,
      an untagged line changes nothing. */
  lemma LineOutsideBlock(m: Machine, line: string, lex: Lexer)
    requires m.ctx.context <= 0 && !(-6 <= m.ctx.context && m.ctx.contextChange)
    requires !IsPrefix(BeginTag, line) && !IsPrefix(EndTag, line)
    ensures Step(m, line, lex) == (m, [], Outcome.Pass)
  {
    UntaggedLine(line, m.ctx.beginsOn, m.ctx.ends);
  }

  /** Inside a block every line but an END is content. */
  lemma LineInsideBlock(m: Machine, line: string, lex: Lexer)
    requires 1 <= m.ctx.context <= 8 && !m.ctx.beginsOn && !IsPrefix(EndTag, line)
    ensures Step(m, line, lex) == (Machine(m.ctx, ApplyRow(m.records, ParseRow(line, lex))), [], Outcome.Pass)
  {
  }

  /** Run(m, s) unfolded once at its last line. */
  lemma RunLast(m: Machine, s: seq<string>, lex: Lexer)
    requires s != []
    ensures var prev := Run(m, s[..|s| - 1], lex); var last := Step(prev.0, s[|s| - 1], lex);
      Run(m, s, lex) == if prev.2.Fail? then prev else (last.0, prev.1 + last.1, last.2)
  {
  }

  lemma RunOne(m: Machine, line: string, lex: Lexer)
    ensures Run(m, [line], lex) == Step(m, line, lex)
  {
    RunLast(m, [line], lex);
    assert [line][..0] == [];
    assert Run(m, [], lex) == (m, [], Outcome.Pass);
    assert [] + Step(m, line, lex).1 == Step(m, line, lex).1;
  }

  /** Untagged lines read outside any block leave the reader as it was and
      build nothing. */
  lemma {:induction false} RunOutside(m: Machine, lines: seq<string>, lex: Lexer)
    requires m.ctx.context <= 0 && !(-6 <= m.ctx.context && m.ctx.contextChange)
    requires forall i :: 0 <= i < |lines| ==> Untagged(lines[i])
    ensures Run(m, lines, lex) == (m, [], Outcome.Pass)
  {
    if lines != [] {
      var init := lines[..|lines| - 1];
      RunOutside(m, init, lex);
      RunLast(m, lines, lex);
      LineOutsideBlock(m, lines[|lines| - 1], lex);
      var built := Run(m, init, lex).1 + Step(m, lines[|lines| - 1], lex).1;
      assert built == [];
    }
  }

  /** Reading two pieces one after the other is reading their
      concatenation; a read that failed in the first piece never looks at
      the second. */
  lemma RunAppend(m: Machine, a: seq<string>, b: seq<string>, lex: Lexer)
    ensures var ra := Run(m, a, lex); var rb := Run(ra.0, b, lex);
      Run(m, a + b, lex) == if ra.2.Fail? then ra else (rb.0, ra.1 + rb.1, rb.2)
  {
    FoldAppend(m, a, b, (mm: Machine, line: string) => Step(mm, line, lex));
  }

  /** Once a read has failed, the lines after the failure change nothing. */
  lemma RunStopped(m: Machine, lines: seq<string>, i: nat, lex: Lexer)
    requires i <= |lines| && Run(m, lines[..i], lex).2.Fail?
    ensures Run(m, lines, lex) == Run(m, lines[..i], lex)
  {
    assert lines == lines[..i] + lines[i..];
    RunAppend(m, lines[..i], lines[i..], lex);
  }

  lemma {:induction false} FoldAppend(m: Machine, a: seq<string>, b: seq<string>, step: (Machine, string) -> Progress)
    ensures var ra := Fold(m, a, step); var rb := Fold(ra.0, b, step);
      Fold(m, a + b, step) == if ra.2.Fail? then ra else (rb.0, ra.1 + rb.1, rb.2)
    decreases |b|
  {
    var ra := Fold(m, a, step);
    if b == [] {
      assert a + b == a;
      assert ra.1 + [] == ra.1;
    } else {
      var b0 := b[..|b| - 1];
      var ab := a + b;
      assert ab[..|ab| - 1] == a + b0;
      assert ab[|ab| - 1] == b[|b| - 1];
      FoldAppend(m, a, b0, step);
      var rb0 := Fold(ra.0, b0, step);
      if !ra.2.Fail? && !rb0.2.Fail? {
        var st := step(rb0.0, b[|b| - 1]);
        assert Fold(m, ab, step) == (st.0, ra.1 + rb0.1 + st.1, st.2);
        assert Fold(ra.0, b, step) == (st.0, rb0.1 + st.1, st.2);
        assert ra.1 + rb0.1 + st.1 == ra.1 + (rb0.1 + st.1);
      }
    }
  }

  lemma {:induction false} RunInsideBlock(m: Machine, body: seq<string>, lex: Lexer)
    requires 1 <= m.ctx.context <= 8 && !m.ctx.beginsOn
    requires forall i :: 0 <= i < |body| ==> !IsPrefix(EndTag, body[i])
    ensures Run(m, body, lex) == (Machine(m.ctx, ApplyRows(m.records, ParseRows(body, lex))), [], Outcome.Pass)
    decreases |body|
  {
    if body != [] {
      var b0 := body[..|body| - 1];
      RunInsideBlock(m, b0, lex);
      ContentLineAfter(m, body, ApplyRows(m.records, ParseRows(b0, lex)), lex);
      ApplyRowsSnoc(m.records, body, lex);
    }
  }

  /** The last line of a piece read inside a block, after the others. */
  lemma ContentLineAfter(m: Machine, s: seq<string>, r: Records, lex: Lexer)
    requires s != [] && Run(m, s[..|s| - 1], lex) == (Machine(m.ctx, r), [], Outcome.Pass)
    requires 1 <= m.ctx.context <= 8 && !m.ctx.beginsOn && !IsPrefix(EndTag, s[|s| - 1])
    ensures Run(m, s, lex) == (Machine(m.ctx, ApplyRow(r, ParseRow(s[|s| - 1], lex))), [], Outcome.Pass)
  {
    LineInsideBlock(Machine(m.ctx, r), s[|s| - 1], lex);
    RunLast(m, s, lex);
    var none: seq<ReadObject> := [];
    assert none + none == none;
  }

  lemma ApplyRowsSnoc(r: Records, s: seq<string>, lex: Lexer)
    requires s != []
    ensures ApplyRows(r, ParseRows(s, lex)) == ApplyRow(ApplyRows(r, ParseRows(s[..|s| - 1], lex)), ParseRow(s[|s| - 1], lex))
  {
    var s0, last := s[..|s| - 1], s[|s| - 1];
    assert s == s0 + [last];
    ParseRowsAppend(s0, [last], lex);
    ApplyRowsSnocRow(r, ParseRows(s0, lex), ParseRow(last, lex));
  }

  lemma ApplyRowsSnocRow(r: Records, rows: seq<Row>, row: Row)
    ensures ApplyRows(r, rows + [row]) == ApplyRow(ApplyRows(r, rows), row)
  {
    assert (rows + [row])[..|rows|] == rows;
  }

  /** A whole block, from its BEGIN line to its END line, with no "# END "
      line inside, yields exactly one object, the one built from the actions
      of its lines (the BEGIN line's included) on the records it started
      with, or ends the read with a RangeError when that object's axis
      rejects its bins. */
  lemma BlockYieldsOneObject(m: Machine, g: int, r1: string, body: seq<string>, r2: string, lex: Lexer)
    requires m.ctx.beginsOn && 1 <= g <= 6
    requires forall i :: 0 <= i < |body| ==> !IsPrefix(EndTag, body[i])
    ensures var begin := BeginLine(YodaGroups(), g, r1);
      var r := Run(m, [begin] + body + [EndLine(YodaGroups(), g, r2)], lex);
      var recs := ApplyRows(m.records, ParseRows([begin] + body, lex));
      match Emit(recs, g)
      case Ok(o) => r == (Machine(Context(-g, false, true, m.ctx.ends + {g} - {g}), Cleared()), [o], Outcome.Pass)
      case Err(_) => r == (Machine(Context(-g, true, true, m.ctx.ends + {g} - {g}), recs), [], Fail(RangeError))
  {
    YodaGroupsPrefixFree();
    BeginMatches(YodaGroups(), g, r1, true, m.ctx.ends);
    EndMatches(YodaGroups(), g, r2, false, m.ctx.ends + {g});
    BlockOfLines(m, g, BeginLine(YodaGroups(), g, r1), body, EndLine(YodaGroups(), g, r2), lex);
  }

  lemma BlockOfLines(m: Machine, g: int, begin: string, body: seq<string>, end: string, lex: Lexer)
    requires m.ctx.beginsOn && 1 <= g <= 6
    requires MatchGroup(begin, YodaGroups(), true, m.ctx.ends) == Some(g)
    requires MatchGroup(end, YodaGroups(), false, m.ctx.ends + {g}) == Some(-g)
    requires forall i :: 0 <= i < |body| ==> !IsPrefix(EndTag, body[i])
    ensures var r := Run(m, [begin] + body + [end], lex);
      var recs := ApplyRows(m.records, ParseRows([begin] + body, lex));
      match Emit(recs, g)
      case Ok(o) => r == (Machine(Context(-g, false, true, m.ctx.ends + {g} - {g}), Cleared()), [o], Outcome.Pass)
      case Err(_) => r == (Machine(Context(-g, true, true, m.ctx.ends + {g} - {g}), recs), [], Fail(RangeError))
  {
    OpenBlock(m, g, begin, body, lex);
    var full := Run(m, [begin] + body, lex).0;
    assert full.ctx == Context(g, m.ctx.contextChange, false, m.ctx.ends + {g});
    StepAtEnd(full, g, end, lex);
    RunOne(full, end, lex);
    RunAppend(m, [begin] + body, [end], lex);
    assert [] + Step(full, end, lex).1 == Step(full, end, lex).1;
  }

  /** A block up to, but not including, its END line: the state it leaves
      and the records its lines, the BEGIN line's included, build. */
  lemma OpenBlock(m: Machine, g: int, begin: string, body: seq<string>, lex: Lexer)
    requires m.ctx.beginsOn && 1 <= g <= 8
    requires MatchGroup(begin, YodaGroups(), true, m.ctx.ends) == Some(g)
    requires forall i :: 0 <= i < |body| ==> !IsPrefix(EndTag, body[i])
    ensures Run(m, [begin] + body, lex) ==
      (Machine(Context(g, m.ctx.contextChange, false, m.ctx.ends + {g}), ApplyRows(m.records, ParseRows([begin] + body, lex))),
       [], Outcome.Pass)
  {
    var inside := Step(m, begin, lex).0;
    assert inside == Machine(Context(g, m.ctx.contextChange, false, m.ctx.ends + {g}), ApplyRow(m.records, ParseRow(begin, lex)));
    RunOne(m, begin, lex);
    RunInsideBlock(inside, body, lex);
    RunAppend(m, [begin], body, lex);
    ApplyRowsCons(m.records, begin, body, lex);
  }

  /** An END line of a Histo1D to Scatter2D block emits its object, clears
      the records and lowers the flag, or throws and keeps them. */
  lemma StepAtEnd(m: Machine, g: int, end: string, lex: Lexer)
    requires 1 <= g <= 6 && MatchGroup(end, YodaGroups(), m.ctx.beginsOn, m.ctx.ends) == Some(-g)
    ensures Closed(m, g, Step(m, end, lex))
  {
    StepCloses(m, end, lex, g);
  }

  /** The actions of a first line, then of the rest. */
  lemma ApplyRowsCons(r: Records, first: string, rest: seq<string>, lex: Lexer)
    ensures ApplyRows(r, ParseRows([first] + rest, lex)) == ApplyRows(ApplyRow(r, ParseRow(first, lex)), ParseRows(rest, lex))
  {
    ParseRowsAppend([first], rest, lex);
    assert ParseRows([first], lex) == [ParseRow(first, lex)];
    ApplyRowsFirst(r, ParseRow(first, lex), ParseRows(rest, lex));
  }

  lemma {:induction false} ApplyRowsFirst(r: Records, row: Row, rows: seq<Row>)
    ensures ApplyRows(r, [row] + rows) == ApplyRows(ApplyRow(r, row), rows)
    decreases |rows|
  {
    if rows != [] {
      var r0, last := rows[..|rows| - 1], rows[|rows| - 1];
      ApplyRowsFirst(r, row, r0);
      assert [row] + rows == ([row] + r0) + [last];
      assert rows == r0 + [last];
      ApplyRowsSnocRow(r, [row] + r0, last);
      ApplyRowsSnocRow(ApplyRow(r, row), r0, last);
    }
  }

  // ---------------------------------------------------------------------------
  // Properties of the content rows

  /** Seven columns, six numbers and a count, are a Histo1D bin: edges,
      then the sums, then the fill count. */
  lemma Histo1DBinLine(line: string, lex: Lexer)
    requires |Tokens(line)| == 7 && ParseULong(Tokens(line)[6]).Some?
    requires forall i :: 0 <= i < 6 ==> lex(Tokens(line)[i]).Some?
    ensures var t := Tokens(line);
      ParseRow(line, lex) == Histo1DBin(HistoBin1D(Col(t, 0, lex), Col(t, 1, lex),
        Dbn1D(ParseULong(t[6]).value, Col(t, 2, lex), Col(t, 3, lex), Col(t, 4, lex), Col(t, 5, lex))))
  {
    var t := Tokens(line);
    assert t[0..] == t;
  }

  /** The literal words of the total and outflow rows are not numbers. */
  lemma TagsAreNotNumbers(lex: Lexer)
    requires NumberLexer(lex)
    ensures lex(Total).None? && lex(Underflow).None? && lex(Overflow).None?
  {
    assert Total[0] == 'T' && Underflow[0] == 'U' && Overflow[0] == 'O';
    assert forall k :: 0 <= k < |NumberStart| ==> NumberStart[k] != 'T' && NumberStart[k] != 'U' && NumberStart[k] != 'O';
  }

  /** Tag, tag, four numbers and a count: the total, underflow or overflow
      distribution of a Histo1D. */
  lemma Histo1DTaggedLine(line: string, tag: string, lex: Lexer)
    requires NumberLexer(lex) && (tag == Total || tag == Underflow || tag == Overflow)
    requires |Tokens(line)| == 7 && Tokens(line)[0] == tag && Tokens(line)[1] == tag
    requires (forall i :: 2 <= i < 6 ==> lex(Tokens(line)[i]).Some?) && ParseULong(Tokens(line)[6]).Some?
    ensures var t := Tokens(line);
      var d := Dbn1D(ParseULong(t[6]).value, Col(t, 2, lex), Col(t, 3, lex), Col(t, 4, lex), Col(t, 5, lex));
      ParseRow(line, lex) ==
        if tag == Total then Histo1DTotal(d) else if tag == Underflow then Histo1DUnderflow(d) else Histo1DOverflow(d)
  {
    var t := Tokens(line);
    TagsAreNotNumbers(lex);
    NotBinRows(t, lex);
    LeadTooLong(t, [Total, Total], 9, lex);
    LeadTooLong(t, [Total, Total], 7, lex);
    LeadTooLong(t, [Total, Total], 6, lex);
    LeadTooLong(t, [Underflow, Underflow], 6, lex);
    LeadTooLong(t, [Overflow, Overflow], 6, lex);
    assert StatsRow(t, lex) == Histo1DRow(t, lex);
    assert t[..2] == [tag, tag];
    LeadTaken(t, [tag, tag], 4, lex);
    if tag != Total { LeadOtherWord(t, [Total, Total], 4, lex); }
    if tag != Underflow { LeadOtherWord(t, [Underflow, Underflow], 4, lex); }
    DataRow(line, lex);
  }

  /** A row whose first word is not a number matches none of the bin rules. */
  lemma NotBinRows(t: seq<string>, lex: Lexer)
    requires t != [] && lex(t[0]).None?
    ensures LeadNumbersCount(t, [], 13, lex).None? && LeadNumbersCount(t, [], 11, lex).None?
      && LeadNumbersCount(t, [], 8, lex).None? && LeadNumbersCount(t, [], 6, lex).None?
  {
    LeadNotNumber(t, 13, lex);
    LeadNotNumber(t, 11, lex);
    LeadNotNumber(t, 8, lex);
    LeadNotNumber(t, 6, lex);
  }

  /** A line that a data rule matches is that row. */
  lemma DataRow(line: string, lex: Lexer)
    requires StatsRow(Tokens(line), lex).Some?
    ensures ParseRow(line, lex) == StatsRow(Tokens(line), lex).value
  {
  }

  /** Nine columns, eight numbers and a count, are a Profile1D bin. */
  lemma Profile1DBinLine(line: string, lex: Lexer)
    requires |Tokens(line)| == 9 && ParseULong(Tokens(line)[8]).Some?
    requires forall i :: 0 <= i < 8 ==> lex(Tokens(line)[i]).Some?
    ensures var t := Tokens(line);
      ParseRow(line, lex) == Profile1DBin(S2.ProfileBin1D(Col(t, 0, lex), Col(t, 1, lex),
        Dbn2D(ParseULong(t[8]).value, Col(t, 2, lex), Col(t, 3, lex), Col(t, 4, lex), Col(t, 5, lex),
              Col(t, 6, lex), Col(t, 7, lex), 0.0)))
  {
    var t := Tokens(line);
    assert t[0..] == t;
  }

  /** Tag, tag, six numbers and a count: the total, underflow or overflow
      distribution of a Profile1D. */
  lemma Profile1DTaggedLine(line: string, tag: string, lex: Lexer)
    requires NumberLexer(lex) && (tag == Total || tag == Underflow || tag == Overflow)
    requires |Tokens(line)| == 9 && Tokens(line)[0] == tag && Tokens(line)[1] == tag
    requires (forall i :: 2 <= i < 8 ==> lex(Tokens(line)[i]).Some?) && ParseULong(Tokens(line)[8]).Some?
    ensures var t := Tokens(line);
      var d := Dbn2D(ParseULong(t[8]).value, Col(t, 2, lex), Col(t, 3, lex), Col(t, 4, lex), Col(t, 5, lex),
                     Col(t, 6, lex), Col(t, 7, lex), 0.0);
      ParseRow(line, lex) ==
        if tag == Total then Profile1DTotal(d) else if tag == Underflow then Profile1DUnderflow(d) else Profile1DOverflow(d)
  {
    Profile1DTaggedTokens(Tokens(line), tag, lex);
    DataRow(line, lex);
  }

  /** The same on the columns of the line. */
  lemma Profile1DTaggedTokens(t: seq<string>, tag: string, lex: Lexer)
    requires NumberLexer(lex) && (tag == Total || tag == Underflow || tag == Overflow)
    requires |t| == 9 && t[0] == tag && t[1] == tag
    requires (forall i :: 2 <= i < 8 ==> lex(t[i]).Some?) && ParseULong(t[8]).Some?
    ensures var d := Dbn2D(ParseULong(t[8]).value, Col(t, 2, lex), Col(t, 3, lex), Col(t, 4, lex), Col(t, 5, lex),
                           Col(t, 6, lex), Col(t, 7, lex), 0.0);
      StatsRow(t, lex) ==
        Some(if tag == Total then Profile1DTotal(d) else if tag == Underflow then Profile1DUnderflow(d) else Profile1DOverflow(d))
  {
    TagsAreNotNumbers(lex);
    NotBinRows(t, lex);
    LeadTooLong(t, [Total, Total], 9, lex);
    LeadTooLong(t, [Total, Total], 7, lex);
    assert t[..2] == [tag, tag];
    if tag == Total {
      LeadTaken(t, [Total, Total], 6, lex);
    } else if tag == Underflow {
      LeadOtherWord(t, [Total, Total], 6, lex);
      LeadTaken(t, [Underflow, Underflow], 6, lex);
    } else {
      LeadOtherWord(t, [Total, Total], 6, lex);
      LeadOtherWord(t, [Underflow, Underflow], 6, lex);
      LeadTaken(t, [Overflow, Overflow], 6, lex);
    }
  }

  /** Twelve columns, eleven numbers and a count, are a Histo2D bin: four
      edges, the seven sums, the fill count. */
  lemma Histo2DBinLine(line: string, lex: Lexer)
    requires NumberLexer(lex)
    requires |Tokens(line)| == 12 && ParseULong(Tokens(line)[11]).Some?
    requires forall i :: 0 <= i < 11 ==> lex(Tokens(line)[i]).Some?
    ensures var t := Tokens(line);
      ParseRow(line, lex) == Histo2DBin(S3.HistoBin2D(Col(t, 0, lex), Col(t, 1, lex), Col(t, 2, lex), Col(t, 3, lex),
        Dbn2D(ParseULong(t[11]).value, Col(t, 4, lex), Col(t, 5, lex), Col(t, 6, lex), Col(t, 7, lex),
              Col(t, 8, lex), Col(t, 9, lex), Col(t, 10, lex))))
  {
    var t := Tokens(line);
    TagsAreNotNumbers(lex);
    assert t[0..] == t;
    assert t[..2] != [Total, Total] by { assert lex(t[0]).Some?; }
  }

  /** "Total Total", seven numbers and a count: the total of a Histo2D. */
  lemma Histo2DTotalLine(line: string, lex: Lexer)
    requires |Tokens(line)| == 10 && Tokens(line)[0] == Total && Tokens(line)[1] == Total
    requires (forall i :: 2 <= i < 9 ==> lex(Tokens(line)[i]).Some?) && ParseULong(Tokens(line)[9]).Some?
    ensures var t := Tokens(line);
      ParseRow(line, lex) == Histo2DTotal(Dbn2D(ParseULong(t[9]).value, Col(t, 2, lex), Col(t, 3, lex),
        Col(t, 4, lex), Col(t, 5, lex), Col(t, 6, lex), Col(t, 7, lex), Col(t, 8, lex)))
  {
    var t := Tokens(line);
    assert t[..2] == [Total, Total];
    assert Numbers(t[2..], 7, lex).value ==
      [Col(t, 2, lex), Col(t, 3, lex), Col(t, 4, lex), Col(t, 5, lex), Col(t, 6, lex), Col(t, 7, lex), Col(t, 8, lex)];
  }

  /** Fourteen columns, thirteen numbers and a count, are a Profile2D bin. */
  lemma Profile2DBinLine(line: string, lex: Lexer)
    requires |Tokens(line)| == 14 && ParseULong(Tokens(line)[13]).Some?
    requires forall i :: 0 <= i < 13 ==> lex(Tokens(line)[i]).Some?
    ensures var t := Tokens(line);
      ParseRow(line, lex) == Profile2DBin(S3.ProfileBin2D(Col(t, 0, lex), Col(t, 1, lex), Col(t, 2, lex), Col(t, 3, lex),
        Dbn3D(ParseULong(t[13]).value, Col(t, 4, lex), Col(t, 5, lex), Col(t, 6, lex), Col(t, 7, lex),
              Col(t, 8, lex), Col(t, 9, lex), Col(t, 10, lex), Col(t, 11, lex), Col(t, 12, lex), 0.0, 0.0)))
  {
    var t := Tokens(line);
    assert t[0..] == t && t[..0] == [];
    var p2b := LeadNumbersCount(t, [], 13, lex);
    assert p2b.Some?;
    var v := p2b.value.0;
    assert v == Numbers(t, 13, lex).value;
    assert forall i :: 0 <= i < 13 ==> v[i] == Col(t, i, lex);
    var d := v[4..];
    assert forall i :: 0 <= i < 9 ==> d[i] == v[i + 4];
    assert StatsRow(t, lex) == Some(Profile2DBin(S3.ProfileBin2D(v[0], v[1], v[2], v[3], Profile2DDbn(d, p2b.value.1))));
  }

  /** "Total Total", nine numbers and a count: the total of a Profile2D. */
  lemma Profile2DTotalLine(line: string, lex: Lexer)
    requires NumberLexer(lex)
    requires |Tokens(line)| == 12 && Tokens(line)[0] == Total && Tokens(line)[1] == Total
    requires (forall i :: 2 <= i < 11 ==> lex(Tokens(line)[i]).Some?) && ParseULong(Tokens(line)[11]).Some?
    ensures var t := Tokens(line);
      ParseRow(line, lex) == Profile2DTotal(Dbn3D(ParseULong(t[11]).value, Col(t, 2, lex), Col(t, 3, lex),
        Col(t, 4, lex), Col(t, 5, lex), Col(t, 6, lex), Col(t, 7, lex), Col(t, 8, lex), Col(t, 9, lex),
        Col(t, 10, lex), 0.0, 0.0))
  {
    var t := Tokens(line);
    TagsAreNotNumbers(lex);
    NotBinRows(t, lex);
    assert t[..2] == [Total, Total];
    LeadTaken(t, [Total, Total], 9, lex);
    DataRow(line, lex);
  }

  /** Six numbers are a Scatter2D point: x, its two errors, y, its two
      errors. */
  lemma Scatter2DPointLine(line: string, lex: Lexer)
    requires |Tokens(line)| == 6 && forall i :: 0 <= i < 6 ==> lex(Tokens(line)[i]).Some?
    ensures var t := Tokens(line);
      ParseRow(line, lex) == Scatter2DPoint(Point2D(Col(t, 0, lex), Col(t, 3, lex), Col(t, 1, lex), Col(t, 2, lex),
        Col(t, 4, lex), Col(t, 5, lex)))
  {
  }

  /** Three numbers are a Scatter1D point: x and its two errors. */
  lemma Scatter1DPointLine(line: string, lex: Lexer)
    requires |Tokens(line)| == 3 && forall i :: 0 <= i < 3 ==> lex(Tokens(line)[i]).Some?
    ensures var t := Tokens(line);
      ParseRow(line, lex) == Scatter1DPoint(Point1D(Col(t, 0, lex), Col(t, 1, lex), Col(t, 2, lex)))
  {
  }

  /** A line whose first word is neither a number nor a tag matches no data
      rule. */
  lemma NoDataRow(line: string, lex: Lexer)
    requires NumberLexer(lex)
    requires Tokens(line) != [] && lex(Tokens(line)[0]).None?
    requires Tokens(line)[0] != Total && Tokens(line)[0] != Underflow && Tokens(line)[0] != Overflow
    ensures StatsRow(Tokens(line), lex) == None && PointRow(Tokens(line), lex) == None
  {
    var t := Tokens(line);
    NotBinRows(t, lex);
    LeadOtherWord(t, [Total, Total], 9, lex);
    LeadOtherWord(t, [Total, Total], 7, lex);
    LeadOtherWord(t, [Total, Total], 6, lex);
    LeadOtherWord(t, [Underflow, Underflow], 6, lex);
    LeadOtherWord(t, [Overflow, Overflow], 6, lex);
    LeadOtherWord(t, [Total, Total], 4, lex);
    LeadOtherWord(t, [Underflow, Underflow], 4, lex);
    LeadOtherWord(t, [Overflow, Overflow], 4, lex);
    assert Histo1DRow(t, lex) == None;
    assert !lex(t[0]).Some?;
  }

  /** key=value, with a key of non-blank characters that starts with neither
      a digit nor '-', and a value that starts with no blank, is the
      annotation key: value. */
  lemma AnnotationLine(key: string, value: string, lex: Lexer)
    requires NumberLexer(lex)
    requires key != [] && !IsDigit(key[0]) && key[0] != '-'
    requires forall k :: 0 <= k < |key| ==> key[k] != '=' && !IsSpace(key[k])
    requires value == [] || !IsSpace(value[0])
    ensures ParseRow(key + "=" + value, lex) == KeyVal(key, value)
  {
    var line := key + "=" + value;
    AnnotationFirstWord(key, value);
    var w := Tokens(line)[0];
    assert lex(w).None?;
    assert w != Total && w != Underflow && w != Overflow by {
      assert '=' !in Total && '=' !in Underflow && '=' !in Overflow;
    }
    NoDataRow(line, lex);
    KeyValueOfLine(key, value);
  }

  /** A line whose first non-blank character is '#' and which holds no '='
      is a comment: it changes nothing. With an '=' it would be read as an
      annotation first. */
  lemma CommentLine(pad: string, rest: string, lex: Lexer)
    requires NumberLexer(lex)
    requires forall k :: 0 <= k < |pad| ==> IsSpace(pad[k])
    requires forall k :: 0 <= k < |rest| ==> rest[k] != '='
    ensures ParseRow(pad + "#" + rest, lex) == Comment
  {
    var line := pad + "#" + rest;
    CommentFirstWord(pad, rest);
    var w := Tokens(line)[0];
    assert lex(w).None?;
    assert w != Total && w != Underflow && w != Overflow;
    NoDataRow(line, lex);
  }

  // ---------------------------------------------------------------------------
  // Properties of the records

  function H1BinOf(row: Row): Option<HistoBin1D> { if row.Histo1DBin? then Some(row.h1Bin) else None }
  function H2BinOf(row: Row): Option<S3.HistoBin2D> { if row.Histo2DBin? then Some(row.h2Bin) else None }
  function P1BinOf(row: Row): Option<S2.ProfileBin1D> { if row.Profile1DBin? then Some(row.p1Bin) else None }
  function P2BinOf(row: Row): Option<S3.ProfileBin2D> { if row.Profile2DBin? then Some(row.p2Bin) else None }
  function S1PointOf(row: Row): Option<Point1D> { if row.Scatter1DPoint? then Some(row.pt1) else None }
  function S2PointOf(row: Row): Option<Point2D> { if row.Scatter2DPoint? then Some(row.pt2) else None }
  function KeyValOf(row: Row): Option<(string, string)> { if row.KeyVal? then Some((row.key, row.value)) else None }
  function H1TotalOf(row: Row): Option<Dbn1D> { if row.Histo1DTotal? then Some(row.d1) else None }
  function H1UnderflowOf(row: Row): Option<Dbn1D> { if row.Histo1DUnderflow? then Some(row.d1) else None }
  function H1OverflowOf(row: Row): Option<Dbn1D> { if row.Histo1DOverflow? then Some(row.d1) else None }
  function H2TotalOf(row: Row): Option<Dbn2D> { if row.Histo2DTotal? then Some(row.d2) else None }
  function P1TotalOf(row: Row): Option<Dbn2D> { if row.Profile1DTotal? then Some(row.d2) else None }
  function P1UnderflowOf(row: Row): Option<Dbn2D> { if row.Profile1DUnderflow? then Some(row.d2) else None }
  function P1OverflowOf(row: Row): Option<Dbn2D> { if row.Profile1DOverflow? then Some(row.d2) else None }
  function P2TotalOf(row: Row): Option<Dbn3D> { if row.Profile2DTotal? then Some(row.d3) else None }

  /** Bins and points are kept in the order of their lines, after those
      already in the records. */
  lemma {:induction false} ApplyRowsPushes(r: Records, rows: seq<Row>)
    ensures var a := ApplyRows(r, rows);
      a.h1Bins == r.h1Bins + Collect(rows, H1BinOf) && a.h2Bins == r.h2Bins + Collect(rows, H2BinOf)
      && a.p1Bins == r.p1Bins + Collect(rows, P1BinOf) && a.p2Bins == r.p2Bins + Collect(rows, P2BinOf)
      && a.s1Points == r.s1Points + Collect(rows, S1PointOf) && a.s2Points == r.s2Points + Collect(rows, S2PointOf)
  {
    if rows != [] {
      var init := rows[..|rows| - 1];
      var x := rows[|rows| - 1];
      assert rows == init + [x];
      ApplyRowsPushes(r, init);
      var a0 := ApplyRows(r, init);
      var a := ApplyRow(a0, x);
      assert ApplyRows(r, rows) == a;
      PushStep(a0, x);
      PushedSnoc(r.h1Bins, init, x, H1BinOf, a.h1Bins);
      PushedSnoc(r.h2Bins, init, x, H2BinOf, a.h2Bins);
      PushedSnoc(r.p1Bins, init, x, P1BinOf, a.p1Bins);
      PushedSnoc(r.p2Bins, init, x, P2BinOf, a.p2Bins);
      PushedSnoc(r.s1Points, init, x, S1PointOf, a.s1Points);
      PushedSnoc(r.s2Points, init, x, S2PointOf, a.s2Points);
    }
  }

  /** One row's action on the six vectors. */
  lemma PushStep(a: Records, x: Row)
    ensures var b := ApplyRow(a, x);
      b.h1Bins == a.h1Bins + (if H1BinOf(x).Some? then [H1BinOf(x).value] else [])
      && b.h2Bins == a.h2Bins + (if H2BinOf(x).Some? then [H2BinOf(x).value] else [])
      && b.p1Bins == a.p1Bins + (if P1BinOf(x).Some? then [P1BinOf(x).value] else [])
      && b.p2Bins == a.p2Bins + (if P2BinOf(x).Some? then [P2BinOf(x).value] else [])
      && b.s1Points == a.s1Points + (if S1PointOf(x).Some? then [S1PointOf(x).value] else [])
      && b.s2Points == a.s2Points + (if S2PointOf(x).Some? then [S2PointOf(x).value] else [])
  {
  }

  /** A total or outflow line replaces the distribution: the last one read
      wins, and without one the records keep theirs. */
  lemma {:induction false} ApplyRowsReplaces(r: Records, rows: seq<Row>)
    ensures var a := ApplyRows(r, rows);
      a.h1Total == LastOf(rows, H1TotalOf, r.h1Total) && a.h1Underflow == LastOf(rows, H1UnderflowOf, r.h1Underflow)
      && a.h1Overflow == LastOf(rows, H1OverflowOf, r.h1Overflow) && a.h2Total == LastOf(rows, H2TotalOf, r.h2Total)
      && a.p1Total == LastOf(rows, P1TotalOf, r.p1Total) && a.p1Underflow == LastOf(rows, P1UnderflowOf, r.p1Underflow)
      && a.p1Overflow == LastOf(rows, P1OverflowOf, r.p1Overflow) && a.p2Total == LastOf(rows, P2TotalOf, r.p2Total)
  {
    if rows != [] {
      var init := rows[..|rows| - 1];
      var x := rows[|rows| - 1];
      assert rows == init + [x];
      ApplyRowsReplaces(r, init);
      assert ApplyRows(r, rows) == ApplyRow(ApplyRows(r, init), x);
      ReplaceStep(ApplyRows(r, init), x);
      LastOfSnoc(init, x, H1TotalOf, r.h1Total);
      LastOfSnoc(init, x, H1UnderflowOf, r.h1Underflow);
      LastOfSnoc(init, x, H1OverflowOf, r.h1Overflow);
      LastOfSnoc(init, x, H2TotalOf, r.h2Total);
      LastOfSnoc(init, x, P1TotalOf, r.p1Total);
      LastOfSnoc(init, x, P1UnderflowOf, r.p1Underflow);
      LastOfSnoc(init, x, P1OverflowOf, r.p1Overflow);
      LastOfSnoc(init, x, P2TotalOf, r.p2Total);
    }
  }

  /** One row's action on the eight distributions. */
  lemma ReplaceStep(a: Records, x: Row)
    ensures var b := ApplyRow(a, x);
      b.h1Total == (if H1TotalOf(x).Some? then H1TotalOf(x).value else a.h1Total)
      && b.h1Underflow == (if H1UnderflowOf(x).Some? then H1UnderflowOf(x).value else a.h1Underflow)
      && b.h1Overflow == (if H1OverflowOf(x).Some? then H1OverflowOf(x).value else a.h1Overflow)
      && b.h2Total == (if H2TotalOf(x).Some? then H2TotalOf(x).value else a.h2Total)
      && b.p1Total == (if P1TotalOf(x).Some? then P1TotalOf(x).value else a.p1Total)
      && b.p1Underflow == (if P1UnderflowOf(x).Some? then P1UnderflowOf(x).value else a.p1Underflow)
      && b.p1Overflow == (if P1OverflowOf(x).Some? then P1OverflowOf(x).value else a.p1Overflow)
      && b.p2Total == (if P2TotalOf(x).Some? then P2TotalOf(x).value else a.p2Total)
  {
  }

  /** The annotation lines are set one after the other on the records'
      annotations. */
  lemma {:induction false} ApplyRowsAnnotations(r: Records, rows: seq<Row>)
    ensures ApplyRows(r, rows).annotations == Overlaid(r.annotations, Collect(rows, KeyValOf))
  {
    if rows != [] {
      var init := rows[..|rows| - 1];
      var x := rows[|rows| - 1];
      assert rows == init + [x];
      ApplyRowsAnnotations(r, init);
      CollectSnoc(init, x, KeyValOf);
      if x.KeyVal? {
        OverlaidSnoc(r.annotations, Collect(init, KeyValOf), (x.key, x.value));
      } else {
        assert Collect(init, KeyValOf) + [] == Collect(init, KeyValOf);
      }
    }
  }

  /** The records' annotations stay well formed. */
  lemma ApplyRowsWellFormed(r: Records, rows: seq<Row>)
    requires WellFormed(r.annotations)
    ensures WellFormed(ApplyRows(r, rows).annotations)
  {
    ApplyRowsAnnotations(r, rows);
    OverlaidLookup(r.annotations, Collect(rows, KeyValOf));
  }

  /** An object read from a block carries the block's annotations, and
      "Type" its type name and an empty "Path" and "Title" where the block
      sets none of them. */
  lemma EmittedAnnotations(r: Records, g: int)
    requires 1 <= g <= 6 && WellFormed(r.annotations) && Emit(r, g).Ok?
    ensures WellFormed(Emit(r, g).value.annotations)
    ensures forall m :: Lookup(Emit(r, g).value.annotations, m) == LookupOverFresh(r.annotations, TypeName(g), m)
  {
    FreshOverlaid(TypeName(g), r.annotations);
  }

  /** What the objects hold: a Histo1D's or Profile1D's bins sorted by their
      edges, a permutation of the bins read, and laid out without overlap
      when every bin has a proper width; a Histo2D's or Profile2D's bins in
      line order; a scatter's points a sorted permutation of those read; the
      distributions as read. */
  lemma EmittedContents(r: Records, g: int)
    requires 1 <= g <= 6 && Emit(r, g).Ok?
    ensures var o := Emit(r, g).value;
      (g == 1 ==> (o.ReadHisto1D? && SortedBins(o.h1Bins) && multiset(o.h1Bins) == multiset(r.h1Bins)
                   && (ValidBins(r.h1Bins) ==> ValidBins(o.h1Bins) && Layout(o.h1Bins).Ok?)
                   && o.h1Total == r.h1Total && o.h1Underflow == r.h1Underflow && o.h1Overflow == r.h1Overflow))
      && (g == 2 ==> o.ReadHisto2D? && o.h2Bins == r.h2Bins && o.h2Total == r.h2Total)
      && (g == 3 ==> (o.ReadProfile1D? && Sorted(o.p1Bins, ProfileLess) && multiset(o.p1Bins) == multiset(r.p1Bins)
                   && (ProperProfileBins(r.p1Bins) ==> ValidBins(ProfileEdgesAll(o.p1Bins)) && Layout(ProfileEdgesAll(o.p1Bins)).Ok?)
                   && o.p1Total == r.p1Total && o.p1Underflow == r.p1Underflow && o.p1Overflow == r.p1Overflow))
      && (g == 4 ==> o.ReadProfile2D? && o.p2Bins == r.p2Bins && o.p2Total == r.p2Total)
      && (g == 5 ==> o.ReadScatter1D? && Sorted(o.s1Points, Less1) && multiset(o.s1Points) == multiset(r.s1Points))
      && (g == 6 ==> o.ReadScatter2D? && Sorted(o.s2Points, Less2) && multiset(o.s2Points) == multiset(r.s2Points))
  {
    PointOrdersAsymmetric();
    if g == 3 {
      ProfileLessAsymmetric();
      SortAllProperties(r.p1Bins, ProfileLess);
      ProperProfileBinsOfPermutation(r.p1Bins, SortProfileBins(r.p1Bins));
    } else if g == 5 {
      SortAllProperties(r.s1Points, Less1);
    } else if g == 6 {
      SortAllProperties(r.s2Points, Less2);
    }
  }

  /** Every profile bin has its lower edge below its upper edge. */
  predicate ProperProfileBins(s: seq<S2.ProfileBin1D>)
  {
    forall i :: 0 <= i < |s| ==> s[i].xMin < s[i].xMax
  }

  lemma ProfileLessAsymmetric()
    ensures Asymmetric(ProfileLess)
  {
  }

  lemma ProperProfileBinsOfPermutation(s: seq<S2.ProfileBin1D>, t: seq<S2.ProfileBin1D>)
    requires multiset(s) == multiset(t)
    ensures ProperProfileBins(s) ==> ValidBins(ProfileEdgesAll(t))
  {
    if ProperProfileBins(s) {
      forall i | 0 <= i < |t| ensures ValidBin(ProfileEdgesAll(t)[i]) {
        assert t[i] in multiset(s);
        var j :| 0 <= j < |s| && s[j] == t[i];
      }
    }
  }

  lemma ApplyRowWellFormed(r: Records, row: Row)
    requires WellFormed(r.annotations)
    ensures WellFormed(ApplyRow(r, row).annotations)
  {
    if row.KeyVal? {
      SetAnnProperties(r.annotations, row.key, row.value);
    }
  }

  lemma StepWellFormed(m: Machine, line: string, lex: Lexer)
    requires WellFormed(m.records.annotations)
    ensures var st := Step(m, line, lex);
      WellFormed(st.0.records.annotations) && forall i :: 0 <= i < |st.1| ==> WellFormed(st.1[i].annotations)
  {
    var c := Regroup(m.ctx, MatchGroup(line, YodaGroups(), m.ctx.beginsOn, m.ctx.ends));
    var st := Step(m, line, lex);
    if 1 <= c.context <= 8 {
      ApplyRowWellFormed(m.records, ParseRow(line, lex));
      assert st.0.records == ApplyRow(m.records, ParseRow(line, lex)) && st.1 == [];
    } else if -6 <= c.context <= -1 && c.contextChange && Emit(m.records, -c.context).Ok? {
      EmittedAnnotations(m.records, -c.context);
      assert st.0.records == Cleared() && st.1 == [Emit(m.records, -c.context).value];
    } else {
      assert st.0.records == m.records && st.1 == [];
    }
  }

  /** Along a read the records' annotations stay well formed, and so do
      those of every object read. */
  lemma {:induction false} RunWellFormed(m: Machine, lines: seq<string>, lex: Lexer)
    requires WellFormed(m.records.annotations)
    ensures var r := Run(m, lines, lex);
      WellFormed(r.0.records.annotations) && forall i :: 0 <= i < |r.1| ==> WellFormed(r.1[i].annotations)
  {
    if lines != [] {
      var prev := Run(m, lines[..|lines| - 1], lex);
      RunWellFormed(m, lines[..|lines| - 1], lex);
      RunLast(m, lines, lex);
      if !prev.2.Fail? {
        var st := Step(prev.0, lines[|lines| - 1], lex);
        StepWellFormed(prev.0, lines[|lines| - 1], lex);
        assert Run(m, lines, lex) == (st.0, prev.1 + st.1, st.2);
      }
    }
  }
}
