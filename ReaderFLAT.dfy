/** The reader of the flat text format (src/ReaderFLAT.cc,
    include/YODA/ReaderFLAT.h).

    The same BEGIN/END machine as the .yoda reader (module Groups) over the
    groups HISTOGRAM, HISTO1D, HISTO2D and COUNTER. Inside a block each line
    is a point row of 7 to 2 numbers, an annotation or a comment. Leaving a
    HISTOGRAM, HISTO1D or HISTO2D block builds one scatter from whichever
    point kind was read, 1D first, or throws ReadError when no point was
    read; leaving a COUNTER block does nothing. The point vectors, the
    annotations and the symbol tables are static members in the source:
    here they are the fields of the reader object. */
module ReaderFLAT {
  import opened Wrappers
  import opened Points
  import opened SortedVector
  import opened AnalysisObject
  import opened Lines
  import opened LineGrammar
  import opened Groups

  // ---------------------------------------------------------------------------
  // Content rows

  datatype Row =
    | Scatter3DPoint(pt3: Point3D)
    | Scatter2DPoint(pt2: Point2D)
    | Scatter1DPoint(pt1: Point1D)
    | KeyVal(key: string, value: string)
    | Comment
    | Unparsed

  /** The middle of a bin and its half width, as fillpoint computes them. */
  function Mid(lo: real, hi: real): real { 0.5 * (lo + hi) }
  function HalfWidth(lo: real, hi: real): real { 0.5 * (hi - lo) }

  /** The point rules of data_grammar, longest first: xmin xmax ymin ymax z
      ez- ez+, the same with one ez, xmin xmax y ey- ey+, the same with one
      ey, x ex- ex+, and x ex. */
  function PointRow(toks: seq<string>, lex: Lexer): Option<Row>
  {
    var n7 := Numbers(toks, 7, lex);
    if n7.Some? then
      var v := n7.value;
      Some(Scatter3DPoint(Point3D(Mid(v[0], v[1]), Mid(v[2], v[3]), v[4], HalfWidth(v[0], v[1]), HalfWidth(v[0], v[1]),
                                  HalfWidth(v[2], v[3]), HalfWidth(v[2], v[3]), v[5], v[6])))
    else
    var n6 := Numbers(toks, 6, lex);
    if n6.Some? then
      var v := n6.value;
      Some(Scatter3DPoint(Point3D(Mid(v[0], v[1]), Mid(v[2], v[3]), v[4], HalfWidth(v[0], v[1]), HalfWidth(v[0], v[1]),
                                  HalfWidth(v[2], v[3]), HalfWidth(v[2], v[3]), v[5], v[5])))
    else
    var n5 := Numbers(toks, 5, lex);
    if n5.Some? then
      var v := n5.value;
      Some(Scatter2DPoint(Point2D(Mid(v[0], v[1]), v[2], HalfWidth(v[0], v[1]), HalfWidth(v[0], v[1]), v[3], v[4])))
    else
    var n4 := Numbers(toks, 4, lex);
    if n4.Some? then
      var v := n4.value;
      Some(Scatter2DPoint(Point2D(Mid(v[0], v[1]), v[2], HalfWidth(v[0], v[1]), HalfWidth(v[0], v[1]), v[3], v[3])))
    else
    var n3 := Numbers(toks, 3, lex);
    if n3.Some? then Some(Scatter1DPoint(Point1D(n3.value[0], n3.value[1], n3.value[2])))
    else
    var n2 := Numbers(toks, 2, lex);
    if n2.Some? then Some(Scatter1DPoint(Point1D(n2.value[0], n2.value[1], n2.value[1])))
    else None
  }

  /** data_grammar::line: the point rules, then key=value, then a comment. */
  function ParseRow(line: string, lex: Lexer): Row
  {
    var pt := PointRow(Tokens(line), lex);
    if pt.Some? then pt.value
    else
    match KeyValue(line)
    case Some(kv) => KeyVal(kv.0, kv.1)
    case None => if IsComment(line) then Comment else Unparsed
  }

  // ---------------------------------------------------------------------------
  // Records and objects

  datatype Records = Records(s1Points: seq<Point1D>, s2Points: seq<Point2D>, s3Points: seq<Point3D>,
                             annotations: Annotations)

  /** cleanup(): all three point vectors and the annotations emptied. */
  function Cleared(): (r: Records)
    ensures r.s1Points == [] && r.s2Points == [] && r.s3Points == [] && r.annotations == []
  {
    Records([], [], [], [])
  }

  /** fillpoint pushes the point back on its vector; fillkeyval sets the
      annotation; comments and unparsed lines change nothing. */
  function ApplyRow(r: Records, row: Row): Records
  {
    match row
    case Scatter3DPoint(p) => r.(s3Points := r.s3Points + [p])
    case Scatter2DPoint(p) => r.(s2Points := r.s2Points + [p])
    case Scatter1DPoint(p) => r.(s1Points := r.s1Points + [p])
    case KeyVal(k, v) => r.(annotations := SetAnn(r.annotations, k, v))
    case Comment => r
    case Unparsed => r
  }

  function ParseRows(lines: seq<string>, lex: Lexer): (rows: seq<Row>)
    ensures |rows| == |lines| && forall i :: 0 <= i < |lines| ==> rows[i] == ParseRow(lines[i], lex)
  {
    Map(lines, RowParser(lex))
  }

  function RowParser(lex: Lexer): string -> Row
  {
    line => ParseRow(line, lex)
  }

  function ApplyRows(r: Records, rows: seq<Row>): Records
  {
    if rows == [] then r else ApplyRow(ApplyRows(r, rows[..|rows| - 1]), rows[|rows| - 1])
  }

  /** A scatter read from a flat block: its points, sorted by the
      sorted-vector conversion, and its annotations. */
  datatype FlatObject =
    | FlatScatter1D(points1: seq<Point1D>, annotations: Annotations)
    | FlatScatter2D(points2: seq<Point2D>, annotations: Annotations)
    | FlatScatter3D(points3: seq<Point3D>, annotations: Annotations)

  /** The object built on leaving a histogram block: a Scatter1D when any 1D
      point was read, else a Scatter2D, else a Scatter3D, each with the
      records' annotations set on it; ReadError when there is no point. */
  function Emit(r: Records): (o: Result<FlatObject>)
    ensures o.Err? <==> r.s1Points == [] && r.s2Points == [] && r.s3Points == []
    ensures o.Err? ==> o.error == ReadError
  {
    if r.s1Points != [] then Ok(FlatScatter1D(SortAll(r.s1Points, Less1), Overlaid(Fresh("Scatter1D"), r.annotations)))
    else if r.s2Points != [] then Ok(FlatScatter2D(SortAll(r.s2Points, Less2), Overlaid(Fresh("Scatter2D"), r.annotations)))
    else if r.s3Points != [] then Ok(FlatScatter3D(SortAll(r.s3Points, Less3), Overlaid(Fresh("Scatter3D"), r.annotations)))
    else Err(ReadError)
  }

  // ---------------------------------------------------------------------------
  // The read loop

  function FlatGroups(): seq<string>
  {
    ["HISTOGRAM", "HISTO1D", "HISTO2D", "COUNTER"]
  }

  datatype Machine = Machine(ctx: Context, records: Records)

  /** The result of some passes of the loop: the state, the objects pushed
      on aos, and whether a ReadError ended the read. */
  type Progress = (Machine, seq<FlatObject>, Outcome)

  /** One pass of the loop body. Leaving a histogram block with no point
      throws, with the context already switched and the records as they
      were. */
  function Step(m: Machine, line: string, lex: Lexer): Progress
  {
    var c := Regroup(m.ctx, MatchGroup(line, FlatGroups(), m.ctx.beginsOn, m.ctx.ends));
    if 1 <= c.context <= 4 then (Machine(c, ApplyRow(m.records, ParseRow(line, lex))), [], Outcome.Pass)
    else if -3 <= c.context <= -1 && c.contextChange then
      match Emit(m.records)
      case Ok(o) => (Machine(c.(contextChange := false), Cleared()), [o], Outcome.Pass)
      case Err(e) => (Machine(c, m.records), [], Fail(e))
    else (Machine(c, m.records), [], Outcome.Pass)
  }

  /** A loop over lines with a given body that may throw: after a throw no
      further line is looked at. */
  function Fold(m: Machine, lines: seq<string>, step: (Machine, string) -> Progress): Progress
  {
    if lines == [] then (m, [], Outcome.Pass)
    else
      var prev := Fold(m, lines[..|lines| - 1], step);
      if prev.2.Fail? then prev
      else
        var last := step(prev.0, lines[|lines| - 1]);
        (last.0, prev.1 + last.1, last.2)
  }

  function Run(m: Machine, lines: seq<string>, lex: Lexer): Progress
  {
    Fold(m, lines, (mm: Machine, line: string) => Step(mm, line, lex))
  }

  function Start(ends: set<int>, records: Records): Machine
  {
    Machine(Context(0, false, true, ends), records)
  }

  lemma RunSnoc(m: Machine, lines: seq<string>, i: nat, lex: Lexer)
    requires i < |lines|
    ensures var prev := Run(m, lines[..i], lex); var last := Step(prev.0, lines[i], lex);
      Run(m, lines[..i + 1], lex) == if prev.2.Fail? then prev else (last.0, prev.1 + last.1, last.2)
  {
    assert lines[..i + 1][..i] == lines[..i];
  }

  class ReaderFLAT {
    var records: Records
    var beginsOn: bool
    var ends: set<int>

    /** The static members before any read: empty tables and records. */
    constructor ()
      ensures records == Cleared() && !beginsOn && ends == {}
    {
      records := Cleared();
      beginsOn := false;
      ends := {};
    }

    /** _readDoc over the lines of the stream: the objects pushed on aos
        before the read ended, and the ReadError that ended it early, if
        one did. */
    method ReadDoc(lines: seq<string>, lex: Lexer) returns (aos: seq<FlatObject>, outcome: Outcome)
      modifies this
      ensures var r := Run(Start(old(ends), old(records)), lines, lex);
        aos == r.1 && outcome == r.2 && records == r.0.records && beginsOn == r.0.ctx.beginsOn && ends == r.0.ctx.ends
    {
      var start := Start(ends, records);
      var m := start;
      aos := [];
      outcome := Outcome.Pass;
      var i := 0;
      while i < |lines| && outcome.Pass?
        invariant 0 <= i <= |lines|
        invariant Run(start, lines[..i], lex) == (m, aos, outcome)
      {
        var emitted;
        m, emitted, outcome := StepLine(m, lines[i], lex);
        aos := aos + emitted;
        RunSnoc(start, lines, i, lex);
        i := i + 1;
      }
      if outcome.Fail? {
        RunStopped(start, lines, i, lex);
      } else {
        assert lines[..i] == lines;
      }
      records, beginsOn, ends := m.records, m.ctx.beginsOn, m.ctx.ends;
    }

    /** One turn of the _readDoc loop: the group table consulted, the context
        switched, then the line parsed into the records or, on leaving a
        histogram block, the object built from them. */
    static method StepLine(m: Machine, s: string, lex: Lexer) returns (next: Machine, emitted: seq<FlatObject>, outcome: Outcome)
      ensures (next, emitted, outcome) == Step(m, s, lex)
    {
      var context, contextChange, beginsOn, ends := m.ctx.context, m.ctx.contextChange, m.ctx.beginsOn, m.ctx.ends;
      var records := m.records;
      var newContext := MatchGroup(s, FlatGroups(), beginsOn, ends);
      if newContext.Some? {
        context := newContext.value;
        if context > 0 {
          beginsOn := false;
          ends := ends + {context};
        }
        if context < 0 {
          ends := ends - {-context};
          beginsOn := true;
          contextChange := true;
        }
      }
      assert Context(context, contextChange, beginsOn, ends) == Regroup(m.ctx, newContext);
      emitted := [];
      outcome := Outcome.Pass;
      if 1 <= context <= 4 {
        records := ApplyRow(records, ParseRow(s, lex));
      } else if -3 <= context <= -1 && contextChange {
        var o := Emit(records);
        if o.Err? {
          outcome := Fail(o.error);
        } else {
          emitted := [o.value];
          records := Cleared();
          contextChange := false;
        }
      }
      next := Machine(Context(context, contextChange, beginsOn, ends), records);
    }

    /** read(stream): the lines as safe_getline delivers them, then the
        document loop. */
    method Read(text: string, lex: Lexer) returns (aos: seq<FlatObject>, outcome: Outcome)
      modifies this
      ensures var r := Run(Start(old(ends), old(records)), LinesOf(text), lex);
        aos == r.1 && outcome == r.2 && records == r.0.records && beginsOn == r.0.ctx.beginsOn && ends == r.0.ctx.ends
    {
      var lines := ReadLines(text);
      aos, outcome := ReadDoc(lines, lex);
    }
  }

  // ---------------------------------------------------------------------------
  // Properties of the loop

  /** Reading two pieces one after the other is reading their
      concatenation; a read that failed in the first piece never looks at
      the second. */
  lemma RunAppend(m: Machine, a: seq<string>, b: seq<string>, lex: Lexer)
    ensures var ra := Run(m, a, lex); var rb := Run(ra.0, b, lex);
      Run(m, a + b, lex) == if ra.2.Fail? then ra else (rb.0, ra.1 + rb.1, rb.2)
  {
    FoldAppend(m, a, b, (mm: Machine, line: string) => Step(mm, line, lex));
  }

  /** Once a read has failed, the lines after the failure change nothing. */
  lemma RunStopped(m: Machine, lines: seq<string>, i: nat, lex: Lexer)
    requires i <= |lines| && Run(m, lines[..i], lex).2.Fail?
    ensures Run(m, lines, lex) == Run(m, lines[..i], lex)
  {
    assert lines == lines[..i] + lines[i..];
    RunAppend(m, lines[..i], lines[i..], lex);
  }

  lemma {:induction false} FoldAppend(m: Machine, a: seq<string>, b: seq<string>, step: (Machine, string) -> Progress)
    ensures var ra := Fold(m, a, step); var rb := Fold(ra.0, b, step);
      Fold(m, a + b, step) == if ra.2.Fail? then ra else (rb.0, ra.1 + rb.1, rb.2)
    decreases |b|
  {
    var ra := Fold(m, a, step);
    if b == [] {
      assert a + b == a;
      assert ra.1 + [] == ra.1;
    } else {
      var b0 := b[..|b| - 1];
      var ab := a + b;
      assert ab[..|ab| - 1] == a + b0;
      assert ab[|ab| - 1] == b[|b| - 1];
      FoldAppend(m, a, b0, step);
      var rb0 := Fold(ra.0, b0, step);
      if !ra.2.Fail? && !rb0.2.Fail? {
        var st := step(rb0.0, b[|b| - 1]);
        assert Fold(m, ab, step) == (st.0, ra.1 + rb0.1 + st.1, st.2);
        assert Fold(ra.0, b, step) == (st.0, rb0.1 + st.1, st.2);
        assert ra.1 + rb0.1 + st.1 == ra.1 + (rb0.1 + st.1);
      }
    }
  }

  // ---------------------------------------------------------------------------
  // Properties of the blocks

  /** No group name is a prefix of another. */
  lemma FlatGroupsPrefixFree()
    ensures PrefixFree(FlatGroups())
  {
    var names := FlatGroups();
    forall g, h | 0 <= g < |names| && 0 <= h < |names| && g != h
      ensures !IsPrefix(names[g], names[h])
    {
      if |names[g]| <= |names[h]| {
        assert names[h][..|names[g]|] != names[g] by {
          var k := if g == 3 || h == 3 then 0 else 5;
          assert names[h][k] != names[g][k];
        }
      }
    }
  }

  /** A BEGIN line of a known group, met while the BEGIN table is on, opens
      the block, and the line itself is parsed as content. */
  lemma EnterBlock(m: Machine, g: int, rest: string, lex: Lexer)
    requires m.ctx.beginsOn && 1 <= g <= 4
    ensures var line := BeginLine(FlatGroups(), g, rest);
      Step(m, line, lex) ==
        (Machine(Context(g, m.ctx.contextChange, false, m.ctx.ends + {g}), ApplyRow(m.records, ParseRow(line, lex))), [],
         Outcome.Pass)
  {
    FlatGroupsPrefixFree();
    BeginMatches(FlatGroups(), g, rest, true, m.ctx.ends);
  }

  /** The END line of an open HISTOGRAM, HISTO1D or HISTO2D block builds the
      scatter from the records and clears them, or, when the block read no
      point, throws ReadError with the context already switched. */
  lemma LeaveHistogram(m: Machine, g: int, rest: string, lex: Lexer)
    requires 1 <= g <= 3 && g in m.ctx.ends
    ensures var r := Step(m, EndLine(FlatGroups(), g, rest), lex);
      match Emit(m.records)
      case Ok(o) => r == (Machine(Context(-g, false, true, m.ctx.ends - {g}), Cleared()), [o], Outcome.Pass)
      case Err(_) => r == (Machine(Context(-g, true, true, m.ctx.ends - {g}), m.records), [], Fail(ReadError))
  {
    FlatGroupsPrefixFree();
    var line := EndLine(FlatGroups(), g, rest);
    EndMatches(FlatGroups(), g, rest, m.ctx.beginsOn, m.ctx.ends);
    StepCloses(m, line, lex, g);
  }

  /** Step on a line that the group table reads as closing group g. */
  lemma StepCloses(m: Machine, line: string, lex: Lexer, g: int)
    requires 1 <= g <= 3 && MatchGroup(line, FlatGroups(), m.ctx.beginsOn, m.ctx.ends) == Some(-g)
    ensures var r := Step(m, line, lex);
      match Emit(m.records)
      case Ok(o) => r == (Machine(Context(-g, false, true, m.ctx.ends - {g}), Cleared()), [o], Outcome.Pass)
      case Err(_) => r == (Machine(Context(-g, true, true, m.ctx.ends - {g}), m.records), [], Fail(ReadError))
  {
    var c := Regroup(m.ctx, Some(-g));
    assert c == Context(-g, true, true, m.ctx.ends - {g});
  }

  /** The END line of a COUNTER block builds nothing: the records, the
      counter's rows included, stay for whatever block comes next. */
  lemma LeaveCounter(m: Machine, rest: string, lex: Lexer)
    requires 4 in m.ctx.ends
    ensures Step(m, EndLine(FlatGroups(), 4, rest), lex) ==
      (Machine(Context(-4, true, true, m.ctx.ends - {4}), m.records), [], Outcome.Pass)
  {
    FlatGroupsPrefixFree();
    EndMatches(FlatGroups(), 4, rest, m.ctx.beginsOn, m.ctx.ends);
  }

  /** Inside a block every line but an END is content. */
  lemma LineInsideBlock(m: Machine, line: string, lex: Lexer)
    requires 1 <= m.ctx.context <= 4 && !m.ctx.beginsOn && !IsPrefix(EndTag, line)
    ensures Step(m, line, lex) == (Machine(m.ctx, ApplyRow(m.records, ParseRow(line, lex))), [], Outcome.Pass)
  {
  }

  /** Outside any block, once the last object is out, an untagged line
      changes nothing. */
  lemma LineOutsideBlock(m: Machine, line: string, lex: Lexer)
    requires m.ctx.context <= 0 && !(-3 <= m.ctx.context && m.ctx.contextChange)
    requires !IsPrefix(BeginTag, line) && !IsPrefix(EndTag, line)
    ensures Step(m, line, lex) == (m, [], Outcome.Pass)
  {
  }

  /** Run(m, s) unfolded once at its last line. */
  lemma RunLast(m: Machine, s: seq<string>, lex: Lexer)
    requires s != []
    ensures var prev := Run(m, s[..|s| - 1], lex); var last := Step(prev.0, s[|s| - 1], lex);
      Run(m, s, lex) == if prev.2.Fail? then prev else (last.0, prev.1 + last.1, last.2)
  {
  }

  lemma RunOne(m: Machine, line: string, lex: Lexer)
    ensures Run(m, [line], lex) == Step(m, line, lex)
  {
    RunLast(m, [line], lex);
    assert [line][..0] == [];
    assert Run(m, [], lex) == (m, [], Outcome.Pass);
    assert [] + Step(m, line, lex).1 == Step(m, line, lex).1;
  }

  lemma {:induction false} RunInsideBlock(m: Machine, body: seq<string>, lex: Lexer)
    requires 1 <= m.ctx.context <= 4 && !m.ctx.beginsOn
    requires forall i :: 0 <= i < |body| ==> !IsPrefix(EndTag, body[i])
    ensures Run(m, body, lex) == (Machine(m.ctx, ApplyRows(m.records, ParseRows(body, lex))), [], Outcome.Pass)
    decreases |body|
  {
    if body != [] {
      var b0 := body[..|body| - 1];
      RunInsideBlock(m, b0, lex);
      ContentLineAfter(m, body, ApplyRows(m.records, ParseRows(b0, lex)), lex);
      ApplyRowsSnoc(m.records, body, lex);
    }
  }

  /** The last line of a piece read inside a block, after the others. */
  lemma ContentLineAfter(m: Machine, s: seq<string>, r: Records, lex: Lexer)
    requires s != [] && Run(m, s[..|s| - 1], lex) == (Machine(m.ctx, r), [], Outcome.Pass)
    requires 1 <= m.ctx.context <= 4 && !m.ctx.beginsOn && !IsPrefix(EndTag, s[|s| - 1])
    ensures Run(m, s, lex) == (Machine(m.ctx, ApplyRow(r, ParseRow(s[|s| - 1], lex))), [], Outcome.Pass)
  {
    LineInsideBlock(Machine(m.ctx, r), s[|s| - 1], lex);
    RunLast(m, s, lex);
    var none: seq<FlatObject> := [];
    assert none + none == none;
  }

  lemma ApplyRowsSnoc(r: Records, s: seq<string>, lex: Lexer)
    requires s != []
    ensures ApplyRows(r, ParseRows(s, lex)) == ApplyRow(ApplyRows(r, ParseRows(s[..|s| - 1], lex)), ParseRow(s[|s| - 1], lex))
  {
    assert ParseRows(s, lex)[..|s| - 1] == ParseRows(s[..|s| - 1], lex);
  }

  /** The actions of a first line, then of the rest. */
  lemma ApplyRowsCons(r: Records, first: string, rest: seq<string>, lex: Lexer)
    ensures ApplyRows(r, ParseRows([first] + rest, lex)) == ApplyRows(ApplyRow(r, ParseRow(first, lex)), ParseRows(rest, lex))
  {
    ParseRowsAppend([first], rest, lex);
    assert ParseRows([first], lex) == [ParseRow(first, lex)];
    ApplyRowsFirst(r, ParseRow(first, lex), ParseRows(rest, lex));
  }

  lemma {:induction false} ApplyRowsFirst(r: Records, row: Row, rows: seq<Row>)
    ensures ApplyRows(r, [row] + rows) == ApplyRows(ApplyRow(r, row), rows)
    decreases |rows|
  {
    if rows != [] {
      var r0, last := rows[..|rows| - 1], rows[|rows| - 1];
      ApplyRowsFirst(r, row, r0);
      assert [row] + rows == ([row] + r0) + [last];
      assert rows == r0 + [last];
      ApplyRowsSnocRow(r, [row] + r0, last);
      ApplyRowsSnocRow(ApplyRow(r, row), r0, last);
    }
  }

  lemma ApplyRowsSnocRow(r: Records, rows: seq<Row>, row: Row)
    ensures ApplyRows(r, rows + [row]) == ApplyRow(ApplyRows(r, rows), row)
  {
    assert (rows + [row])[..|rows|] == rows;
  }

  /** A block up to, but not including, its END line: the state it leaves
      and the records its lines, the BEGIN line's included, build. */
  lemma OpenBlock(m: Machine, g: int, r1: string, body: seq<string>, lex: Lexer)
    requires m.ctx.beginsOn && 1 <= g <= 4
    requires forall i :: 0 <= i < |body| ==> !IsPrefix(EndTag, body[i])
    ensures var begin := BeginLine(FlatGroups(), g, r1);
      Run(m, [begin] + body, lex) ==
        (Machine(Context(g, m.ctx.contextChange, false, m.ctx.ends + {g}), ApplyRows(m.records, ParseRows([begin] + body, lex))),
         [], Outcome.Pass)
  {
    var begin := BeginLine(FlatGroups(), g, r1);
    EnterBlock(m, g, r1, lex);
    var inside := Step(m, begin, lex).0;
    RunOne(m, begin, lex);
    RunInsideBlock(inside, body, lex);
    RunAppend(m, [begin], body, lex);
    ApplyRowsCons(m.records, begin, body, lex);
  }

  /** A whole histogram block, from its BEGIN line to its END line, with no
      "# END " line inside: exactly one object, built from the records its
      lines add to those it started with, or ReadError when no point was
      read, none of its lines' included. */
  lemma HistogramBlock(m: Machine, g: int, r1: string, body: seq<string>, r2: string, lex: Lexer)
    requires m.ctx.beginsOn && 1 <= g <= 3
    requires forall i :: 0 <= i < |body| ==> !IsPrefix(EndTag, body[i])
    ensures var begin := BeginLine(FlatGroups(), g, r1);
      var r := Run(m, [begin] + body + [EndLine(FlatGroups(), g, r2)], lex);
      var recs := ApplyRows(m.records, ParseRows([begin] + body, lex));
      match Emit(recs)
      case Ok(o) => r == (Machine(Context(-g, false, true, m.ctx.ends + {g} - {g}), Cleared()), [o], Outcome.Pass)
      case Err(_) => r == (Machine(Context(-g, true, true, m.ctx.ends + {g} - {g}), recs), [], Fail(ReadError))
  {
    var begin := BeginLine(FlatGroups(), g, r1);
    var end := EndLine(FlatGroups(), g, r2);
    OpenBlock(m, g, r1, body, lex);
    var full := Run(m, [begin] + body, lex).0;
    LeaveHistogram(full, g, r2, lex);
    RunOne(full, end, lex);
    RunAppend(m, [begin] + body, [end], lex);
    assert [] + Step(full, end, lex).1 == Step(full, end, lex).1;
  }

  /** A whole COUNTER block yields nothing and leaves its lines' actions in
      the records. */
  lemma CounterBlock(m: Machine, r1: string, body: seq<string>, r2: string, lex: Lexer)
    requires m.ctx.beginsOn
    requires forall i :: 0 <= i < |body| ==> !IsPrefix(EndTag, body[i])
    ensures var begin := BeginLine(FlatGroups(), 4, r1);
      Run(m, [begin] + body + [EndLine(FlatGroups(), 4, r2)], lex) ==
        (Machine(Context(-4, true, true, m.ctx.ends + {4} - {4}), ApplyRows(m.records, ParseRows([begin] + body, lex))),
         [], Outcome.Pass)
  {
    var begin := BeginLine(FlatGroups(), 4, r1);
    var end := EndLine(FlatGroups(), 4, r2);
    OpenBlock(m, 4, r1, body, lex);
    var full := Run(m, [begin] + body, lex).0;
    LeaveCounter(full, r2, lex);
    RunOne(full, end, lex);
    RunAppend(m, [begin] + body, [end], lex);
    assert Run(m, [begin] + body, lex).1 + Step(full, end, lex).1 == [];
  }

  /** A COUNTER block followed by a histogram block reads as the histogram
      block alone started from the records the counter block left: its "value
      error" row is a point of a Scatter1D, and since 1D points come first
      that point decides the kind of the next object read, whatever that
      block holds. */
  lemma CounterRowsLeak(m: Machine, c1: string, cbody: seq<string>, c2: string,
                        g: int, h1: string, hbody: seq<string>, h2: string, lex: Lexer)
    requires m.ctx.beginsOn && 1 <= g <= 3
    requires forall i :: 0 <= i < |cbody| ==> !IsPrefix(EndTag, cbody[i])
    requires forall i :: 0 <= i < |hbody| ==> !IsPrefix(EndTag, hbody[i])
    requires Collect(ParseRows([BeginLine(FlatGroups(), 4, c1)] + cbody, lex), S1PointOf) != []
    ensures var counter := [BeginLine(FlatGroups(), 4, c1)] + cbody + [EndLine(FlatGroups(), 4, c2)];
      var histo := [BeginLine(FlatGroups(), g, h1)] + hbody + [EndLine(FlatGroups(), g, h2)];
      var r := Run(m, counter + histo, lex);
      r.2.Pass? && |r.1| == 1 && r.1[0].FlatScatter1D?
  {
    var counter := [BeginLine(FlatGroups(), 4, c1)] + cbody + [EndLine(FlatGroups(), 4, c2)];
    var histo := [BeginLine(FlatGroups(), g, h1)] + hbody + [EndLine(FlatGroups(), g, h2)];
    CounterBlock(m, c1, cbody, c2, lex);
    var mid := Run(m, counter, lex).0;
    ApplyRowsPushes(m.records, ParseRows([BeginLine(FlatGroups(), 4, c1)] + cbody, lex));
    assert mid.records.s1Points != [];
    HistogramBlock(mid, g, h1, hbody, h2, lex);
    var recs := ApplyRows(mid.records, ParseRows([BeginLine(FlatGroups(), g, h1)] + hbody, lex));
    ApplyRowsPushes(mid.records, ParseRows([BeginLine(FlatGroups(), g, h1)] + hbody, lex));
    assert recs.s1Points != [];
    RunAppend(m, counter, histo, lex);
  }

  // ---------------------------------------------------------------------------
  // Properties of the content rows

  /** Seven numbers: the 2D bin edges, z and its two errors; the point sits
      at the middle of the bin with half its widths as x and y errors. */
  lemma Asym2DLine(line: string, lex: Lexer)
    requires |Tokens(line)| == 7 && forall i :: 0 <= i < 7 ==> lex(Tokens(line)[i]).Some?
    ensures var t := Tokens(line);
      var xw := HalfWidth(Col(t, 0, lex), Col(t, 1, lex));
      var yw := HalfWidth(Col(t, 2, lex), Col(t, 3, lex));
      ParseRow(line, lex) == Scatter3DPoint(Point3D(Mid(Col(t, 0, lex), Col(t, 1, lex)), Mid(Col(t, 2, lex), Col(t, 3, lex)),
        Col(t, 4, lex), xw, xw, yw, yw, Col(t, 5, lex), Col(t, 6, lex)))
  {
  }

  /** Six numbers: the same with one symmetric z error. */
  lemma Sym2DLine(line: string, lex: Lexer)
    requires |Tokens(line)| == 6 && forall i :: 0 <= i < 6 ==> lex(Tokens(line)[i]).Some?
    ensures var t := Tokens(line);
      var xw := HalfWidth(Col(t, 0, lex), Col(t, 1, lex));
      var yw := HalfWidth(Col(t, 2, lex), Col(t, 3, lex));
      ParseRow(line, lex) == Scatter3DPoint(Point3D(Mid(Col(t, 0, lex), Col(t, 1, lex)), Mid(Col(t, 2, lex), Col(t, 3, lex)),
        Col(t, 4, lex), xw, xw, yw, yw, Col(t, 5, lex), Col(t, 5, lex)))
  {
  }

  /** Five numbers: xlow, xhigh, y and its two errors, a Scatter2D point at
      the middle of the bin. */
  lemma Asym1DLine(line: string, lex: Lexer)
    requires |Tokens(line)| == 5 && forall i :: 0 <= i < 5 ==> lex(Tokens(line)[i]).Some?
    ensures var t := Tokens(line);
      var xw := HalfWidth(Col(t, 0, lex), Col(t, 1, lex));
      ParseRow(line, lex) == Scatter2DPoint(Point2D(Mid(Col(t, 0, lex), Col(t, 1, lex)), Col(t, 2, lex), xw, xw,
        Col(t, 3, lex), Col(t, 4, lex)))
  {
  }

  /** Four numbers: the same with one symmetric y error. */
  lemma Sym1DLine(line: string, lex: Lexer)
    requires |Tokens(line)| == 4 && forall i :: 0 <= i < 4 ==> lex(Tokens(line)[i]).Some?
    ensures var t := Tokens(line);
      var xw := HalfWidth(Col(t, 0, lex), Col(t, 1, lex));
      ParseRow(line, lex) == Scatter2DPoint(Point2D(Mid(Col(t, 0, lex), Col(t, 1, lex)), Col(t, 2, lex), xw, xw,
        Col(t, 3, lex), Col(t, 3, lex)))
  {
  }

  /** Three numbers: a value and its two errors. */
  lemma Asym0DLine(line: string, lex: Lexer)
    requires |Tokens(line)| == 3 && forall i :: 0 <= i < 3 ==> lex(Tokens(line)[i]).Some?
    ensures var t := Tokens(line);
      ParseRow(line, lex) == Scatter1DPoint(Point1D(Col(t, 0, lex), Col(t, 1, lex), Col(t, 2, lex)))
  {
  }

  /** Two numbers: a value and one symmetric error, as a counter's row. */
  lemma Sym0DLine(line: string, lex: Lexer)
    requires |Tokens(line)| == 2 && forall i :: 0 <= i < 2 ==> lex(Tokens(line)[i]).Some?
    ensures var t := Tokens(line);
      ParseRow(line, lex) == Scatter1DPoint(Point1D(Col(t, 0, lex), Col(t, 1, lex), Col(t, 1, lex)))
  {
  }

  /** A line whose first word is not a number is no point row. */
  lemma NoPointRow(line: string, lex: Lexer)
    requires Tokens(line) != [] && lex(Tokens(line)[0]).None?
    ensures PointRow(Tokens(line), lex) == None
  {
    var t := Tokens(line);
    assert forall k :: k >= 1 ==> Numbers(t, k, lex).None?;
  }

  /** name=value is an annotation. */
  lemma AnnotationLine(key: string, value: string, lex: Lexer)
    requires NumberLexer(lex)
    requires key != [] && !IsDigit(key[0]) && key[0] != '-'
    requires forall k :: 0 <= k < |key| ==> key[k] != '=' && !IsSpace(key[k])
    requires value == [] || !IsSpace(value[0])
    ensures ParseRow(key + "=" + value, lex) == KeyVal(key, value)
  {
    var line := key + "=" + value;
    AnnotationFirstWord(key, value);
    assert lex(Tokens(line)[0]).None?;
    NoPointRow(line, lex);
    KeyValueOfLine(key, value);
  }

  /** A line starting with '#' after blanks, with no '=', is a comment. */
  lemma CommentLine(pad: string, rest: string, lex: Lexer)
    requires NumberLexer(lex)
    requires forall k :: 0 <= k < |pad| ==> IsSpace(pad[k])
    requires forall k :: 0 <= k < |rest| ==> rest[k] != '='
    ensures ParseRow(pad + "#" + rest, lex) == Comment
  {
    var line := pad + "#" + rest;
    CommentFirstWord(pad, rest);
    assert lex(Tokens(line)[0]).None?;
    NoPointRow(line, lex);
  }

  // ---------------------------------------------------------------------------
  // Properties of the records

  function S1PointOf(row: Row): Option<Point1D> { if row.Scatter1DPoint? then Some(row.pt1) else None }
  function S2PointOf(row: Row): Option<Point2D> { if row.Scatter2DPoint? then Some(row.pt2) else None }
  function S3PointOf(row: Row): Option<Point3D> { if row.Scatter3DPoint? then Some(row.pt3) else None }
  function KeyValOf(row: Row): Option<(string, string)> { if row.KeyVal? then Some((row.key, row.value)) else None }

  /** Points are kept in the order of their lines, each kind on its own
      vector, after those already in the records; the annotation lines are
      set one after the other. */
  lemma {:induction false} ApplyRowsCollects(r: Records, rows: seq<Row>)
    ensures var a := ApplyRows(r, rows);
      a.s1Points == r.s1Points + Collect(rows, S1PointOf) && a.s2Points == r.s2Points + Collect(rows, S2PointOf)
      && a.s3Points == r.s3Points + Collect(rows, S3PointOf)
      && a.annotations == Overlaid(r.annotations, Collect(rows, KeyValOf))
  {
    if rows != [] {
      var init := rows[..|rows| - 1];
      var x := rows[|rows| - 1];
      assert rows == init + [x];
      ApplyRowsCollects(r, init);
      CollectSnoc(init, x, S1PointOf);
      CollectSnoc(init, x, S2PointOf);
      CollectSnoc(init, x, S3PointOf);
      CollectSnoc(init, x, KeyValOf);
      if x.KeyVal? {
        OverlaidSnoc(r.annotations, Collect(init, KeyValOf), (x.key, x.value));
      } else {
        assert Collect(init, KeyValOf) + [] == Collect(init, KeyValOf);
      }
    }
  }

  lemma ParseRowsAppend(a: seq<string>, b: seq<string>, lex: Lexer)
    ensures ParseRows(a + b, lex) == ParseRows(a, lex) + ParseRows(b, lex)
  {
    MapAppend(a, b, RowParser(lex));
  }

  lemma ApplyRowsPushes(r: Records, rows: seq<Row>)
    ensures ApplyRows(r, rows).s1Points == r.s1Points + Collect(rows, S1PointOf)
  {
    ApplyRowsCollects(r, rows);
  }

  /** The object built from the records: the points of the first kind read,
      sorted, with the same points as the records hold, and the records'
      annotations over "Type" set to its type name and empty "Path" and
      "Title". */
  lemma EmitProperties(r: Records)
    requires WellFormed(r.annotations) && Emit(r).Ok?
    ensures var o := Emit(r).value;
      WellFormed(o.annotations)
      && (o.FlatScatter1D? <==> r.s1Points != [])
      && (o.FlatScatter2D? <==> r.s1Points == [] && r.s2Points != [])
      && (o.FlatScatter3D? <==> r.s1Points == [] && r.s2Points == [])
      && (o.FlatScatter1D? ==> Sorted(o.points1, Less1) && multiset(o.points1) == multiset(r.s1Points))
      && (o.FlatScatter2D? ==> Sorted(o.points2, Less2) && multiset(o.points2) == multiset(r.s2Points))
      && (o.FlatScatter3D? ==> Sorted(o.points3, Less3) && multiset(o.points3) == multiset(r.s3Points))
      && forall m :: Lookup(o.annotations, m) == LookupOverFresh(r.annotations, FlatTypeName(o), m)
  {
    PointOrdersAsymmetric();
    var o := Emit(r).value;
    if r.s1Points != [] {
      SortAllProperties(r.s1Points, Less1);
    } else if r.s2Points != [] {
      SortAllProperties(r.s2Points, Less2);
    } else {
      SortAllProperties(r.s3Points, Less3);
    }
    FreshOverlaid(FlatTypeName(o), r.annotations);
  }

  function FlatTypeName(o: FlatObject): string
  {
    match o
    case FlatScatter1D(_, _) => "Scatter1D"
    case FlatScatter2D(_, _) => "Scatter2D"
    case FlatScatter3D(_, _) => "Scatter3D"
  }

  lemma ApplyRowWellFormed(r: Records, row: Row)
    requires WellFormed(r.annotations)
    ensures WellFormed(ApplyRow(r, row).annotations)
  {
    if row.KeyVal? {
      SetAnnProperties(r.annotations, row.key, row.value);
    }
  }

  lemma StepWellFormed(m: Machine, line: string, lex: Lexer)
    requires WellFormed(m.records.annotations)
    ensures var st := Step(m, line, lex);
      WellFormed(st.0.records.annotations) && forall i :: 0 <= i < |st.1| ==> WellFormed(st.1[i].annotations)
  {
    ApplyRowWellFormed(m.records, ParseRow(line, lex));
    if Emit(m.records).Ok? {
      EmitProperties(m.records);
    }
  }

  /** Along a read the records' annotations stay well formed, and so do
      those of every object read. */
  lemma {:induction false} RunWellFormed(m: Machine, lines: seq<string>, lex: Lexer)
    requires WellFormed(m.records.annotations)
    ensures var r := Run(m, lines, lex);
      WellFormed(r.0.records.annotations) && forall i :: 0 <= i < |r.1| ==> WellFormed(r.1[i].annotations)
  {
    if lines != [] {
      var init := lines[..|lines| - 1];
      var prev := Run(m, init, lex);
      RunWellFormed(m, init, lex);
      if !prev.2.Fail? {
        var st := Step(prev.0, lines[|lines| - 1], lex);
        StepWellFormed(prev.0, lines[|lines| - 1], lex);
        assert Run(m, lines, lex) == (st.0, prev.1 + st.1, st.2);
      }
    }
  }
}
