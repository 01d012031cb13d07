/** What the two text writers share (src/WriterYODA.cc, src/WriterFLAT.cc):
    the stream is the sequence of lines written so far, a data row is its
    columns joined by tabs, and the annotation lines are `name=value`, one
    per annotation the writer keeps, in map order.

    Number formatting (scientific notation, precision) is a parameter: `fmt`
    gives the text of a real. A reader can recover the number exactly when
    the lexer inverts the formatter on every real. */
module TextRows {
  import opened Wrappers
  import opened AnalysisObject
  import opened LineGrammar
  import opened Dbn

  type Formatter = real -> string

  function Row(cols: seq<string>): string { Spaced(cols, '\t') }

  /** The reader's lexer takes back every number the writer formats, and a
      formatted number is one word. */
  ghost predicate Readable(fmt: Formatter, lex: Lexer) {
    forall x :: lex(fmt(x)) == Some(x) && IsWord(fmt(x))
  }

  /** An entry the writer leaves out: an empty name always; "Type" too for
      the flat writer. */
  predicate Skipped(name: string, skipType: bool) {
    name == "" || (skipType && name == "Type")
  }

  /** The entries written, in map order. */
  function Kept(a: Annotations, skipType: bool): (r: Annotations)
    ensures |r| <= |a|
  {
    if a == [] then [] else (if Skipped(a[0].0, skipType) then [] else [a[0]]) + Kept(a[1..], skipType)
  }

  function AnnotationLine(kv: (string, string)): string { kv.0 + "=" + kv.1 }

  /** _writeAnnotations: one line per entry kept. */
  function AnnotationLines(a: Annotations, skipType: bool): (r: seq<string>)
    ensures |r| == |Kept(a, skipType)|
  {
    var k := Kept(a, skipType);
    seq(|k|, i requires 0 <= i < |k| => AnnotationLine(k[i]))
  }

  /** One line per element, in order: the loop over the bins or points. */
  function Rows<T>(s: seq<T>, fmt: Formatter, row: (T, Formatter) -> string): (r: seq<string>)
    ensures |r| == |s|
  {
    seq(|s|, i requires 0 <= i < |s| => row(s[i], fmt))
  }

  /** The numbers of a row, each formatted. */
  function Texts(xs: seq<real>, fmt: Formatter): (r: seq<string>)
    ensures |r| == |xs|
  {
    seq(|xs|, i requires 0 <= i < |xs| => fmt(xs[i]))
  }

  /** The numbers of a row, then a count in decimal. */
  function Counted(xs: seq<real>, n: nat, fmt: Formatter): (r: seq<string>)
    ensures |r| == |xs| + 1
  {
    Texts(xs, fmt) + [ULongText(n)]
  }

  /** A literal tag, written twice in front of the columns, each copy
      followed by blanks: the total and outflow rows. */
  function TaggedRow(tag: string, pad: string, cols: seq<string>): string
  {
    tag + pad + tag + pad + Row(cols)
  }

  // ---------------------------------------------------------------------------
  // Properties

  /** Appending to the stream in pieces writes the pieces joined. */
  lemma AppendAssoc<T>(a: seq<T>, b: seq<T>, c: seq<T>)
    ensures a + (b + c) == a + b + c
  {
  }

  lemma RowsSnoc<T>(s: seq<T>, i: nat, fmt: Formatter, row: (T, Formatter) -> string)
    requires i < |s|
    ensures Rows(s[..i + 1], fmt, row) == Rows(s[..i], fmt, row) + [row(s[i], fmt)]
  {
    assert Rows(s[..i + 1], fmt, row)[i] == row(s[i], fmt);
  }

  lemma AnnotationLinesSnoc(a: Annotations, i: nat, skipType: bool)
    requires i < |a|
    ensures AnnotationLines(a[..i + 1], skipType) ==
      AnnotationLines(a[..i], skipType) + (if Skipped(a[i].0, skipType) then [] else [AnnotationLine(a[i])])
  {
    TakeSnoc(a, i);
    KeptSnoc(a[..i], a[i], skipType);
  }

  lemma {:induction false} KeptSnoc(a: Annotations, kv: (string, string), skipType: bool)
    ensures Kept(a + [kv], skipType) == Kept(a, skipType) + (if Skipped(kv.0, skipType) then [] else [kv])
  {
    var t: Annotations := if Skipped(kv.0, skipType) then [] else [kv];
    if a == [] {
      assert a + [kv] == [kv] && [kv][1..] == [];
      assert Kept([kv], skipType) == t + [];
    } else {
      var h: Annotations := if Skipped(a[0].0, skipType) then [] else [a[0]];
      assert (a + [kv])[0] == a[0] && (a + [kv])[1..] == a[1..] + [kv];
      assert Kept(a + [kv], skipType) == h + Kept(a[1..] + [kv], skipType);
      KeptSnoc(a[1..], kv, skipType);
      AppendAssoc(h, Kept(a[1..], skipType), t);
    }
  }

  /** The entries written are entries of the map. */
  lemma {:induction false} KeptFrom(a: Annotations, skipType: bool)
    ensures forall i :: 0 <= i < |Kept(a, skipType)| ==> Kept(a, skipType)[i] in a && !Skipped(Kept(a, skipType)[i].0, skipType)
  {
    if a != [] {
      KeptFrom(a[1..], skipType);
      var k := Kept(a, skipType);
      var h := if Skipped(a[0].0, skipType) then [] else [a[0]];
      forall i | 0 <= i < |k| ensures k[i] in a && !Skipped(k[i].0, skipType) {
        if i >= |h| {
          assert k[i] == Kept(a[1..], skipType)[i - |h|];
          assert k[i] in a[1..];
        }
      }
    }
  }

  /** Writing the annotations leaves out exactly the skipped names and keeps
      the others with their values; the lines are in key order. */
  lemma KeptLookup(a: Annotations, skipType: bool)
    requires WellFormed(a)
    ensures WellFormed(Kept(a, skipType))
    ensures forall m :: Lookup(Kept(a, skipType), m) == if Skipped(m, skipType) then None else Lookup(a, m)
  {
    KeptWellFormed(a, skipType);
    forall m ensures Lookup(Kept(a, skipType), m) == if Skipped(m, skipType) then None else Lookup(a, m) {
      KeptValue(a, skipType, m);
    }
  }

  lemma {:induction false} KeptWellFormed(a: Annotations, skipType: bool)
    requires WellFormed(a)
    ensures WellFormed(Kept(a, skipType))
  {
    if a != [] {
      WellFormedTail(a);
      KeptWellFormed(a[1..], skipType);
      KeptAbove(a[1..], skipType, a[0].0);
      var rest := Kept(a[1..], skipType);
      if !Skipped(a[0].0, skipType) {
        ConsWellFormed(a[0], rest);
        assert Kept(a, skipType) == [a[0]] + rest;
      } else {
        assert Kept(a, skipType) == rest by { assert [] + rest == rest; }
      }
    }
  }

  lemma ConsWellFormed(x: (string, string), rest: Annotations)
    requires WellFormed(rest) && forall i :: 0 <= i < |rest| ==> StrLess(x.0, rest[i].0)
    ensures WellFormed([x] + rest)
  {
    var k := [x] + rest;
    forall i, j | 0 <= i < j < |k| ensures StrLess(k[i].0, k[j].0) {
      assert k[j] == rest[j - 1];
      if i > 0 {
        assert k[i] == rest[i - 1];
      }
    }
  }

  lemma {:induction false} KeptAbove(a: Annotations, skipType: bool, low: string)
    requires forall i :: 0 <= i < |a| ==> StrLess(low, a[i].0)
    ensures forall i :: 0 <= i < |Kept(a, skipType)| ==> StrLess(low, Kept(a, skipType)[i].0)
  {
    if a != [] {
      KeptAbove(a[1..], skipType, low);
      var k := Kept(a, skipType);
      var h := if Skipped(a[0].0, skipType) then [] else [a[0]];
      assert k == h + Kept(a[1..], skipType);
      forall i | 0 <= i < |k| ensures StrLess(low, k[i].0) {
        if i >= |h| {
          assert k[i] == Kept(a[1..], skipType)[i - |h|];
        }
      }
    }
  }

  lemma {:induction false} KeptValue(a: Annotations, skipType: bool, m: string)
    requires WellFormed(a)
    ensures Lookup(Kept(a, skipType), m) == if Skipped(m, skipType) then None else Lookup(a, m)
  {
    if a != [] {
      WellFormedTail(a);
      KeptValue(a[1..], skipType, m);
      var rest := Kept(a[1..], skipType);
      if !Skipped(a[0].0, skipType) {
        assert Kept(a, skipType) == [a[0]] + rest;
        assert ([a[0]] + rest)[1..] == rest;
      } else {
        assert Kept(a, skipType) == rest by { assert [] + rest == rest; }
      }
    }
  }

  /** A row of words comes back, word for word, as the tokens of its line. */
  lemma RowTokens(cols: seq<string>)
    requires forall i :: 0 <= i < |cols| ==> IsWord(cols[i])
    ensures Tokens(Row(cols)) == cols
  {
    TokensSpaced(cols, '\t');
  }

  /** The first character of a row is that of its first column. */
  lemma RowHead(cols: seq<string>)
    requires cols != [] && cols[0] != []
    ensures Row(cols) != [] && Row(cols)[0] == cols[0][0]
  {
  }

  /** A word, blanks, then a line that starts with no blank. */
  lemma LeadTokens(w: string, pad: string, rest: string)
    requires IsWord(w) && pad != [] && forall k :: 0 <= k < |pad| ==> IsSpace(pad[k])
    requires rest == [] || !IsSpace(rest[0])
    ensures Tokens(w + pad + rest) == [w] + Tokens(rest)
  {
    assert w + pad + rest == w + (pad + rest);
    TokensOfWord(w, pad + rest);
    SkipSpaceOver(pad, rest);
    assert SkipSpace(rest) == rest;
  }

  /** The tokens of a total or outflow row: the tag twice, then the
      columns. */
  lemma TaggedRowTokens(tag: string, pad: string, cols: seq<string>)
    requires IsWord(tag) && pad != [] && forall k :: 0 <= k < |pad| ==> IsSpace(pad[k])
    requires forall i :: 0 <= i < |cols| ==> IsWord(cols[i])
    ensures Tokens(TaggedRow(tag, pad, cols)) == [tag, tag] + cols
  {
    var row := Row(cols);
    RowTokens(cols);
    if cols != [] {
      RowHead(cols);
    }
    var second := tag + pad + row;
    LeadTokens(tag, pad, row);
    assert second[0] == tag[0];
    assert TaggedRow(tag, pad, cols) == tag + pad + second;
    LeadTokens(tag, pad, second);
  }

  lemma ReadableAt(fmt: Formatter, lex: Lexer, x: real)
    requires Readable(fmt, lex)
    ensures IsWord(fmt(x)) && lex(fmt(x)) == Some(x)
  {
  }

  /** A formatted number is a word, and starts like a number. */
  lemma FormattedWord(fmt: Formatter, lex: Lexer, x: real)
    requires Readable(fmt, lex) && NumberLexer(lex)
    ensures IsWord(fmt(x)) && lex(fmt(x)) == Some(x) && fmt(x)[0] in NumberStart && fmt(x)[0] != '#'
  {
  }

  /** A row of formatted numbers splits into the formatted numbers, each
      of which the lexer takes back. */
  lemma TextsRead(xs: seq<real>, fmt: Formatter, lex: Lexer)
    requires Readable(fmt, lex)
    ensures Tokens(Row(Texts(xs, fmt))) == Texts(xs, fmt)
    ensures forall i :: 0 <= i < |xs| ==> lex(Texts(xs, fmt)[i]) == Some(xs[i])
  {
    TextsWords(xs, fmt, lex);
    RowTokens(Texts(xs, fmt));
  }

  lemma TextsWords(xs: seq<real>, fmt: Formatter, lex: Lexer)
    requires Readable(fmt, lex)
    ensures forall i :: 0 <= i < |xs| ==> IsWord(Texts(xs, fmt)[i]) && lex(Texts(xs, fmt)[i]) == Some(xs[i])
  {
    forall i | 0 <= i < |xs| ensures IsWord(Texts(xs, fmt)[i]) && lex(Texts(xs, fmt)[i]) == Some(xs[i]) {
      ReadableAt(fmt, lex, xs[i]);
    }
  }

  /** The same for numbers followed by a count, which the count parser
      takes back. */
  lemma CountedRead(xs: seq<real>, n: ULong, fmt: Formatter, lex: Lexer)
    requires Readable(fmt, lex)
    ensures Tokens(Row(Counted(xs, n, fmt))) == Counted(xs, n, fmt)
    ensures forall i :: 0 <= i < |xs| ==> lex(Counted(xs, n, fmt)[i]) == Some(xs[i])
    ensures ParseULong(Counted(xs, n, fmt)[|xs|]) == Some(n)
  {
    CountWord(n);
    CountedWords(xs, n, fmt, lex);
    RowTokens(Counted(xs, n, fmt));
    TextsWords(xs, fmt, lex);
    var c := Counted(xs, n, fmt);
    forall i | 0 <= i < |xs| ensures lex(c[i]) == Some(xs[i]) {
      assert c[i] == Texts(xs, fmt)[i];
    }
  }

  /** A total or outflow row splits into the tag twice and its columns. */
  lemma TaggedCountedRead(tag: string, pad: string, xs: seq<real>, n: ULong, fmt: Formatter, lex: Lexer)
    requires Readable(fmt, lex) && IsWord(tag)
    requires pad != [] && forall k :: 0 <= k < |pad| ==> IsSpace(pad[k])
    ensures var t := Tokens(TaggedRow(tag, pad, Counted(xs, n, fmt)));
      |t| == |xs| + 3 && t[0] == tag && t[1] == tag && ParseULong(t[|xs| + 2]) == Some(n)
      && forall i :: 2 <= i < |xs| + 2 ==> lex(t[i]) == Some(xs[i - 2])
  {
    CountedRead(xs, n, fmt, lex);
    CountedWords(xs, n, fmt, lex);
    var c := Counted(xs, n, fmt);
    TaggedRowTokens(tag, pad, c);
    var t := Tokens(TaggedRow(tag, pad, c));
    assert t == [tag, tag] + c;
    forall i | 2 <= i < |xs| + 2 ensures lex(t[i]) == Some(xs[i - 2]) {
      assert t[i] == c[i - 2];
    }
    assert t[|xs| + 2] == c[|xs|];
  }

  lemma CountedWords(xs: seq<real>, n: ULong, fmt: Formatter, lex: Lexer)
    requires Readable(fmt, lex)
    ensures forall i :: 0 <= i < |xs| + 1 ==> IsWord(Counted(xs, n, fmt)[i])
  {
    CountWord(n);
    var c := Counted(xs, n, fmt);
    forall i | 0 <= i < |xs| + 1 ensures IsWord(c[i]) {
      if i < |xs| {
        assert c[i] == Texts(xs, fmt)[i] == fmt(xs[i]);
        ReadableAt(fmt, lex, xs[i]);
      } else {
        assert c[i] == ULongText(n);
      }
    }
  }

  /** The count column: its digits read back as the count. */
  lemma CountWord(n: ULong)
    ensures IsWord(ULongText(n)) && ParseULong(ULongText(n)) == Some(n)
  {
    ParseULongText(n);
  }
}
