/** The plot-key reader and the NumpyHist edge helpers of
    pyext/yoda/plotting.py.

    read_plot_keys (pyext/yoda/plotting.py:147-171) scans the lines of a
    .plot file: "# BEGIN PLOT name" opens a block, "# END PLOT name" closes
    it, '#' lines are comments, and "key = value" lines inside a block are
    stored under the block's name. The file is its lines, as iterating over
    it yields them. The regular expressions are Python 2's over a byte
    string: `\w` is [A-Za-z0-9_] and `\s` the six ASCII whitespace
    characters.

    NumpyHist (pyext/yoda/plotting.py:6-137) holds the points of a scatter
    as columns; its xmin/xmax/ymin/ymax and edge properties compute new
    columns from them. */
module Plotting {
  import opened Wrappers
  import opened LineGrammar
  import opened Points
  import Search

  // ---------------------------------------------------------------------------
  // Line patterns

  predicate IsWordChar(c: char)
  {
    ('a' <= c <= 'z') || ('A' <= c <= 'Z') || ('0' <= c <= '9') || c == '_'
  }

  predicate IsHash(c: char) { c == '#' }

  /** s after the literal w, if s starts with it. */
  function AfterLiteral(s: string, w: string): (r: Option<string>)
    ensures r.Some? <==> |w| <= |s| && s[..|w|] == w
    ensures r.Some? ==> r.value == s[|w|..]
  {
    if |w| <= |s| && s[..|w|] == w then Some(s[|w|..]) else None
  }

  /** `#*\s*` word `\s+PLOT`, matched at the start of l: the text after
      "PLOT", or None. */
  function AfterPlot(l: string, word: string): (r: Option<string>)
  {
    var a := SkipSpace(l[Search.RunLength(l, IsHash)..]);
    match AfterLiteral(a, word)
    case None => None
    case Some(b) =>
      if b == [] || !IsSpace(b[0]) then None
      else AfterLiteral(SkipSpace(b), "PLOT")
  }

  /** re_begin (`#*\s*BEGIN\s+PLOT\s*(\w*)`) matched at the start of l: the
      captured name, which may be empty. */
  function BeginName(l: string): (r: Option<string>)
    ensures r.Some? ==> forall k :: 0 <= k < |r.value| ==> IsWordChar(r.value[k])
  {
    match AfterPlot(l, "BEGIN")
    case None => None
    case Some(c) =>
      var d := SkipSpace(c);
      Some(d[..Search.RunLength(d, IsWordChar)])
  }

  /** re_end (`#*\s*END\s+PLOT\s+\w*`) matches at the start of l: whitespace
      must follow "PLOT". */
  predicate IsEnd(l: string)
  {
    match AfterPlot(l, "END")
    case None => false
    case Some(c) => c != [] && IsSpace(c[0])
  }

  /** re_comment (`#.*`) matches at the start of l. */
  predicate IsComment(l: string)
  {
    l != [] && l[0] == '#'
  }

  /** re_attr (`(\w+)\s*=\s*(.*)`) matched at the start of l: the key and
      the value, which ends at a line break. */
  function AttrOf(l: string): (r: Option<(string, string)>)
    ensures r.Some? ==> r.value.0 != [] && forall k :: 0 <= k < |r.value.0| ==> IsWordChar(r.value.0[k])
  {
    var n := Search.RunLength(l, IsWordChar);
    var rest := SkipSpace(l[n..]);
    if n == 0 || rest == [] || rest[0] != '=' then None
    else
      var v := SkipSpace(rest[1..]);
      Some((l[..n], v[..Search.LineEnd(v, 0)]))
  }

  // ---------------------------------------------------------------------------
  // The scan

  /** The loop's variables: the open block (inplot is `block.Some?`, name is
      `block`, as the two are always set together) and the collected keys. */
  datatype ScanState = ScanState(block: Option<string>, keys: map<string, map<string, string>>)

  const Start := ScanState(None, map[])

  /** plotkeys.setdefault(name, {})[key] = value. */
  function Store(keys: map<string, map<string, string>>, name: string, key: string, value: string)
    : (r: map<string, map<string, string>>)
    ensures r.Keys == keys.Keys + {name}
    ensures r[name] == (if name in keys then keys[name] else map[])[key := value]
    ensures forall n :: n in keys && n != name ==> r[n] == keys[n]
  {
    keys[name := (if name in keys then keys[name] else map[])[key := value]]
  }

  /** One pass of the loop body on a line. */
  function Step(st: ScanState, line: string): (r: ScanState)
  {
    var l := Search.Strip(line);
    if BeginName(l).Some? then ScanState(Some(BeginName(l).value), st.keys)
    else if IsEnd(l) then ScanState(None, st.keys)
    else if IsComment(l) then st
    else if st.block.Some? then
      match AttrOf(l)
      case None => st
      case Some((k, v)) => st.(keys := Store(st.keys, st.block.value, k, v))
    else st
  }

  /** The loop over the lines, from st. */
  function Run(st: ScanState, lines: seq<string>): ScanState
    decreases |lines|
  {
    if lines == [] then st else Run(Step(st, lines[0]), lines[1..])
  }

  lemma {:induction false} RunSnoc(st: ScanState, lines: seq<string>, line: string)
    ensures Run(st, lines + [line]) == Step(Run(st, lines), line)
    decreases |lines|
  {
    if lines == [] {
      assert lines + [line] == [line];
      assert [line][1..] == [];
    } else {
      assert (lines + [line])[1..] == lines[1..] + [line];
      RunSnoc(Step(st, lines[0]), lines[1..], line);
    }
  }

  lemma {:induction false} RunAppend(st: ScanState, a: seq<string>, b: seq<string>)
    ensures Run(st, a + b) == Run(Run(st, a), b)
    decreases |a|
  {
    if a == [] {
      assert a + b == b;
    } else {
      assert (a + b)[1..] == a[1..] + b;
      RunAppend(Step(st, a[0]), a[1..], b);
    }
  }

  /** read_plot_keys on the lines of the file. */
  method ReadPlotKeys(lines: seq<string>) returns (plotKeys: map<string, map<string, string>>)
    ensures plotKeys == Run(Start, lines).keys
  {
    plotKeys := map[];
    var inPlot := false;
    var name: Option<string> := None;
    var i := 0;
    while i < |lines|
      invariant 0 <= i <= |lines|
      invariant inPlot == name.Some?
      invariant ScanState(name, plotKeys) == Run(Start, lines[..i])
    {
      RunSnoc(Start, lines[..i], lines[i]);
      TakeSnoc(lines, i);
      inPlot, name, plotKeys := ScanLine(inPlot, name, plotKeys, lines[i]);
      i := i + 1;
    }
    assert lines[..|lines|] == lines;
  }

  /** One pass of read_plot_keys's loop body, on its three variables. */
  method ScanLine(inPlot: bool, name: Option<string>, plotKeys: map<string, map<string, string>>, line: string)
    returns (inPlot': bool, name': Option<string>, plotKeys': map<string, map<string, string>>)
    requires inPlot == name.Some?
    ensures inPlot' == name'.Some?
    ensures ScanState(name', plotKeys') == Step(ScanState(name, plotKeys), line)
  {
    inPlot', name', plotKeys' := inPlot, name, plotKeys;
    var l := Search.Strip(line);
    var begin := BeginName(l);
    if begin.Some? {
      inPlot' := true;
      name' := Some(begin.value);
    } else if IsEnd(l) {
      inPlot' := false;
      name' := None;
    } else if IsComment(l) {
    } else if inPlot {
      var m := AttrOf(l);
      if m.Some? {
        var key := m.value.0;
        var value := m.value.1;
        var block := if name.value in plotKeys then plotKeys[name.value] else map[];
        plotKeys' := plotKeys[name.value := block[key := value]];
      }
    }
  }

  // ---------------------------------------------------------------------------
  // Properties of the scan

  /** A line that strips to a '#' line never adds a key: it opens or closes
      a block, or it is a comment. */
  lemma CommentAddsNoKey(st: ScanState, line: string)
    requires IsComment(Search.Strip(line))
    ensures Step(st, line).keys == st.keys
  {
  }

  /** Outside a block only BEGIN lines change anything. */
  lemma OutsideBlockIgnored(st: ScanState, line: string)
    requires st.block.None? && BeginName(Search.Strip(line)).None?
    ensures Step(st, line) == st
  {
  }

  /** Inside a block a key line stores its value under the block's name,
      replacing an earlier value of the same key; nothing else changes. */
  lemma KeyStored(st: ScanState, line: string, name: string, key: string, value: string)
    requires st.block == Some(name)
    requires var l := Search.Strip(line);
      BeginName(l).None? && !IsEnd(l) && !IsComment(l) && AttrOf(l) == Some((key, value))
    ensures var r := Step(st, line);
      r.block == st.block && name in r.keys && r.keys[name][key] == value
      && (forall k :: k in r.keys[name] && k != key ==> name in st.keys && k in st.keys[name] && r.keys[name][k] == st.keys[name][k])
      && (forall n :: n in st.keys && n != name ==> n in r.keys && r.keys[n] == st.keys[n])
  {
  }

  /** "# END PLOT" without a name: once stripped nothing follows "PLOT",
      so re_end does not match; the line is a comment and the block stays
      open. */
  lemma EndWithoutName(st: ScanState)
    ensures Step(st, MarkerLine(EndWord, "")) == st
  {
    var l := MarkerLine(EndWord, "");
    MarkerLineRead(EndWord, "");
    MarkerLineOther(EndWord, BeginWord, "");
    assert l[|l| - 1] == 'T';
    Search.StripPlain(l);
  }

  /** Every stored value was on some key line, unless it was there before
      the scan. */
  lemma {:induction false} StoredFromLines(st: ScanState, lines: seq<string>)
    ensures var r := Run(st, lines);
      forall n, k :: n in r.keys && k in r.keys[n] ==>
        (n in st.keys && k in st.keys[n] && st.keys[n][k] == r.keys[n][k])
        || exists i :: 0 <= i < |lines| && AttrOf(Search.Strip(lines[i])) == Some((k, r.keys[n][k]))
    decreases |lines|
  {
    if lines != [] {
      var s1 := Step(st, lines[0]);
      StoredFromLines(s1, lines[1..]);
      var r := Run(st, lines);
      assert r == Run(s1, lines[1..]);
      forall n, k | n in r.keys && k in r.keys[n]
        ensures (n in st.keys && k in st.keys[n] && st.keys[n][k] == r.keys[n][k])
          || exists i :: 0 <= i < |lines| && AttrOf(Search.Strip(lines[i])) == Some((k, r.keys[n][k]))
      {
        if n in s1.keys && k in s1.keys[n] && s1.keys[n][k] == r.keys[n][k] {
          StepSource(st, lines[0], n, k);
          if AttrOf(Search.Strip(lines[0])) == Some((k, s1.keys[n][k])) {
            assert lines[0] == lines[0];
          }
        } else {
          var i :| 0 <= i < |lines[1..]| && AttrOf(Search.Strip(lines[1..][i])) == Some((k, r.keys[n][k]));
          assert lines[i + 1] == lines[1..][i];
        }
      }
    }
  }

  /** After one line, a stored value was there before or is that line's. */
  lemma StepSource(st: ScanState, line: string, n: string, k: string)
    requires var r := Step(st, line); n in r.keys && k in r.keys[n]
    ensures var r := Step(st, line);
      (n in st.keys && k in st.keys[n] && st.keys[n][k] == r.keys[n][k])
      || AttrOf(Search.Strip(line)) == Some((k, r.keys[n][k]))
  {
    var l := Search.Strip(line);
    if BeginName(l).Some? || IsEnd(l) || IsComment(l) || st.block.None? || AttrOf(l).None? {
      assert Step(st, line).keys == st.keys;
    } else {
      var kv := AttrOf(l).value;
      assert Step(st, line).keys == Store(st.keys, st.block.value, kv.0, kv.1);
    }
  }

  // ---------------------------------------------------------------------------
  // Reading a block back

  const BeginWord := "BEGIN"
  const EndWord := "END"
  const PlotWord := "PLOT"

  /** "# " word " PLOT" and then the tail. */
  function MarkerLine(word: string, tail: string): string { "# " + word + " " + PlotWord + tail }

  function BeginLine(name: string): string { MarkerLine(BeginWord, " " + name) }
  function EndLine(name: string): string { MarkerLine(EndWord, " " + name) }
  function KeyLine(key: string, value: string): string { key + "=" + value }

  function KeyLines(kvs: seq<(string, string)>): (r: seq<string>)
    ensures |r| == |kvs| && forall i :: 0 <= i < |kvs| ==> r[i] == KeyLine(kvs[i].0, kvs[i].1)
  {
    seq(|kvs|, i requires 0 <= i < |kvs| => KeyLine(kvs[i].0, kvs[i].1))
  }

  /** A block of the pairs, as a .plot file holds it. */
  function BlockLines(name: string, kvs: seq<(string, string)>): seq<string>
  {
    [BeginLine(name)] + KeyLines(kvs) + [EndLine(name)]
  }

  /** The pairs as a dict, a later key overwriting an earlier one. */
  function MapOf(kvs: seq<(string, string)>): map<string, string>
  {
    if kvs == [] then map[] else MapOf(kvs[..|kvs| - 1])[kvs[|kvs| - 1].0 := kvs[|kvs| - 1].1]
  }

  predicate IsWord(w: string)
  {
    w != [] && forall k :: 0 <= k < |w| ==> IsWordChar(w[k])
  }

  /** A value the reader gets back whole: no line break, and no whitespace
      at either end. */
  predicate CleanValue(v: string)
  {
    (v == [] || (!IsSpace(v[0]) && !IsSpace(v[|v| - 1]))) && forall k :: 0 <= k < |v| ==> v[k] != '\n'
  }

  predicate CleanPairs(kvs: seq<(string, string)>)
  {
    forall i :: 0 <= i < |kvs| ==> IsWord(kvs[i].0) && CleanValue(kvs[i].1)
  }

  lemma LiteralThen(w: string, rest: string)
    ensures AfterLiteral(w + rest, w) == Some(rest)
  {
    assert (w + rest)[..|w|] == w && (w + rest)[|w|..] == rest;
  }

  lemma SkipOneSpace(x: string)
    requires x != [] && !IsSpace(x[0])
    ensures SkipSpace(" " + x) == x && SkipSpace(x) == x
  {
    assert (" " + x)[1..] == x;
  }

  /** The prefix `#*\s*` word `\s+PLOT` of a marker line. */
  lemma MarkerLineRead(word: string, tail: string)
    requires word != [] && !IsSpace(word[0]) && word[0] != '#'
    ensures AfterPlot(MarkerLine(word, tail), word) == Some(tail)
  {
    var l := MarkerLine(word, tail);
    var x := " " + (word + (" " + (PlotWord + tail)));
    assert l == "#" + x;
    assert Search.RunLength(x, IsHash) == 0;
    assert Search.RunLength(l, IsHash) == 1;
    assert l[1..] == x;
    SkipOneSpace(word + (" " + (PlotWord + tail)));
    LiteralThen(word, " " + (PlotWord + tail));
    SkipOneSpace(PlotWord + tail);
    LiteralThen(PlotWord, tail);
  }

  /** A marker line for one word does not match another word that starts
      with a different letter. */
  lemma MarkerLineOther(word: string, other: string, tail: string)
    requires word != [] && !IsSpace(word[0]) && word[0] != '#'
    requires other != [] && other[0] != word[0]
    ensures AfterPlot(MarkerLine(word, tail), other).None?
  {
    var l := MarkerLine(word, tail);
    var x := " " + (word + (" " + (PlotWord + tail)));
    assert l == "#" + x;
    assert Search.RunLength(x, IsHash) == 0;
    assert Search.RunLength(l, IsHash) == 1;
    assert l[1..] == x;
    var y := word + (" " + (PlotWord + tail));
    SkipOneSpace(y);
    assert y[0] == word[0];
  }

  /** A line that starts with a word and then '=' is neither a BEGIN nor an
      END line. */
  lemma KeyLineNotPlotMarker(l: string, n: nat)
    requires 0 < n < |l| && l[n] == '=' && forall k :: 0 <= k < n ==> IsWordChar(l[k])
    ensures BeginName(l).None? && !IsEnd(l)
  {
    assert Search.RunLength(l, IsHash) == 0;
    assert l[0..] == l;
    assert SkipSpace(l) == l;
    NotAfterWord(l, n, BeginWord);
    NotAfterWord(l, n, EndWord);
  }

  lemma NotAfterWord(l: string, n: nat, w: string)
    requires 0 < n < |l| && l[n] == '=' && forall k :: 0 <= k < n ==> IsWordChar(l[k])
    requires forall k :: 0 <= k < |w| ==> IsWordChar(w[k])
    ensures AfterLiteral(l, w).Some? ==> AfterLiteral(l, w).value != [] && !IsSpace(AfterLiteral(l, w).value[0])
  {
    if AfterLiteral(l, w).Some? {
      if |w| > n {
        assert false;
      }
      assert AfterLiteral(l, w).value[0] == l[|w|];
    }
  }

  /** The key line's value part after the '='. */
  lemma ValueRead(value: string)
    requires CleanValue(value)
    ensures SkipSpace(("=" + value)[1..]) == value && Search.LineEnd(value, 0) == |value|
  {
    assert ("=" + value)[1..] == value;
    assert value == [] || !IsSpace(value[0]);
  }

  /** A key line reads as its key and value. */
  lemma KeyLineRead(key: string, value: string)
    requires IsWord(key) && CleanValue(value)
    ensures var l := KeyLine(key, value);
      Search.Strip(l) == l && BeginName(l).None? && !IsEnd(l) && !IsComment(l)
      && AttrOf(l) == Some((key, value))
  {
    var l := KeyLine(key, value);
    assert l[0] == key[0] && l[|key|] == '=';
    assert forall k :: 0 <= k < |key| ==> l[k] == key[k];
    assert Search.RunLength(l, IsWordChar) == |key|;
    KeyLineNotPlotMarker(l, |key|);
    assert l[..|key|] == key && l[|key|..] == "=" + value;
    assert SkipSpace("=" + value) == "=" + value;
    ValueRead(value);
    assert value[..|value|] == value;
    assert l[|l| - 1] != ' ' && !IsSpace(l[|l| - 1]) by {
      if value == [] {
        assert l[|l| - 1] == '=';
      } else {
        assert l[|l| - 1] == value[|value| - 1];
      }
    }
    Search.StripPlain(l);
  }

  /** Inside a block, a key line stores its pair. */
  lemma KeyLineStep(name: string, keys: map<string, map<string, string>>, key: string, value: string)
    requires IsWord(key) && CleanValue(value)
    ensures Step(ScanState(Some(name), keys), KeyLine(key, value))
      == ScanState(Some(name), Store(keys, name, key, value))
  {
    KeyLineRead(key, value);
  }

  /** Overwriting a key of a union with M is the union with M so
      overwritten. */
  lemma UnionUpdate(base: map<string, string>, m: map<string, string>, k: string, v: string)
    ensures (base + m)[k := v] == base + m[k := v]
  {
  }

  lemma UpdateTwice(m: map<string, map<string, string>>, k: string, a: map<string, string>, b: map<string, string>)
    ensures m[k := a][k := b] == m[k := b]
  {
  }

  /** Key lines inside the block named name store their pairs under it. */
  lemma {:induction false} KeyLinesRead(name: string, keys: map<string, map<string, string>>,
                                        kvs: seq<(string, string)>)
    requires CleanPairs(kvs)
    ensures Run(ScanState(Some(name), keys), KeyLines(kvs)) ==
      ScanState(Some(name), if kvs == [] then keys
                            else keys[name := (if name in keys then keys[name] else map[]) + MapOf(kvs)])
    decreases |kvs|
  {
    var st := ScanState(Some(name), keys);
    if kvs == [] {
      assert KeyLines(kvs) == [];
    } else {
      var init := kvs[..|kvs| - 1];
      var last := kvs[|kvs| - 1];
      CleanPairsPrefix(kvs);
      assert KeyLines(kvs) == KeyLines(init) + [KeyLine(last.0, last.1)];
      KeyLinesRead(name, keys, init);
      RunSnoc(st, KeyLines(init), KeyLine(last.0, last.1));
      var mid := Run(st, KeyLines(init));
      KeyLineStep(name, mid.keys, last.0, last.1);
      StoreAfter(name, keys, mid.keys, kvs);
    }
  }

  lemma CleanPairsPrefix(kvs: seq<(string, string)>)
    requires kvs != [] && CleanPairs(kvs)
    ensures CleanPairs(kvs[..|kvs| - 1])
  {
    var init := kvs[..|kvs| - 1];
    forall i | 0 <= i < |init|
      ensures IsWord(init[i].0) && CleanValue(init[i].1)
    {
      assert init[i] == kvs[i];
    }
  }

  /** Storing the last pair over the pairs before it stored under name. */
  lemma StoreAfter(name: string, keys: map<string, map<string, string>>, mid: map<string, map<string, string>>,
                   kvs: seq<(string, string)>)
    requires kvs != []
    requires var init := kvs[..|kvs| - 1];
      mid == if init == [] then keys
             else keys[name := (if name in keys then keys[name] else map[]) + MapOf(init)]
    ensures var last := kvs[|kvs| - 1];
      Store(mid, name, last.0, last.1) == keys[name := (if name in keys then keys[name] else map[]) + MapOf(kvs)]
  {
    var init := kvs[..|kvs| - 1];
    var last := kvs[|kvs| - 1];
    var base := if name in keys then keys[name] else map[];
    var before := if name in mid then mid[name] else map[];
    assert before == base + MapOf(init) by {
      if init == [] {
        assert MapOf(init) == map[];
        assert base + map[] == base;
      }
    }
    UnionUpdate(base, MapOf(init), last.0, last.1);
    assert MapOf(kvs) == MapOf(init)[last.0 := last.1];
    var merged := before[last.0 := last.1];
    assert merged == base + MapOf(kvs);
    assert Store(mid, name, last.0, last.1) == mid[name := merged];
    if init != [] {
      UpdateTwice(keys, name, base + MapOf(init), merged);
    }
  }

  lemma BeginLineRead(name: string)
    requires IsWord(name)
    ensures Search.Strip(BeginLine(name)) == BeginLine(name)
    ensures BeginName(BeginLine(name)) == Some(name)
  {
    var l := BeginLine(name);
    MarkerLineRead(BeginWord, " " + name);
    SkipOneSpace(name);
    assert Search.RunLength(name, IsWordChar) == |name|;
    assert name[..|name|] == name;
    assert l[|l| - 1] == name[|name| - 1];
    Search.StripPlain(l);
  }

  lemma EndLineRead(name: string)
    requires IsWord(name)
    ensures Search.Strip(EndLine(name)) == EndLine(name)
    ensures BeginName(EndLine(name)).None? && IsEnd(EndLine(name))
  {
    var l := EndLine(name);
    MarkerLineRead(EndWord, " " + name);
    MarkerLineOther(EndWord, BeginWord, " " + name);
    assert l[|l| - 1] == name[|name| - 1];
    Search.StripPlain(l);
  }

  /** A block written with a word for its name reads back as its pairs,
      stored under that name (no entry when there are none), and the block
      is closed afterwards. */
  lemma BlockRead(name: string, kvs: seq<(string, string)>)
    requires IsWord(name) && CleanPairs(kvs)
    ensures Run(Start, BlockLines(name, kvs)) ==
      ScanState(None, if kvs == [] then map[] else map[name := MapOf(kvs)])
  {
    var begin, body, end := [BeginLine(name)], KeyLines(kvs), EndLine(name);
    BeginStep(name);
    RunAppend(Start, begin, body);
    KeyLinesRead(name, map[], kvs);
    RunSnoc(Start, begin + body, end);
    EndStep(Run(Start, begin + body), name);
    if kvs != [] {
      EmptyUnion(MapOf(kvs));
    }
  }

  lemma EmptyUnion(m: map<string, string>)
    ensures map[] + m == m
  {
  }

  /** The begin line, read from the start, opens its block. */
  lemma BeginStep(name: string)
    requires IsWord(name)
    ensures Run(Start, [BeginLine(name)]) == ScanState(Some(name), map[])
  {
    BeginLineRead(name);
    assert [BeginLine(name)][1..] == [];
  }

  /** The end line closes the open block and keeps the keys. */
  lemma EndStep(st: ScanState, name: string)
    requires IsWord(name)
    ensures Step(st, EndLine(name)) == ScanState(None, st.keys)
  {
    EndLineRead(name);
  }

  // ---------------------------------------------------------------------------
  // NumpyHist columns

  /** The columns NumpyHist fills from the points of its scatter: dim is 2
      or 3, and the z columns are empty for dim 2. */
  datatype NumpyHist = NumpyHist(dim: nat,
                                 x: seq<real>, exMinus: seq<real>, exPlus: seq<real>,
                                 y: seq<real>, eyMinus: seq<real>, eyPlus: seq<real>,
                                 z: seq<real>, ezMinus: seq<real>, ezPlus: seq<real>)

  /** Every column has one entry per point (z columns only when dim is 3). */
  predicate Columns(h: NumpyHist)
  {
    var n := |h.x|;
    |h.exMinus| == n && |h.exPlus| == n && |h.y| == n && |h.eyMinus| == n && |h.eyPlus| == n
    && (h.dim == 3 ==> |h.z| == n && |h.ezMinus| == n && |h.ezPlus| == n)
  }

  /** NumpyHist of a Scatter2D's points (pyext/yoda/plotting.py:19-37). */
  function FromPoints2D(pts: seq<Point2D>): (h: NumpyHist)
    ensures Columns(h) && h.dim == 2 && |h.x| == |pts|
  {
    NumpyHist(2,
      seq(|pts|, i requires 0 <= i < |pts| => pts[i].x),
      seq(|pts|, i requires 0 <= i < |pts| => pts[i].exMinus),
      seq(|pts|, i requires 0 <= i < |pts| => pts[i].exPlus),
      seq(|pts|, i requires 0 <= i < |pts| => pts[i].y),
      seq(|pts|, i requires 0 <= i < |pts| => pts[i].eyMinus),
      seq(|pts|, i requires 0 <= i < |pts| => pts[i].eyPlus),
      [], [], [])
  }

  /** NumpyHist of a Scatter3D's points (pyext/yoda/plotting.py:22-41). */
  function FromPoints3D(pts: seq<Point3D>): (h: NumpyHist)
    ensures Columns(h) && h.dim == 3 && |h.x| == |pts|
  {
    NumpyHist(3,
      seq(|pts|, i requires 0 <= i < |pts| => pts[i].x),
      seq(|pts|, i requires 0 <= i < |pts| => pts[i].exMinus),
      seq(|pts|, i requires 0 <= i < |pts| => pts[i].exPlus),
      seq(|pts|, i requires 0 <= i < |pts| => pts[i].y),
      seq(|pts|, i requires 0 <= i < |pts| => pts[i].eyMinus),
      seq(|pts|, i requires 0 <= i < |pts| => pts[i].eyPlus),
      seq(|pts|, i requires 0 <= i < |pts| => pts[i].z),
      seq(|pts|, i requires 0 <= i < |pts| => pts[i].ezMinus),
      seq(|pts|, i requires 0 <= i < |pts| => pts[i].ezPlus))
  }

  /** a - b and a + b, element by element. */
  function Minus(a: seq<real>, b: seq<real>): (r: seq<real>)
    requires |a| == |b|
    ensures |r| == |a|
  {
    seq(|a|, i requires 0 <= i < |a| => a[i] - b[i])
  }

  function Plus(a: seq<real>, b: seq<real>): (r: seq<real>)
    requires |a| == |b|
    ensures |r| == |a|
  {
    seq(|a|, i requires 0 <= i < |a| => a[i] + b[i])
  }

  function XMin(h: NumpyHist): seq<real> requires Columns(h) { Minus(h.x, h.exMinus) }
  function XMax(h: NumpyHist): seq<real> requires Columns(h) { Plus(h.x, h.exPlus) }
  function YMin(h: NumpyHist): seq<real> requires Columns(h) { Minus(h.y, h.eyMinus) }
  function YMax(h: NumpyHist): seq<real> requires Columns(h) { Plus(h.y, h.eyPlus) }

  /** The x and y ranges of a 2D NumpyHist are those of its scatter's
      points. */
  lemma RangesOfPoints2D(pts: seq<Point2D>)
    ensures var h := FromPoints2D(pts);
      |XMin(h)| == |pts| && |XMax(h)| == |pts| && |YMin(h)| == |pts| && |YMax(h)| == |pts|
      && forall i :: 0 <= i < |pts| ==>
           XMin(h)[i] == XMin2(pts[i]) && XMax(h)[i] == XMax2(pts[i])
           && YMin(h)[i] == YMin2(pts[i]) && YMax(h)[i] == YMax2(pts[i])
  {
  }

  lemma RangesOfPoints3D(pts: seq<Point3D>)
    ensures var h := FromPoints3D(pts);
      |XMin(h)| == |pts| && |XMax(h)| == |pts| && |YMin(h)| == |pts| && |YMax(h)| == |pts|
      && forall i :: 0 <= i < |pts| ==>
           XMin(h)[i] == XMin3(pts[i]) && XMax(h)[i] == XMax3(pts[i])
           && YMin(h)[i] == YMin3(pts[i]) && YMax(h)[i] == YMax3(pts[i])
  {
  }

  /** xedges_sgl: every xmin and then the last xmax; xmax[-1] of no points
      is IndexError. */
  function XEdgesSgl(h: NumpyHist): (r: Result<seq<real>>)
    requires Columns(h)
    ensures r.Err? <==> |h.x| == 0
    ensures r.Err? ==> r.error == IndexError
    ensures r.Ok? ==> |r.value| == |h.x| + 1
  {
    if |h.x| == 0 then Err(IndexError) else Ok(XMin(h) + [XMax(h)[|h.x| - 1]])
  }

  /** a and b interleaved: a[0], b[0], a[1], b[1], ... */
  function Interleave(a: seq<real>, b: seq<real>): (r: seq<real>)
    requires |a| == |b|
    ensures |r| == 2 * |a|
  {
    seq(2 * |a|, k requires 0 <= k < 2 * |a| => if k % 2 == 0 then a[k / 2] else b[k / 2])
  }

  /** xedges_dbl: a new array of length 2n whose even slots take the xmin
      values and whose odd slots take the xmax values. */
  method XEdgesDbl(h: NumpyHist) returns (edges: array<real>)
    requires Columns(h)
    ensures fresh(edges) && edges.Length == 2 * |h.x|
    ensures forall i :: 0 <= i < |h.x| ==> edges[2 * i] == XMin(h)[i] && edges[2 * i + 1] == XMax(h)[i]
  {
    var n := |h.x|;
    var lo := XMin(h);
    var hi := XMax(h);
    edges := new real[2 * n];
    var i := 0;
    while i < n
      invariant 0 <= i <= n
      invariant forall j :: 0 <= j < i ==> edges[2 * j] == lo[j]
    {
      edges[2 * i] := lo[i];
      i := i + 1;
    }
    i := 0;
    while i < n
      invariant 0 <= i <= n
      invariant forall j :: 0 <= j < n ==> edges[2 * j] == lo[j]
      invariant forall j :: 0 <= j < i ==> edges[2 * j + 1] == hi[j]
    {
      edges[2 * i + 1] := hi[i];
      i := i + 1;
    }
  }

  /** The filled array is the interleaving of the xmin and xmax columns. */
  lemma DblIsInterleave(h: NumpyHist, edges: seq<real>)
    requires Columns(h) && |edges| == 2 * |h.x|
    requires forall i :: 0 <= i < |h.x| ==> edges[2 * i] == XMin(h)[i] && edges[2 * i + 1] == XMax(h)[i]
    ensures edges == Interleave(XMin(h), XMax(h))
  {
    var il := Interleave(XMin(h), XMax(h));
    forall k | 0 <= k < |edges|
      ensures edges[k] == il[k]
    {
      var i := k / 2;
      if k % 2 == 0 {
        assert k == 2 * i;
      } else {
        assert k == 2 * i + 1;
      }
    }
  }

  /** Bins that touch: each bin's xmax is the next bin's xmin. */
  predicate Contiguous(h: NumpyHist)
    requires Columns(h)
  {
    forall i :: 0 <= i < |h.x| - 1 ==> XMax(h)[i] == XMin(h)[i + 1]
  }

  /** For touching bins the single edges are the double edges without the
      repeats: bin i runs from single edge i to single edge i + 1, which
      are its two double edges. */
  lemma SglFromDbl(h: NumpyHist)
    requires Columns(h) && |h.x| > 0 && Contiguous(h)
    ensures var sgl := XEdgesSgl(h).value;
      var dbl := Interleave(XMin(h), XMax(h));
      forall i :: 0 <= i < |h.x| ==> sgl[i] == dbl[2 * i] && sgl[i + 1] == dbl[2 * i + 1]
  {
    var n := |h.x|;
    var sgl := XEdgesSgl(h).value;
    var dbl := Interleave(XMin(h), XMax(h));
    forall i | 0 <= i < n
      ensures sgl[i] == dbl[2 * i] && sgl[i + 1] == dbl[2 * i + 1]
    {
      assert (2 * i) / 2 == i && (2 * i) % 2 == 0;
      assert (2 * i + 1) / 2 == i && (2 * i + 1) % 2 == 1;
      if i + 1 < n {
        assert sgl[i + 1] == XMin(h)[i + 1];
      }
    }
  }
}
