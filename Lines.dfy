/** safe_getline of src/ReaderYODA.cc and src/ReaderFLAT.cc (the two copies
    are the same): a line ends at LF, at CR, or at CR LF, the terminator is
    not part of it, and a last line with no terminator is still delivered.

    The stream is a character buffer with the two state bits the function
    touches. `while (safe_getline(stream, s))` tests !fail(); reaching the end
    of the buffer with an empty line sets only eofbit, so one more, empty, line
    is delivered after the last one; the next call's sentry then finds the
    stream not good and sets failbit. */
module Lines {

  function IsLineEnd(c: char): bool { c == '\n' || c == '\r' }

  /** The line at the front of s and how many characters it and its
      terminator take. */
  function NextLine(s: string): (r: (string, nat))
    ensures r.1 <= |s| && (s != [] ==> r.1 > 0)
  {
    if s == [] then ([], 0)
    else if s[0] == '\n' then ([], 1)
    else if s[0] == '\r' then ([], if |s| > 1 && s[1] == '\n' then 2 else 1)
    else var r := NextLine(s[1..]); ([s[0]] + r.0, r.1 + 1)
  }

  /** The lines the read loop sees: each terminated line, a last
      unterminated one, and the empty line delivered at end of input. */
  function LinesOf(s: string): (r: seq<string>)
    ensures |r| >= 1 && r[|r| - 1] == []
    decreases |s|
  {
    if s == [] then [[]] else [NextLine(s).0] + LinesOf(s[NextLine(s).1..])
  }

  class Stream {
    const data: string
    var pos: nat
    var eofBit: bool
    var failBit: bool

    ghost predicate Valid()
      reads this
    {
      pos <= |data|
    }

    predicate Good()
      reads this
    {
      !eofBit && !failBit
    }

    constructor (s: string)
      ensures Valid() && data == s && pos == 0 && Good()
    {
      data := s;
      pos := 0;
      eofBit := false;
      failBit := false;
    }

    /** safe_getline(is, t): the sentry marks a stream that is not good as
        failed; the characters up to the next terminator are taken; at the
        end of the buffer an empty line sets eofbit. The stream converts to
        true when it has not failed. */
    method SafeGetline() returns (t: string, ok: bool)
      requires Valid()
      modifies this
      ensures Valid()
      ensures (t, pos - old(pos)) == NextLine(data[old(pos)..])
      ensures failBit == (old(failBit) || !old(Good()))
      ensures eofBit == (old(eofBit) || old(pos) == |data|)
      ensures ok == !failBit
    {
      if !Good() {
        failBit := true;
      }
      var p;
      t, p := ScanLine(data, pos);
      LineEndAt(data, pos, p, t);
      if p == |data| {
        if t == [] {
          eofBit := true;
        }
      } else if data[p] == '\n' || p + 1 == |data| || data[p + 1] != '\n' {
        p := p + 1;
      } else {
        p := p + 2;
      }
      pos := p;
      ok := !failBit;
    }
  }

  /** The loop of safe_getline that takes characters up to a terminator or
      the end of the buffer. */
  method ScanLine(data: string, pos: nat) returns (t: string, p: nat)
    requires pos <= |data|
    ensures pos <= p <= |data| && |t| == p - pos && (p == |data| || IsLineEnd(data[p]))
    ensures NextLine(data[pos..]).0 == t + NextLine(data[p..]).0
    ensures NextLine(data[pos..]).1 == p - pos + NextLine(data[p..]).1
  {
    t := [];
    p := pos;
    while p < |data| && !IsLineEnd(data[p])
      invariant pos <= p <= |data| && |t| == p - pos
      invariant NextLine(data[pos..]).0 == t + NextLine(data[p..]).0
      invariant NextLine(data[pos..]).1 == p - pos + NextLine(data[p..]).1
    {
      NextLineAt(data, p);
      t := t + [data[p]];
      p := p + 1;
    }
  }

  /** Where the loop of safe_getline stops, NextLine ends: at the end of
      the buffer or at the terminator, which it takes with the line. */
  lemma LineEndAt(data: string, start: nat, p: nat, t: string)
    requires start <= p <= |data| && (p == |data| || IsLineEnd(data[p]))
    requires NextLine(data[start..]).0 == t + NextLine(data[p..]).0
    requires NextLine(data[start..]).1 == p - start + NextLine(data[p..]).1
    ensures p == |data| ==> NextLine(data[start..]) == (t, p - start)
    ensures p < |data| && (data[p] == '\n' || p + 1 == |data| || data[p + 1] != '\n') ==>
      NextLine(data[start..]) == (t, p + 1 - start)
    ensures p < |data| && !(data[p] == '\n' || p + 1 == |data| || data[p + 1] != '\n') ==>
      NextLine(data[start..]) == (t, p + 2 - start)
  {
    if p == |data| {
      assert data[p..] == [];
      assert t + [] == t;
    } else {
      NextLineAt(data, p);
      assert t + [] == t;
    }
  }

  /** NextLine at position p of data, by its first character. */
  lemma NextLineAt(data: string, p: nat)
    requires p < |data|
    ensures data[p] == '\n' ==> NextLine(data[p..]) == ([], 1)
    ensures data[p] == '\r' ==> NextLine(data[p..]) == ([], if p + 1 < |data| && data[p + 1] == '\n' then 2 else 1)
    ensures !IsLineEnd(data[p]) ==>
      NextLine(data[p..]) == ([data[p]] + NextLine(data[p + 1..]).0, NextLine(data[p + 1..]).1 + 1)
  {
    var d := data[p..];
    assert d[0] == data[p] && d[1..] == data[p + 1..];
    assert |d| > 1 ==> d[1] == data[p + 1];
  }

  /** The reading loop of both readers, `while (safe_getline(stream, s))`,
      collecting the lines its body receives. */
  method ReadLines(text: string) returns (lines: seq<string>)
    ensures lines == LinesOf(text)
  {
    var st := new Stream(text);
    lines := [];
    var t, ok := st.SafeGetline();
    ghost var rest := if st.eofBit then [] else LinesOf(text[st.pos..]);
    assert text[0..] == text;
    LinesOfNext(text, 0, t, st.pos, st.eofBit);
    while ok
      invariant st.Valid() && st.data == text && !st.failBit && ok
      invariant st.eofBit ==> st.pos == |text|
      invariant rest == if st.eofBit then [] else LinesOf(text[st.pos..])
      invariant lines + [t] + rest == LinesOf(text)
      decreases |text| - st.pos, if st.eofBit then 0 else 1
    {
      ghost var done, first := lines, t;
      lines := lines + [t];
      ghost var before := st.pos;
      t, ok := st.SafeGetline();
      if !ok {
        break;
      }
      rest := if st.eofBit then [] else LinesOf(text[st.pos..]);
      LoopStep(text, done, first, before, t, st.pos, st.eofBit);
    }
  }

  /** The loop invariant is kept by one more call. */
  lemma LoopStep(text: string, done: seq<string>, first: string, before: nat, t: string, p: nat, eof: bool)
    requires before <= |text| && done + [first] + LinesOf(text[before..]) == LinesOf(text)
    requires (t, p - before) == NextLine(text[before..])
    requires eof == (before == |text|)
    ensures done + [first] + [t] + (if eof then [] else LinesOf(text[p..])) == LinesOf(text)
  {
    var rest := if eof then [] else LinesOf(text[p..]);
    LinesOfNext(text, before, t, p, eof);
    assert done + [first] + [t] + rest == (done + [first]) + ([t] + rest);
  }

  /** One call of safe_getline inside the loop: its line, then the lines
      after the position it leaves. */
  lemma LinesOfNext(text: string, before: nat, t: string, p: nat, eof: bool)
    requires before <= |text| && (t, p - before) == NextLine(text[before..])
    requires eof == (before == |text|)
    ensures [t] + (if eof then [] else LinesOf(text[p..])) == LinesOf(text[before..])
  {
    LinesOfStep(text, before);
  }

  /** One call of the loop: the line at position p, then the rest. */
  lemma LinesOfStep(text: string, p: nat)
    requires p <= |text|
    ensures p < |text| ==> LinesOf(text[p..]) == [NextLine(text[p..]).0] + LinesOf(text[p + NextLine(text[p..]).1..])
    ensures p == |text| ==> LinesOf(text[p..]) == [[]] && NextLine(text[p..]) == ([], 0)
  {
    var s := text[p..];
    if p < |text| {
      assert s[NextLine(s).1..] == text[p + NextLine(s).1..];
    } else {
      assert s == [];
    }
  }

  // ---------------------------------------------------------------------------
  // Properties

  /** Lines joined with one terminator after each. */
  function Terminated(ls: seq<string>, term: string): string
  {
    if ls == [] then [] else ls[0] + term + Terminated(ls[1..], term)
  }

  predicate NoLineEnds(l: string)
  {
    forall k :: 0 <= k < |l| ==> !IsLineEnd(l[k])
  }

  lemma {:induction false} NextLineOfTerminated(l: string, term: string, rest: string)
    requires NoLineEnds(l) && (term == "\n" || term == "\r\n")
    ensures NextLine(l + term + rest) == (l, |l| + |term|)
  {
    var s := l + term + rest;
    if l == [] {
      assert s == term + rest;
      assert s[0] == '\n' || (s[0] == '\r' && s[1] == '\n');
    } else {
      assert s[1..] == l[1..] + term + rest;
      assert !IsLineEnd(s[0]) && s[0] == l[0];
      assert NoLineEnds(l[1..]) by {
        assert forall k :: 0 <= k < |l[1..]| ==> l[1..][k] == l[k + 1];
      }
      NextLineOfTerminated(l[1..], term, rest);
      assert [l[0]] + l[1..] == l;
    }
  }

  /** Lines written with LF, or with CR LF, after each come back as they were,
      followed by the empty line delivered at end of input. */
  lemma {:induction false} LinesOfTerminated(ls: seq<string>, term: string)
    requires forall i :: 0 <= i < |ls| ==> NoLineEnds(ls[i])
    requires term == "\n" || term == "\r\n"
    ensures LinesOf(Terminated(ls, term)) == ls + [[]]
  {
    if ls != [] {
      var rest := Terminated(ls[1..], term);
      NextLineOfTerminated(ls[0], term, rest);
      var s := ls[0] + term + rest;
      assert s[|ls[0]| + |term|..] == rest;
      LinesOfTerminated(ls[1..], term);
      assert ls == [ls[0]] + ls[1..];
    }
  }

  /** The line is the text before the first terminator, and the
      terminator follows it unless the text ran out. */
  lemma {:induction false} NextLineShape(s: string)
    ensures var r := NextLine(s);
      |r.0| <= r.1 && r.0 == s[..|r.0|] && NoLineEnds(r.0) && (|r.0| < |s| ==> IsLineEnd(s[|r.0|]))
  {
    if s != [] && !IsLineEnd(s[0]) {
      NextLineShape(s[1..]);
      var r := NextLine(s[1..]);
      assert NextLine(s).0 == [s[0]] + r.0;
    }
  }

  /** The terminators are never part of a line. */
  lemma {:induction false} LinesHaveNoEnds(s: string)
    ensures forall i :: 0 <= i < |LinesOf(s)| ==> NoLineEnds(LinesOf(s)[i])
    decreases |s|
  {
    if s != [] {
      NextLineShape(s);
      LinesHaveNoEnds(s[NextLine(s).1..]);
    }
  }

  /** A final line without a terminator is still delivered. */
  lemma LastLineUnterminated(l: string)
    requires l != [] && NoLineEnds(l)
    ensures LinesOf(l) == [l, []]
  {
    NextLineWhole(l);
    assert l[|l|..] == [];
  }

  lemma {:induction false} NextLineWhole(l: string)
    requires NoLineEnds(l)
    ensures NextLine(l) == (l, |l|)
  {
    if l != [] {
      assert NoLineEnds(l[1..]) by {
        assert forall k :: 0 <= k < |l[1..]| ==> l[1..][k] == l[k + 1];
      }
      NextLineWhole(l[1..]);
      assert !IsLineEnd(l[0]);
      assert [l[0]] + l[1..] == l;
    }
  }
}
