/** encodeForXML of include/YODA/Utils/StringUtils.h: the three characters
    that XML 1.0 (section 4.6, predefined entities) escapes in text are
    replaced by their entities, '&' first so that the '&' of the later
    entities is not escaped again. */
module StringUtils {
  import Wrappers

  /** string::find(c, from): the first index at or after from holding c, or
      -1 for npos. */
  function Find(s: string, c: char, from: nat): (r: int)
    ensures r == -1 || (from <= r < |s| && s[r] == c)
    ensures r == -1 ==> forall k :: from <= k < |s| ==> s[k] != c
    ensures r != -1 ==> forall k :: from <= k < r ==> s[k] != c
    decreases |s| - from
  {
    if from >= |s| then -1 else if s[from] == c then from else Find(s, c, from + 1)
  }

  /** Every c of s replaced by e, all other characters kept in order. */
  function ReplaceAll(s: string, c: char, e: string): (r: string)
  {
    if s == [] then [] else (if s[0] == c then e else [s[0]]) + ReplaceAll(s[1..], c, e)
  }

  lemma {:induction false} ReplaceAllAppend(a: string, b: string, c: char, e: string)
    ensures ReplaceAll(a + b, c, e) == ReplaceAll(a, c, e) + ReplaceAll(b, c, e)
  {
    if a == [] {
      assert a + b == b;
    } else {
      assert (a + b)[1..] == a[1..] + b;
      ReplaceAllAppend(a[1..], b, c, e);
    }
  }

  lemma {:induction false} ReplaceAllWithout(s: string, c: char, e: string)
    requires forall k :: 0 <= k < |s| ==> s[k] != c
    ensures ReplaceAll(s, c, e) == s
  {
    if s != [] {
      ReplaceAllWithout(s[1..], c, e);
    }
  }

  /** c does not occur in s[from..to]. */
  ghost predicate Absent(s: string, c: char, from: int, to: int)
    requires 0 <= from && to <= |s|
  {
    forall j :: from <= j < to ==> s[j] != c
  }

  /** One replacement: the c found at pos, past the replaced prefix done,
      is the next c of the input; replacing it extends done by the input
      up to it and e. */
  lemma ReplaceStep(inp: string, c: char, e: string, k: nat, done: string, out: string, pos: nat)
    requires k <= |inp| && done == ReplaceAll(inp[..k], c, e) && out == done + inp[k..]
    requires |done| <= pos < |out| && out[pos] == c && Absent(out, c, |done|, pos)
    ensures k + (pos - |done|) < |inp|
    ensures var idx := k + (pos - |done|);
      ReplaceAll(inp[..idx + 1], c, e) == done + inp[k..idx] + e
      && out[..pos] + e + out[pos + 1..] == done + inp[k..idx] + e + inp[idx + 1..]
  {
    var idx := k + (pos - |done|);
    var mid := inp[k..idx];
    assert out[..pos] == done + mid && out[pos + 1..] == inp[idx + 1..] && inp[idx] == c by {
      assert out[..|done|] == done;
      assert out[|done|..] == inp[k..];
    }
    assert Absent(mid, c, 0, |mid|) by {
      assert forall j :: 0 <= j < |mid| ==> mid[j] == out[|done| + j];
    }
    ReplaceNext(inp[..k], mid, c, e);
    assert inp[..idx + 1] == inp[..k] + mid + [c];
  }

  lemma ReplaceNext(pre: string, mid: string, c: char, e: string)
    requires Absent(mid, c, 0, |mid|)
    ensures ReplaceAll(pre + mid + [c], c, e) == ReplaceAll(pre, c, e) + mid + e
  {
    ReplaceAllWithout(mid, c, e);
    ReplaceAllAppend(pre + mid, [c], c, e);
    ReplaceAllAppend(pre, mid, c, e);
    assert ReplaceAll([c], c, e) == e by {
      assert [c][1..] == [];
    }
  }

  /** One pass of encodeForXML: find c from one past the last replacement,
      replace it by e, until find reports npos. e holds no c, so the search
      resumed inside e finds nothing there. */
  method ReplacePass(inp: string, c: char, e: string) returns (out: string)
    requires |e| >= 1 && Absent(e, c, 1, |e|)
    ensures out == ReplaceAll(inp, c, e)
  {
    out := inp;
    var pos: int := -1;
    ghost var k := 0;
    ghost var done: string := [];
    pos := Find(out, c, pos + 1);
    assert inp[..0] == [] && inp[0..] == inp;
    while pos != -1
      invariant PassInv(inp, c, e, k, done, out, pos)
      decreases |inp| - k
    {
      out, k, done, pos := PassTurn(inp, c, e, k, done, out, pos);
    }
    PassEnd(inp, c, e, k, done, out);
  }

  /** The invariant of ReplacePass's loop: done is the input up to k with c
      replaced, the output is done and the rest of the input, and pos is
      the next c past done, or -1 when there is none. */
  ghost predicate PassInv(inp: string, c: char, e: string, k: int, done: string, out: string, pos: int)
  {
    0 <= k <= |inp| && done == ReplaceAll(inp[..k], c, e) && out == done + inp[k..]
    && -1 <= pos < |out|
    && (pos != -1 ==> |done| <= pos && out[pos] == c && Absent(out, c, |done|, pos))
    && (pos == -1 ==> Absent(out, c, |done|, |out|))
  }

  /** One turn of the loop: the c at pos replaced, and the search resumed
      one past it. */
  method PassTurn(ghost inp: string, c: char, e: string, ghost k: nat, ghost done: string, out: string, pos: int)
    returns (out': string, ghost k': nat, ghost done': string, pos': int)
    requires |e| >= 1 && Absent(e, c, 1, |e|)
    requires PassInv(inp, c, e, k, done, out, pos) && pos != -1
    ensures k < k' && PassInv(inp, c, e, k', done', out', pos')
  {
    ghost var idx := k + (pos - |done|);
    PassStep(inp, c, e, k, done, out, pos);
    out' := out[..pos] + e + out[pos + 1..];
    done' := done + inp[k..idx] + e;
    k' := idx + 1;
    pos' := Find(out', c, pos + 1);
  }

  lemma PassStep(inp: string, c: char, e: string, k: nat, done: string, out: string, pos: int)
    requires |e| >= 1 && Absent(e, c, 1, |e|)
    requires PassInv(inp, c, e, k, done, out, pos) && pos != -1
    ensures var idx := k + (pos - |done|);
      var out' := out[..pos] + e + out[pos + 1..];
      var done' := done + inp[k..idx] + e;
      k <= idx < |inp| && PassInv(inp, c, e, idx + 1, done', out', Find(out', c, pos + 1))
  {
    ReplaceStep(inp, c, e, k, done, out, pos);
    var out' := out[..pos] + e + out[pos + 1..];
    assert forall j :: pos <= j < pos + |e| ==> out'[j] == e[j - pos];
  }

  /** When no c is left, the output is the whole input with c replaced. */
  lemma PassEnd(inp: string, c: char, e: string, k: nat, done: string, out: string)
    requires PassInv(inp, c, e, k, done, out, -1)
    ensures out == ReplaceAll(inp, c, e)
  {
    assert inp[..k] + inp[k..] == inp;
    assert inp[k..] == out[|done|..];
    ReplaceAllWithout(inp[k..], c, e);
    ReplaceAllAppend(inp[..k], inp[k..], c, e);
  }

  /** The replacement table, in the order the passes run. */
  function Entities(): seq<(char, string)>
  {
    [('&', "&amp;"), ('<', "&lt;"), ('>', "&gt;")]
  }

  /** The passes ps applied to s in order. */
  function Passes(s: string, ps: seq<(char, string)>): string
    decreases |ps|
  {
    if ps == [] then s else Passes(ReplaceAll(s, ps[0].0, ps[0].1), ps[1..])
  }

  lemma PassesSnoc(s: string, ps: seq<(char, string)>, p: (char, string))
    ensures Passes(s, ps + [p]) == ReplaceAll(Passes(s, ps), p.0, p.1)
    decreases |ps|
  {
    if ps != [] {
      assert (ps + [p])[1..] == ps[1..] + [p];
      PassesSnoc(ReplaceAll(s, ps[0].0, ps[0].1), ps[1..], p);
    }
  }

  /** encodeForXML(in): the three passes over a copy of the input. */
  method EncodeForXML(inp: string) returns (out: string)
    ensures out == Escape(inp)
  {
    out := inp;
    var cs2es := Entities();
    for i := 0 to |cs2es|
      invariant out == Passes(inp, cs2es[..i])
    {
      assert |cs2es[i].1| >= 1 && Absent(cs2es[i].1, cs2es[i].0, 1, |cs2es[i].1|) by {
        assert i == 0 || i == 1 || i == 2;
      }
      PassesSnoc(inp, cs2es[..i], cs2es[i]);
      Wrappers.TakeSnoc(cs2es, i);
      out := ReplacePass(out, cs2es[i].0, cs2es[i].1);
    }
    assert cs2es[..|cs2es|] == cs2es;
    EncodeIsEscape(inp);
  }

  // ---------------------------------------------------------------------------
  // The reference definition: one character at a time

  function EscapeChar(ch: char): string
  {
    if ch == '&' then "&amp;" else if ch == '<' then "&lt;" else if ch == '>' then "&gt;" else [ch]
  }

  /** Each character replaced by its entity, or kept. */
  function Escape(s: string): (r: string)
  {
    if s == [] then [] else EscapeChar(s[0]) + Escape(s[1..])
  }

  /** The three predefined entities decoded back to their characters. */
  function Unescape(t: string): (r: string)
  {
    if t == [] then []
    else if IsAmp(t) then ['&'] + Unescape(t[5..])
    else if IsEntity4(t, 'l') then ['<'] + Unescape(t[4..])
    else if IsEntity4(t, 'g') then ['>'] + Unescape(t[4..])
    else [t[0]] + Unescape(t[1..])
  }

  /** t starts with "&amp;". */
  predicate IsAmp(t: string)
  {
    |t| >= 5 && t[0] == '&' && t[1] == 'a' && t[2] == 'm' && t[3] == 'p' && t[4] == ';'
  }

  /** t starts with "&lt;" (x is 'l') or "&gt;" (x is 'g'). */
  predicate IsEntity4(t: string, x: char)
  {
    |t| >= 4 && t[0] == '&' && t[1] == x && t[2] == 't' && t[3] == ';'
  }

  /** How often c occurs in s. */
  function Count(s: string, c: char): nat
  {
    if s == [] then 0 else (if s[0] == c then 1 else 0) + Count(s[1..], c)
  }

  /** The three passes in sequence are the per-character escape. */
  lemma {:induction false} EncodeIsEscape(s: string)
    ensures Passes(s, Entities()) == Escape(s)
  {
    var es := Entities();
    assert Passes(s, es) == ReplaceAll(ReplaceAll(ReplaceAll(s, '&', "&amp;"), '<', "&lt;"), '>', "&gt;") by {
      assert es[1..][1..][1..] == [];
    }
    ThreePasses(s);
  }

  lemma {:induction false} ThreePasses(s: string)
    ensures ReplaceAll(ReplaceAll(ReplaceAll(s, '&', "&amp;"), '<', "&lt;"), '>', "&gt;") == Escape(s)
  {
    if s != [] {
      var h := [s[0]];
      assert s == h + s[1..];
      ReplaceAllAppend(h, s[1..], '&', "&amp;");
      var a1 := ReplaceAll(h, '&', "&amp;");
      var a2 := ReplaceAll(s[1..], '&', "&amp;");
      ReplaceAllAppend(a1, a2, '<', "&lt;");
      var b1 := ReplaceAll(a1, '<', "&lt;");
      var b2 := ReplaceAll(a2, '<', "&lt;");
      ReplaceAllAppend(b1, b2, '>', "&gt;");
      ThreePasses(s[1..]);
      assert ReplaceAll(ReplaceAll(a1, '<', "&lt;"), '>', "&gt;") == EscapeChar(s[0]) by {
        OneCharPasses(s[0]);
      }
    }
  }

  lemma OneCharPasses(ch: char)
    ensures ReplaceAll(ReplaceAll(ReplaceAll([ch], '&', "&amp;"), '<', "&lt;"), '>', "&gt;") == EscapeChar(ch)
  {
    if ch == '&' {
      var one := [ch];
      assert ReplaceAll(one, '&', "&amp;") == "&amp;" by {
        assert one[0] == '&' && one[1..] == [];
      }
      assert ReplaceAll("&amp;", '<', "&lt;") == "&amp;" by { ReplaceAllWithout("&amp;", '<', "&lt;"); }
      assert ReplaceAll("&amp;", '>', "&gt;") == "&amp;" by { ReplaceAllWithout("&amp;", '>', "&gt;"); }
    } else if ch == '<' {
      var one := [ch];
      assert ReplaceAll(one, '&', "&amp;") == one by { ReplaceAllWithout(one, '&', "&amp;"); }
      assert ReplaceAll(one, '<', "&lt;") == "&lt;" by {
        assert one[0] == '<' && one[1..] == [];
      }
      assert ReplaceAll("&lt;", '>', "&gt;") == "&lt;" by { ReplaceAllWithout("&lt;", '>', "&gt;"); }
    }
  }

  // ---------------------------------------------------------------------------
  // Properties

  /** Decoding the entities gives the input back: the escape loses nothing. */
  lemma {:induction false} UnescapeEscape(s: string)
    ensures Unescape(Escape(s)) == s
  {
    if s != [] {
      UnescapeEscape(s[1..]);
      UnescapeHead(s[0], Escape(s[1..]));
    }
  }

  /** One escaped character is decoded back in front of the rest. */
  lemma UnescapeHead(c: char, rest: string)
    ensures Unescape(EscapeChar(c) + rest) == [c] + Unescape(rest)
  {
    var t := EscapeChar(c) + rest;
    if c == '&' {
      AmpHead(rest);
    } else if c == '<' {
      LtHead(rest);
    } else if c == '>' {
      GtHead(rest);
    } else {
      assert t[0] == c && t[1..] == rest;
    }
  }

  lemma AmpHead(rest: string)
    ensures Unescape("&amp;" + rest) == ['&'] + Unescape(rest)
  {
    var t := "&amp;" + rest;
    assert t[0] == '&' && t[1] == 'a' && t[2] == 'm' && t[3] == 'p' && t[4] == ';';
    assert t[5..] == rest;
  }

  lemma LtHead(rest: string)
    ensures Unescape("&lt;" + rest) == ['<'] + Unescape(rest)
  {
    var t := "&lt;" + rest;
    assert t[0] == '&' && t[1] == 'l' && t[2] == 't' && t[3] == ';';
    assert t[4..] == rest;
  }

  lemma GtHead(rest: string)
    ensures Unescape("&gt;" + rest) == ['>'] + Unescape(rest)
  {
    var t := "&gt;" + rest;
    assert t[0] == '&' && t[1] == 'g' && t[2] == 't' && t[3] == ';';
    assert t[4..] == rest;
  }

  /** The output holds no '<' and no '>'. */
  lemma {:induction false} EscapeHasNoAngles(s: string)
    ensures forall k :: 0 <= k < |Escape(s)| ==> Escape(s)[k] != '<' && Escape(s)[k] != '>'
  {
    if s != [] {
      EscapeHasNoAngles(s[1..]);
      var hd := EscapeChar(s[0]);
      assert forall k :: 0 <= k < |hd| ==> hd[k] != '<' && hd[k] != '>';
      assert Escape(s) == hd + Escape(s[1..]);
    }
  }

  /** Each '&' of the input adds four characters, each '<' or '>' three. */
  lemma {:induction false} EscapeLength(s: string)
    ensures |Escape(s)| == |s| + 4 * Count(s, '&') + 3 * Count(s, '<') + 3 * Count(s, '>')
  {
    if s != [] {
      EscapeLength(s[1..]);
    }
  }

  /** A string with none of the three characters comes out unchanged. */
  lemma {:induction false} EscapePlain(s: string)
    requires forall k :: 0 <= k < |s| ==> s[k] != '&' && s[k] != '<' && s[k] != '>'
    ensures Escape(s) == s
  {
    if s != [] {
      EscapePlain(s[1..]);
    }
  }

  /** Escaping distributes over concatenation, so every other character
      keeps its place relative to its neighbours. */
  lemma {:induction false} EscapeAppend(a: string, b: string)
    ensures Escape(a + b) == Escape(a) + Escape(b)
  {
    if a == [] {
      assert a + b == b;
    } else {
      assert (a + b)[1..] == a[1..] + b;
      EscapeAppend(a[1..], b);
    }
  }
}
