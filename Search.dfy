/** PointMatcher of pyext/yoda/search.py: a search pattern
    "/path/regex[#n | @x | @lo:hi]  # comment" selects analysis objects by
    path and their bins by index or by position.

    The module is Python 2, so `\s` and `str.strip` use the six ASCII
    whitespace characters and `\d` the ASCII digits. The path part is a
    regular expression that the model does not interpret: whether it
    compiles and where it matches are the parameters `compiles` and
    `matchesAt`. A number is what float() makes of the pattern's digits and
    dots, read as an exact decimal. */
module Search {
  import opened Wrappers
  import opened LineGrammar
  import StringUtils

  // ---------------------------------------------------------------------------
  // Text helpers

  /** s without leading and trailing whitespace (str.strip). */
  function Strip(s: string): (r: string)
  {
    TrimEnd(SkipSpace(s))
  }

  function TrimEnd(s: string): (r: string)
    ensures |r| <= |s| && r == s[..|r|] && (r == [] || !IsSpace(r[|r| - 1]))
    ensures forall k :: |r| <= k < |s| ==> IsSpace(s[k])
  {
    if s != [] && IsSpace(s[|s| - 1]) then TrimEnd(s[..|s| - 1]) else s
  }

  /** The regular expression `(^|\s+)#.*` starts a match at the '#' at k:
      the '#' begins the searched text, or whitespace inside the searched
      part precedes it. */
  predicate CommentAt(s: string, k: nat, from: nat)
  {
    from <= k < |s| && s[k] == '#' && (k == 0 || (k - 1 >= from && IsSpace(s[k - 1])))
  }

  /** The first '#' at or after from that starts a comment. */
  function FirstComment(s: string, from: nat, k: nat): (r: Option<nat>)
    requires from <= k
    ensures r.Some? ==> k <= r.value && CommentAt(s, r.value, from)
    ensures r.Some? ==> forall j :: k <= j < r.value ==> !CommentAt(s, j, from)
    ensures r.None? ==> forall j :: k <= j < |s| ==> !CommentAt(s, j, from)
    decreases |s| - k
  {
    if k >= |s| then None
    else if CommentAt(s, k, from) then Some(k)
    else FirstComment(s, from, k + 1)
  }

  /** Where the whitespace run before k begins (not earlier than from). */
  function RunStart(s: string, k: nat, from: nat): (r: nat)
    requires from <= k <= |s|
    ensures from <= r <= k && (r == from || !IsSpace(s[r - 1]))
    ensures forall j :: r <= j < k ==> IsSpace(s[j])
    decreases k
  {
    if k > from && IsSpace(s[k - 1]) then RunStart(s, k - 1, from) else k
  }

  /** The end of `.*` from k: the next line break, or the end of s. */
  function LineEnd(s: string, k: nat): (r: nat)
    requires k <= |s|
    ensures k <= r <= |s| && (r == |s| || s[r] == '\n')
    ensures forall j :: k <= j < r ==> s[j] != '\n'
    decreases |s| - k
  {
    if k == |s| || s[k] == '\n' then k else LineEnd(s, k + 1)
  }

  /** re.sub(r"(^|\s+)#.*", "", s[from..]) as the search continues from
      from: each match is the whitespace run before a comment '#' and the
      rest of its line. */
  function StripComments(s: string, from: nat): (r: string)
    requires from <= |s|
    decreases |s| - from
  {
    match FirstComment(s, from, from)
    case None => s[from..]
    case Some(k) => s[from..RunStart(s, k, from)] + StripComments(s, LineEnd(s, k + 1))
  }

  // ---------------------------------------------------------------------------
  // Numbers

  function Pow10(n: nat): (r: nat)
    ensures r > 0
  {
    if n == 0 then 1 else 10 * Pow10(n - 1)
  }

  /** Digits and at most one dot, with at least one digit: the texts made of
      `[\d.]` that float() accepts. */
  predicate IsDecimal(t: string)
  {
    (forall k :: 0 <= k < |t| ==> IsDigit(t[k]) || t[k] == '.')
    && (exists k :: 0 <= k < |t| && IsDigit(t[k]))
    && (forall i, j :: 0 <= i < j < |t| && t[i] == '.' ==> t[j] != '.')
  }

  /** float(t) for a text of digits, dots and colons; None is ValueError. */
  function FloatOf(t: string): (r: Option<real>)
    ensures r.Some? <==> IsDecimal(t)
  {
    if !IsDecimal(t) then None
    else
      var d := StringUtils.Find(t, '.', 0);
      if d == -1 then Some(DigitsValue(t) as real)
      else Some(DigitsValue(t[..d]) as real + DigitsValue(t[d + 1..]) as real / Pow10(|t| - d - 1) as real)
  }

  /** int() of a float: truncation toward zero. */
  function TruncToInt(v: real): int
  {
    if v >= 0.0 then v.Floor else -((-v).Floor)
  }

  /** A range end: a number, or the "-inf"/"inf" an empty side stands for. */
  datatype Bound = NegInf | Finite(v: real) | PosInf

  predicate Above(x: real, b: Bound)
  {
    match b
    case NegInf => true
    case Finite(v) => x > v
    case PosInf => false
  }

  predicate AtLeast(x: real, b: Bound)
  {
    match b
    case NegInf => true
    case Finite(v) => x >= v
    case PosInf => false
  }

  predicate Below(x: real, b: Bound)
  {
    match b
    case NegInf => false
    case Finite(v) => x < v
    case PosInf => true
  }

  predicate AtMost(x: real, b: Bound)
  {
    match b
    case NegInf => false
    case Finite(v) => x <= v
    case PosInf => true
  }

  /** One side of "lo:hi": empty means the infinity given, else float(). */
  function BoundOf(t: string, empty: Bound): Option<Bound>
  {
    if t == [] then Some(empty)
    else match FloatOf(t)
      case None => None
      case Some(v) => Some(Finite(v))
  }

  // ---------------------------------------------------------------------------
  // The pattern

  /** The index attribute: a single float, or the two-element list of a
      range. */
  datatype Index = Single(v: real) | Span(lo: Bound, hi: Bound)

  /** The four attributes set_patt assigns; each may be None. */
  datatype MatcherState = MatcherState(
    patt: Option<string>, path: Option<string>, indexType: Option<char>, index: Option<Index>)

  const Unset := MatcherState(None, None, None, None)

  /** The length of group 1 of `([^#@]+)`: the leading run free of '#'
      and '@'. */
  function PathLength(s: string): (r: nat)
    ensures r <= |s| && (r == |s| || s[r] == '#' || s[r] == '@')
    ensures forall k :: 0 <= k < r ==> s[k] != '#' && s[k] != '@'
  {
    if s == [] || s[0] == '#' || s[0] == '@' then 0 else 1 + PathLength(s[1..])
  }

  predicate IsPosChar(c: char) { IsDigit(c) || c == '.' || c == ':' }

  /** The length of the leading run of characters satisfying p. */
  function RunLength(s: string, p: char -> bool): (r: nat)
    ensures r <= |s| && (r == |s| || !p(s[r]))
    ensures forall k :: 0 <= k < r ==> p(s[k])
  {
    if s == [] || !p(s[0]) then 0 else 1 + RunLength(s[1..], p)
  }

  /** Group 2 of `(#\d+|@[\d\.:]+)?` right after the path: its type
      character and the characters after it, or None when it is absent. */
  function IndexGroup(rest: string): (r: Option<(char, string)>)
    ensures r.Some? ==> |rest| > |r.value.1| && rest[..|r.value.1| + 1] == [r.value.0] + r.value.1
    ensures r.Some? && r.value.0 == '#' ==> r.value.1 != [] && forall k :: 0 <= k < |r.value.1| ==> IsDigit(r.value.1[k])
    ensures r.Some? && r.value.0 != '#' ==> r.value.0 == '@' && r.value.1 != [] && forall k :: 0 <= k < |r.value.1| ==> IsPosChar(r.value.1[k])
  {
    if rest == [] then None
    else if rest[0] == '#' && RunLength(rest[1..], IsDigit) > 0 then
      Some(('#', rest[1..1 + RunLength(rest[1..], IsDigit)]))
    else if rest[0] == '@' && RunLength(rest[1..], IsPosChar) > 0 then
      Some(('@', rest[1..1 + RunLength(rest[1..], IsPosChar)]))
    else None
  }

  /** The index from the text after the type character, or ValueError when
      float() refuses a part. */
  function IndexOf(t: string): (r: Result<Index>)
  {
    var c := StringUtils.Find(t, ':', 0);
    if c == -1 then
      match FloatOf(t)
      case None => Err(ValueError)
      case Some(v) => Ok(Single(v))
    else
      match (BoundOf(t[..c], NegInf), BoundOf(t[c + 1..], PosInf))
      case (Some(lo), Some(hi)) => Ok(Span(lo, hi))
      case _ => Err(ValueError)
  }

  /** What set_patt leaves in the attributes, and whether it raised. A
      raise stops it part way, with the attributes it assigned before. */
  function PatternState(patt: string, compiles: string -> bool): (r: (MatcherState, Outcome))
    ensures patt == [] ==> r == (Unset, Pass)
    ensures r.0.patt.None? <==> patt == []
    ensures r.1.Fail? ==> r.1.error == RegexError || r.1.error == ValueError
    ensures r.0.indexType.Some? ==> r.0.path.Some? && r.0.indexType.value in {'#', '@'}
  {
    if patt == [] then (Unset, Pass)
    else
      var p := Strip(StripComments(patt, 0));
      var n := PathLength(p);
      if n == 0 then (MatcherState(Some(p), None, None, None), Pass)
      else if !compiles(p[..n]) then (MatcherState(Some(p), None, None, None), Fail(RegexError))
      else
        match IndexGroup(p[n..])
        case None => (MatcherState(Some(p), Some(p[..n]), None, None), Pass)
        case Some((c, t)) =>
          match IndexOf(t)
          case Err(e) => (MatcherState(Some(p), Some(p[..n]), Some(c), None), Fail(e))
          case Ok(i) => (MatcherState(Some(p), Some(p[..n]), Some(c), Some(i)), Pass)
  }

  // ---------------------------------------------------------------------------
  // Matching

  /** Whether the regular expression rx matches text starting at position
      i (re's match at that position). */
  type Matcher = (string, string, nat) -> bool

  /** A bin as match_pos sees it: its index and its x range. */
  datatype BinRef = BinRef(n: int, xMin: real, xMax: real)

  /** match_pos: AttributeError-free, but a type character with no index
      (set_patt raised) indexes None, which is TypeError. */
  function Accepts(st: MatcherState, b: BinRef): (r: Result<bool>)
  {
    if st.indexType.None? then Ok(true)
    else if st.index.None? then Err(TypeError)
    else if st.indexType.value == '#' then
      match st.index.value
      case Single(v) => Ok(b.n == TruncToInt(v))
      case Span(lo, hi) => Ok(AtLeast(b.n as real, lo) && Below(b.n as real, hi))
    else
      match st.index.value
      case Single(v) => Ok(v >= b.xMin && v < b.xMax)
      case Span(lo, hi) => Ok(Above(b.xMax, lo) && AtMost(b.xMin, hi))
  }

  /** Whether rx matches somewhere at or after position i (re's search). */
  function SearchFrom(rx: string, text: string, i: nat, m: Matcher): (r: bool)
    requires i <= |text| + 1
    ensures r <==> exists j :: i <= j <= |text| && m(rx, text, j)
    decreases |text| + 1 - i
  {
    if i > |text| then false
    else if m(rx, text, i) then true
    else SearchFrom(rx, text, i + 1, m)
  }

  /** match_path: anchored at the start; AttributeError without a path. */
  function MatchesPath(st: MatcherState, text: string, m: Matcher): (r: Result<bool>)
    ensures r.Err? <==> st.path.None?
    ensures r.Err? ==> r.error == AttributeError
  {
    if st.path.None? then Err(AttributeError) else Ok(m(st.path.value, text, 0))
  }

  /** search_path: anywhere in the text; AttributeError without a path. */
  function SearchesPath(st: MatcherState, text: string, m: Matcher): (r: Result<bool>)
    ensures r.Err? <==> st.path.None?
    ensures r.Err? ==> r.error == AttributeError
  {
    if st.path.None? then Err(AttributeError) else Ok(SearchFrom(st.path.value, text, 0, m))
  }

  /** A PointMatcher object: the attributes of set_patt, reassigned by each
      call. */
  class PointMatcher {
    var patt: Option<string>
    var path: Option<string>
    var indexType: Option<char>
    var index: Option<Index>

    function State(): MatcherState
      reads this
    {
      MatcherState(patt, path, indexType, index)
    }

    /** __init__ calls set_patt. When that raises, Python has no object;
        the model keeps the attributes set_patt had assigned. */
    constructor (p: string, compiles: string -> bool)
      ensures State() == PatternState(p, compiles).0
    {
      var st := PatternState(p, compiles).0;
      patt, path, indexType, index := st.patt, st.path, st.indexType, st.index;
    }

    method SetPatt(p: string, compiles: string -> bool) returns (o: Outcome)
      modifies this
      ensures (State(), o) == PatternState(p, compiles)
    {
      patt, path, indexType, index := None, None, None, None;
      if p == [] {
        return Pass;
      }
      var s := Strip(StripComments(p, 0));
      patt := Some(s);
      var n := PathLength(s);
      if n == 0 {
        return Pass;
      }
      if !compiles(s[..n]) {
        return Fail(RegexError);
      }
      path := Some(s[..n]);
      var g := IndexGroup(s[n..]);
      if g.None? {
        return Pass;
      }
      indexType := Some(g.value.0);
      var i := IndexOf(g.value.1);
      if i.Err? {
        return Fail(i.error);
      }
      index := Some(i.value);
      return Pass;
    }

    function MatchPath(text: string, m: Matcher): (r: Result<bool>)
      reads this
      ensures r == MatchesPath(State(), text, m)
    {
      MatchesPath(State(), text, m)
    }

    function SearchPath(text: string, m: Matcher): (r: Result<bool>)
      reads this
      ensures r == SearchesPath(State(), text, m)
    {
      SearchesPath(State(), text, m)
    }

    function MatchPos(b: BinRef): (r: Result<bool>)
      reads this
      ensures r == Accepts(State(), b)
    {
      Accepts(State(), b)
    }
  }

  // ---------------------------------------------------------------------------
  // Properties

  /** A path that matches at the start is also found by search_path. */
  lemma MatchThenSearch(st: MatcherState, text: string, m: Matcher)
    requires MatchesPath(st, text, m) == Ok(true)
    ensures SearchesPath(st, text, m) == Ok(true)
  {
    assert m(st.path.value, text, 0);
  }

  /** Without an index part every bin is accepted. */
  lemma NoIndexAcceptsAll(st: MatcherState, b: BinRef)
    requires st.indexType.None?
    ensures Accepts(st, b) == Ok(true)
  {
  }

  /** Stripping whitespace ignores trailing whitespace. */
  lemma {:induction false} TrimEndSpaces(x: string, w: string)
    requires forall k :: 0 <= k < |w| ==> IsSpace(w[k])
    ensures TrimEnd(x + w) == TrimEnd(x)
    decreases |w|
  {
    if w == [] {
      assert x + w == x;
    } else {
      var xw := x + w;
      assert xw[..|xw| - 1] == x + w[..|w| - 1];
      TrimEndSpaces(x, w[..|w| - 1]);
    }
  }

  lemma {:induction false} SkipSpaceAppend(x: string, w: string)
    ensures SkipSpace(x) != [] ==> SkipSpace(x + w) == SkipSpace(x) + w
    ensures SkipSpace(x) == [] ==> SkipSpace(x + w) == SkipSpace(w)
  {
    if x == [] {
      assert x + w == w;
    } else if IsSpace(x[0]) {
      assert (x + w)[1..] == x[1..] + w;
      SkipSpaceAppend(x[1..], w);
    }
  }

  lemma {:induction false} SkipSpaceAll(w: string)
    requires forall k :: 0 <= k < |w| ==> IsSpace(w[k])
    ensures SkipSpace(w) == []
  {
    if w != [] {
      SkipSpaceAll(w[1..]);
    }
  }

  lemma StripSpaces(x: string, w: string)
    requires forall k :: 0 <= k < |w| ==> IsSpace(w[k])
    ensures Strip(x + w) == Strip(x)
  {
    SkipSpaceAppend(x, w);
    if SkipSpace(x) != [] {
      TrimEndSpaces(SkipSpace(x), w);
    } else {
      SkipSpaceAll(w);
    }
  }

  /** Nothing is left to strip at the end of the text. */
  lemma StripCommentsAtEnd(s: string)
    ensures StripComments(s, |s|) == []
  {
    assert FirstComment(s, |s|, |s|).None?;
  }

  /** A comment '#' of a line without line breaks is removed with the rest
      of the text and the whitespace before it. */
  lemma StripCommentsCut(s: string, k: nat)
    requires forall j :: 0 <= j < |s| ==> s[j] != '\n'
    requires FirstComment(s, 0, 0) == Some(k)
    ensures StripComments(s, 0) == s[..RunStart(s, k, 0)]
  {
    assert LineEnd(s, k + 1) == |s|;
    StripCommentsAtEnd(s);
    assert s[0..RunStart(s, k, 0)] + [] == s[..RunStart(s, k, 0)];
  }

  /** On one line, comment stripping cuts the pattern at its first comment
      '#': one that begins the text or follows whitespace. A '#' right
      after another character stays. */
  lemma OneLineComment(s: string)
    requires forall k :: 0 <= k < |s| ==> s[k] != '\n'
    ensures FirstComment(s, 0, 0).None? ==> StripComments(s, 0) == s
    ensures FirstComment(s, 0, 0).Some? ==>
      Strip(StripComments(s, 0)) == Strip(s[..FirstComment(s, 0, 0).value])
  {
    if FirstComment(s, 0, 0).Some? {
      OneLineCommentCut(s, FirstComment(s, 0, 0).value);
    } else {
      assert s[0..] == s;
    }
  }

  lemma OneLineCommentCut(s: string, k: nat)
    requires forall j :: 0 <= j < |s| ==> s[j] != '\n'
    requires FirstComment(s, 0, 0) == Some(k)
    ensures Strip(StripComments(s, 0)) == Strip(s[..k])
  {
    StripCommentsCut(s, k);
    var r := RunStart(s, k, 0);
    assert s[..k] == s[..r] + s[r..k];
    StripSpaces(s[..r], s[r..k]);
  }

  // ---------------------------------------------------------------------------
  // Patterns as a user writes them

  /** A path regex with no '#', '@' or line break, not starting or ending
      in whitespace. */
  predicate PlainPath(path: string)
  {
    path != [] && !IsSpace(path[0]) && !IsSpace(path[|path| - 1])
    && forall k :: 0 <= k < |path| ==> path[k] != '#' && path[k] != '@' && path[k] != '\n'
  }

  lemma StripPlain(p: string)
    requires p != [] && !IsSpace(p[0]) && !IsSpace(p[|p| - 1])
    ensures Strip(p) == p
  {
    assert SkipSpace(p) == p;
  }

  lemma {:induction false} PathLengthOf(path: string, rest: string)
    requires forall k :: 0 <= k < |path| ==> path[k] != '#' && path[k] != '@'
    requires rest == [] || rest[0] == '#' || rest[0] == '@'
    ensures PathLength(path + rest) == |path|
  {
    if path == [] {
      assert path + rest == rest;
    } else {
      assert (path + rest)[1..] == path[1..] + rest;
      PathLengthOf(path[1..], rest);
    }
  }

  /** "#" and digits form group 2, and the index is their value. */
  lemma DigitsIndex(t: string)
    requires t != [] && forall k :: 0 <= k < |t| ==> IsDigit(t[k])
    ensures IndexGroup("#" + t) == Some(('#', t))
    ensures IndexOf(t) == Ok(Single(DigitsValue(t) as real))
  {
    var rest := "#" + t;
    assert rest[1..] == t;
    assert RunLength(t, IsDigit) == |t|;
    assert rest[1..1 + |t|] == t;
    assert StringUtils.Find(t, ':', 0) == -1;
    assert IsDigit(t[0]);
    assert IsDecimal(t);
    assert StringUtils.Find(t, '.', 0) == -1;
  }

  /** "@" and a run of digits, dots and colons form group 2. */
  lemma PosIndexGroup(t: string)
    requires t != [] && forall k :: 0 <= k < |t| ==> IsPosChar(t[k])
    ensures IndexGroup("@" + t) == Some(('@', t))
  {
    var rest := "@" + t;
    assert rest[1..] == t;
    assert RunLength(t, IsPosChar) == |t|;
    assert rest[1..1 + |t|] == t;
  }

  /** A pattern whose cleaned text is path followed by group 2. */
  lemma CleanPattern(s: string, path: string, c: char, t: string, compiles: string -> bool)
    requires s != [] && PlainPath(path) && compiles(path)
    requires Strip(StripComments(s, 0)) == path + [c] + t
    requires IndexGroup([c] + t) == Some((c, t))
    ensures PatternState(s, compiles).0 == MatcherState(Some(path + [c] + t), Some(path), Some(c),
      if IndexOf(t).Ok? then Some(IndexOf(t).value) else None)
    ensures PatternState(s, compiles).1 == if IndexOf(t).Ok? then Pass else Fail(IndexOf(t).error)
  {
    var p := path + [c] + t;
    assert ([c] + t)[0] == c;
    assert path + ([c] + t) == p;
    PathLengthOf(path, [c] + t);
    assert p[..|path|] == path && p[|path|..] == [c] + t;
  }

  /** The '#' of a pattern free of comments comes right after the path, so
      it is no comment. */
  lemma NoCommentIn(s: string)
    requires forall k :: 0 <= k < |s| && s[k] == '#' ==> k > 0 && !IsSpace(s[k - 1])
    ensures StripComments(s, 0) == s
  {
    assert FirstComment(s, 0, 0).None?;
    assert s[0..] == s;
  }

  /** In p + " #" + c the first comment '#' is the one after the space. */
  lemma FirstCommentAfterSpace(p: string, c: string)
    requires forall k :: 0 <= k < |p| && p[k] == '#' ==> k > 0 && !IsSpace(p[k - 1])
    ensures FirstComment(p + " #" + c, 0, 0) == Some(|p| + 1)
  {
    var s := p + " #" + c;
    var h := |p| + 1;
    assert s[h] == '#' && s[h - 1] == ' ';
    assert CommentAt(s, h, 0);
    forall j | 0 <= j < h
      ensures !CommentAt(s, j, 0)
    {
      if j < |p| { assert s[j] == p[j]; }
    }
  }

  lemma OneLine(p: string, c: string)
    requires forall k :: 0 <= k < |p| ==> p[k] != '\n'
    requires forall k :: 0 <= k < |c| ==> c[k] != '\n'
    ensures forall j :: 0 <= j < |p + " #" + c| ==> (p + " #" + c)[j] != '\n'
  {
    var s := p + " #" + c;
    forall j | 0 <= j < |s|
      ensures s[j] != '\n'
    {
      if j < |p| { assert s[j] == p[j]; } else if j >= |p| + 2 { assert s[j] == c[j - |p| - 2]; }
    }
  }

  /** A trailing " #" comment on one line is stripped off, together with
      the space before it. */
  lemma TrailingComment(p: string, c: string)
    requires forall k :: 0 <= k < |p| && p[k] == '#' ==> k > 0 && !IsSpace(p[k - 1])
    requires forall k :: 0 <= k < |p| ==> p[k] != '\n'
    requires forall k :: 0 <= k < |c| ==> c[k] != '\n'
    ensures Strip(StripComments(p + " #" + c, 0)) == Strip(p)
  {
    var s := p + " #" + c;
    FirstCommentAfterSpace(p, c);
    OneLine(p, c);
    OneLineCommentCut(s, |p| + 1);
    var head := s[..|p| + 1];
    assert head == p + " " by {
      assert forall k :: 0 <= k < |p| ==> head[k] == p[k];
      assert head[|p|] == ' ';
    }
    StripSpaces(p, " ");
  }

  /** The text "path#n" keeps its "#n": that '#' follows the path, not
      whitespace. */
  lemma HashText(path: string, n: nat)
    requires PlainPath(path)
    ensures var p := path + "#" + ULongText(n);
      (forall k :: 0 <= k < |p| && p[k] == '#' ==> k > 0 && !IsSpace(p[k - 1]))
      && (forall k :: 0 <= k < |p| ==> p[k] != '\n')
      && Strip(p) == p
  {
    var t := ULongText(n);
    var p := path + "#" + t;
    forall k | 0 <= k < |p|
      ensures p[k] != '\n' && (p[k] == '#' ==> k == |path|)
    {
      if k < |path| { assert p[k] == path[k]; } else if k > |path| { assert p[k] == t[k - |path| - 1]; }
    }
    assert p[|path| - 1] == path[|path| - 1];
    assert p[|p| - 1] == t[|t| - 1];
    StripPlain(p);
  }

  /** "path#n" selects the bin numbered n: the path is the regex, the index
      is n. Appending " #" and a comment changes nothing, while the "#n"
      itself, written right after the path, is not taken for a comment. */
  lemma HashPattern(path: string, n: nat, comment: Option<string>, compiles: string -> bool)
    requires PlainPath(path) && compiles(path)
    requires comment.Some? ==> forall k :: 0 <= k < |comment.value| ==> comment.value[k] != '\n'
    ensures var p := path + "#" + ULongText(n);
      var s := if comment.Some? then p + " #" + comment.value else p;
      PatternState(s, compiles) == (MatcherState(Some(p), Some(path), Some('#'), Some(Single(n as real))), Pass)
  {
    var t := ULongText(n);
    var p := path + "#" + t;
    var s := if comment.Some? then p + " #" + comment.value else p;
    HashText(path, n);
    if comment.Some? {
      TrailingComment(p, comment.value);
    } else {
      NoCommentIn(p);
    }
    DigitsValueText(n);
    DigitsIndex(t);
    assert "#" + t == ['#'] + t;
    CleanPattern(s, path, '#', t, compiles);
  }

  /** "path #n": with whitespace before it the '#' starts a comment, so the
      pattern has no index and every bin is accepted. */
  lemma SpacedHashIsComment(path: string, t: string, compiles: string -> bool)
    requires PlainPath(path) && compiles(path)
    requires forall k :: 0 <= k < |t| ==> t[k] != '\n'
    ensures PatternState(path + " #" + t, compiles).0 == MatcherState(Some(path), Some(path), None, None)
  {
    TrailingComment(path, t);
    StripPlain(path);
    PathLengthOf(path, []);
    assert path + [] == path;
    assert path[|path|..] == [];
  }

  /** "path@t" with t of digits, dots and colons: the index is float() of
      t, or of its two sides split at the first ':'. When float() refuses a
      part, set_patt raises ValueError with the index type already set. */
  lemma AtPattern(path: string, t: string, compiles: string -> bool)
    requires PlainPath(path) && compiles(path)
    requires t != [] && forall k :: 0 <= k < |t| ==> IsPosChar(t[k])
    ensures var s := path + "@" + t;
      PatternState(s, compiles).0 == MatcherState(Some(s), Some(path), Some('@'),
        if IndexOf(t).Ok? then Some(IndexOf(t).value) else None)
      && PatternState(s, compiles).1 == if IndexOf(t).Ok? then Pass else Fail(ValueError)
  {
    var s := path + "@" + t;
    assert forall k :: 0 <= k < |s| ==> s[k] != '#' by {
      forall k | 0 <= k < |s|
        ensures s[k] != '#'
      {
        if k < |path| { assert s[k] == path[k]; } else if k > |path| { assert s[k] == t[k - |path| - 1]; }
      }
    }
    NoCommentIn(s);
    assert s[|s| - 1] == t[|t| - 1];
    StripPlain(s);
    PosIndexGroup(t);
    assert "@" + t == ['@'] + t;
    CleanPattern(s, path, '@', t, compiles);
  }

  /** A range splits at its first ':'; an empty side is the infinity on
      that side, and a second ':' makes float() fail. */
  lemma RangeIndex(lo: string, hi: string)
    requires forall k :: 0 <= k < |lo| ==> lo[k] != ':'
    ensures var r := IndexOf(lo + ":" + hi);
      (BoundOf(lo, NegInf).Some? && BoundOf(hi, PosInf).Some? ==>
         r == Ok(Span(BoundOf(lo, NegInf).value, BoundOf(hi, PosInf).value)))
      && (BoundOf(lo, NegInf).None? || BoundOf(hi, PosInf).None? ==> r == Err(ValueError))
      && ((exists k :: 0 <= k < |hi| && hi[k] == ':') ==> r == Err(ValueError))
  {
    var t := lo + ":" + hi;
    assert t[|lo|] == ':';
    assert forall k :: 0 <= k < |lo| ==> t[k] != ':' by {
      forall k | 0 <= k < |lo|
        ensures t[k] != ':'
      {
        assert t[k] == lo[k];
      }
    }
    assert StringUtils.Find(t, ':', 0) == |lo|;
    assert t[..|lo|] == lo && t[|lo| + 1..] == hi;
  }

  /** After set_patt raised ValueError, match_pos raises TypeError. */
  lemma ValueErrorThenTypeError(patt: string, compiles: string -> bool, b: BinRef)
    requires PatternState(patt, compiles).1 == Fail(ValueError)
    ensures Accepts(PatternState(patt, compiles).0, b) == Err(TypeError)
  {
  }

  /** float() reads a run of digits as its decimal value. */
  lemma FloatOfDigits(n: nat)
    ensures FloatOf(ULongText(n)) == Some(n as real)
  {
    var t := ULongText(n);
    assert IsDigit(t[0]);
    assert IsDecimal(t);
    assert StringUtils.Find(t, '.', 0) == -1;
    DigitsValueText(n);
  }

  // ---------------------------------------------------------------------------
  // What match_pos selects

  /** An '@' range accepts a non-empty bin [xMin, xMax) exactly when the bin
      shares a point with [lo, hi], for a range with lo <= hi. */
  lemma RangeOverlaps(lo: Bound, hi: Bound, b: BinRef, patt: Option<string>, path: Option<string>)
    requires b.xMin < b.xMax
    requires lo.NegInf? || hi.PosInf? || (lo.Finite? && hi.Finite? && lo.v <= hi.v)
    ensures var st := MatcherState(patt, path, Some('@'), Some(Span(lo, hi)));
      Accepts(st, b) == Ok(exists x :: b.xMin <= x < b.xMax && AtLeast(x, lo) && AtMost(x, hi))
  {
    var overlap := Above(b.xMax, lo) && AtMost(b.xMin, hi);
    if overlap {
      var x := if lo.Finite? && lo.v > b.xMin then lo.v else b.xMin;
      assert b.xMin <= x < b.xMax && AtLeast(x, lo) && AtMost(x, hi);
    } else {
      forall x | b.xMin <= x < b.xMax && AtLeast(x, lo)
        ensures !AtMost(x, hi)
      {
      }
    }
  }

  /** The i-th bin of an axis with the given edges. */
  function BinOf(edges: seq<real>, i: nat): (b: BinRef)
    requires i + 1 < |edges|
    ensures b.xMin == edges[i] && b.xMax == edges[i + 1] && b.n == i
  {
    BinRef(i, edges[i], edges[i + 1])
  }

  predicate Increasing(edges: seq<real>)
  {
    forall i, j :: 0 <= i < j < |edges| ==> edges[i] < edges[j]
  }

  /** On a binned axis a single '@' value inside the axis range selects one
      bin, and outside it none. */
  lemma {:induction false} SingleValueOneBin(edges: seq<real>, v: real, patt: Option<string>, path: Option<string>)
    requires |edges| >= 2 && Increasing(edges)
    ensures var st := MatcherState(patt, path, Some('@'), Some(Single(v)));
      ((exists i :: 0 <= i < |edges| - 1 && Accepts(st, BinOf(edges, i)) == Ok(true))
         <==> edges[0] <= v < edges[|edges| - 1])
      && forall i, j :: 0 <= i < j < |edges| - 1 ==>
           !(Accepts(st, BinOf(edges, i)) == Ok(true) && Accepts(st, BinOf(edges, j)) == Ok(true))
  {
    var st := MatcherState(patt, path, Some('@'), Some(Single(v)));
    if edges[0] <= v < edges[|edges| - 1] {
      var i := BinContaining(edges, v);
      assert Accepts(st, BinOf(edges, i)) == Ok(true);
    }
    forall i | 0 <= i < |edges| - 1 && Accepts(st, BinOf(edges, i)) == Ok(true)
      ensures edges[0] <= v < edges[|edges| - 1]
    {
      assert edges[0] <= edges[i] && edges[i + 1] <= edges[|edges| - 1];
    }
    forall i, j | 0 <= i < j < |edges| - 1
      ensures !(Accepts(st, BinOf(edges, i)) == Ok(true) && Accepts(st, BinOf(edges, j)) == Ok(true))
    {
      assert edges[i + 1] <= edges[j];
    }
  }

  /** The bin whose range holds v, by induction over the edges. */
  lemma {:induction false} BinContaining(edges: seq<real>, v: real) returns (i: nat)
    requires |edges| >= 2 && Increasing(edges)
    requires edges[0] <= v < edges[|edges| - 1]
    ensures i + 1 < |edges| && edges[i] <= v < edges[i + 1]
    decreases |edges|
  {
    if v < edges[1] {
      i := 0;
    } else {
      var rest := edges[1..];
      assert Increasing(rest) by {
        forall a, b | 0 <= a < b < |rest|
          ensures rest[a] < rest[b]
        {
          assert rest[a] == edges[a + 1] && rest[b] == edges[b + 1];
        }
      }
      if |rest| == 1 {
        assert false;
      }
      var k := BinContaining(rest, v);
      i := k + 1;
    }
  }
}
