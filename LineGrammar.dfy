/** The pieces the two readers' content grammars share
    (include/YODA/ReaderYODA.h:410-490, include/YODA/ReaderFLAT.h:238-265),
    at the level of whitespace-separated tokens.

    A number column is a whole token that the lexer accepts; what double_
    accepts is the `lex` parameter. A count column (ulong_) is a token of
    decimal digits whose value fits in 64 bits. Annotation and comment lines
    are read character by character: the skipper first drops leading
    whitespace, the key is everything up to the first '=' and may not start
    with a digit or '-', and the value is the rest of the line after further
    leading whitespace. */
module LineGrammar {
  import opened Wrappers
  import opened Dbn
  import StringUtils

  /** The characters ascii::space skips. */
  predicate IsSpace(c: char)
  {
    c == ' ' || c == '\t' || c == '\n' || c == '\r' || c == '\U{0B}' || c == '\U{0C}'
  }

  predicate IsDigit(c: char) { '0' <= c <= '9' }

  /** s without its leading whitespace. */
  function SkipSpace(s: string): (r: string)
    ensures |r| <= |s| && (r == [] || !IsSpace(r[0]))
  {
    if s != [] && IsSpace(s[0]) then SkipSpace(s[1..]) else s
  }

  /** How many characters precede the first whitespace of s. */
  function WordLength(s: string): (n: nat)
    ensures n <= |s|
  {
    if s == [] || IsSpace(s[0]) then 0 else 1 + WordLength(s[1..])
  }

  /** The characters before the first whitespace. */
  lemma {:induction false} WordLengthShape(s: string)
    ensures WordLength(s) < |s| ==> IsSpace(s[WordLength(s)])
    ensures forall k :: 0 <= k < WordLength(s) ==> !IsSpace(s[k])
  {
    if s != [] && !IsSpace(s[0]) {
      WordLengthShape(s[1..]);
      assert forall k :: 1 <= k < WordLength(s) ==> s[k] == s[1..][k - 1];
    }
  }

  /** The whitespace SkipSpace drops, and what it keeps. */
  lemma {:induction false} SkipSpaceShape(s: string)
    ensures SkipSpace(s) == s[|s| - |SkipSpace(s)|..]
    ensures forall k :: 0 <= k < |s| - |SkipSpace(s)| ==> IsSpace(s[k])
  {
    if s != [] && IsSpace(s[0]) {
      SkipSpaceShape(s[1..]);
      assert forall k :: 1 <= k < |s| - |SkipSpace(s)| ==> s[k] == s[1..][k - 1];
    }
  }

  predicate IsWord(w: string)
  {
    w != [] && forall k :: 0 <= k < |w| ==> !IsSpace(w[k])
  }

  /** The whitespace-separated tokens of a line, in order. */
  function Tokens(s: string): (r: seq<string>)
    decreases |s|
  {
    var t := SkipSpace(s);
    if t == [] then [] else var n := WordLength(t); [t[..n]] + Tokens(t[n..])
  }

  /** Every token is a non-empty run of non-blank characters. */
  lemma {:induction false} TokensAreWords(s: string)
    ensures forall i :: 0 <= i < |Tokens(s)| ==> IsWord(Tokens(s)[i])
    decreases |s|
  {
    var t := SkipSpace(s);
    if t != [] {
      var n := WordLength(t);
      var w := t[..n];
      WordLengthShape(t);
      assert forall k :: 0 <= k < |w| ==> w[k] == t[k];
      assert IsWord(w);
      TokensAreWords(t[n..]);
    }
  }

  // ---------------------------------------------------------------------------
  // Columns

  /** What double_ makes of a whole token, if it accepts it. */
  type Lexer = string -> Option<real>

  function DigitsValue(s: string): nat
  {
    if s == [] then 0 else 10 * DigitsValue(s[..|s| - 1]) + DigitValue(s[|s| - 1])
  }

  function DigitValue(c: char): nat
  {
    if IsDigit(c) then (c as int) - ('0' as int) else 0
  }

  /** ulong_ on a token: digits only, and no overflow. */
  function ParseULong(tok: string): (r: Option<ULong>)
    ensures r.Some? <==> tok != [] && (forall k :: 0 <= k < |tok| ==> IsDigit(tok[k])) && DigitsValue(tok) < ULongModulus
    ensures r.Some? ==> r.value == DigitsValue(tok)
  {
    if tok != [] && (forall k :: 0 <= k < |tok| ==> IsDigit(tok[k])) && DigitsValue(tok) < ULongModulus
    then Some(DigitsValue(tok)) else None
  }

  /** The decimal text of a count, as a writer puts it. */
  function ULongText(n: nat): (r: string)
    ensures r != [] && forall k :: 0 <= k < |r| ==> IsDigit(r[k])
  {
    var d := [('0' as int + n % 10) as char];
    if n < 10 then d else ULongText(n / 10) + d
  }

  /** The first k tokens as numbers, if the lexer takes each of them. */
  function Numbers(toks: seq<string>, k: nat, lex: Lexer): (r: Option<seq<real>>)
    ensures r.Some? <==> k <= |toks| && forall i :: 0 <= i < k ==> lex(toks[i]).Some?
    ensures r.Some? ==> |r.value| == k && forall i :: 0 <= i < k ==> r.value[i] == lex(toks[i]).value
    decreases k
  {
    if k > |toks| then None
    else if k == 0 then Some([])
    else
      var init := Numbers(toks, k - 1, lex);
      var last := lex(toks[k - 1]);
      if init.None? || last.None? then None else Some(init.value + [last.value])
  }

  /** A row that starts with the literal tokens lead, then k numbers, then a
      count: the numbers and the count. */
  function LeadNumbersCount(toks: seq<string>, lead: seq<string>, k: nat, lex: Lexer): (r: Option<(seq<real>, ULong)>)
    ensures r.Some? <==> (|lead| + k < |toks| && toks[..|lead|] == lead
      && Numbers(toks[|lead|..], k, lex).Some? && ParseULong(toks[|lead| + k]).Some?)
    ensures r.Some? ==> r.value == (Numbers(toks[|lead|..], k, lex).value, ParseULong(toks[|lead| + k]).value)
  {
    if |lead| + k < |toks| && toks[..|lead|] == lead then
      var nums := Numbers(toks[|lead|..], k, lex);
      var count := ParseULong(toks[|lead| + k]);
      if nums.Some? && count.Some? then Some((nums.value, count.value)) else None
    else None
  }

  /** A row too short for the rule matches none of it. */
  lemma LeadTooLong(toks: seq<string>, lead: seq<string>, k: nat, lex: Lexer)
    requires |lead| + k >= |toks|
    ensures LeadNumbersCount(toks, lead, k, lex).None?
  {
  }

  /** A row whose first word is not a number matches no rule without lead words. */
  lemma LeadNotNumber(toks: seq<string>, k: nat, lex: Lexer)
    requires toks != [] && k >= 1 && lex(toks[0]).None?
    ensures LeadNumbersCount(toks, [], k, lex).None?
  {
    assert toks[0..] == toks;
  }

  /** A row whose first word is not the rule's first lead word. */
  lemma LeadOtherWord(toks: seq<string>, lead: seq<string>, k: nat, lex: Lexer)
    requires lead != [] && toks != [] && toks[0] != lead[0]
    ensures LeadNumbersCount(toks, lead, k, lex).None?
  {
    if |lead| <= |toks| {
      assert toks[..|lead|][0] == toks[0];
    }
  }

  /** A row of the lead words, k numbers and a count matches the rule: the
      numbers are its columns after the lead. */
  lemma LeadTaken(toks: seq<string>, lead: seq<string>, k: nat, lex: Lexer)
    requires |lead| + k < |toks| && toks[..|lead|] == lead
    requires (forall i :: |lead| <= i < |lead| + k ==> lex(toks[i]).Some?) && ParseULong(toks[|lead| + k]).Some?
    ensures var r := LeadNumbersCount(toks, lead, k, lex);
      r.Some? && |r.value.0| == k && r.value.1 == ParseULong(toks[|lead| + k]).value
      && forall i :: 0 <= i < k ==> r.value.0[i] == Col(toks, |lead| + i, lex)
  {
    var rest := toks[|lead|..];
    assert forall i :: 0 <= i < k ==> rest[i] == toks[|lead| + i];
  }

  /** The words double_ can accept as a whole: they start like a number
      (a digit, a sign, a point, or the i and n of inf and nan) and hold no
      '='. The row lemmas of the readers need no more of the lexer than this. */
  const NumberStart := "0123456789+-.iInN"

  ghost predicate NumberLexer(lex: Lexer)
  {
    forall w :: lex(w).Some? ==> w != [] && w[0] in NumberStart && '=' !in w
  }

  /** The number in column i of a row. */
  function Col(toks: seq<string>, i: nat, lex: Lexer): real
    requires i < |toks| && lex(toks[i]).Some?
  {
    lex(toks[i]).value
  }

  // ---------------------------------------------------------------------------
  // Annotation and comment lines

  /** keyvaluepair: the key and value of an annotation line. */
  function KeyValue(line: string): (r: Option<(string, string)>)
    ensures r.Some? ==> var t := SkipSpace(line);
      (t == [] || (!IsDigit(t[0]) && t[0] != '-'))
      && |r.value.0| < |t| && t[..|r.value.0|] == r.value.0 && t[|r.value.0|] == '='
      && (forall k :: 0 <= k < |r.value.0| ==> r.value.0[k] != '=')
      && r.value.1 == SkipSpace(t[|r.value.0| + 1..])
    ensures r.None? ==> var t := SkipSpace(line);
      (t != [] && (IsDigit(t[0]) || t[0] == '-')) || forall k :: 0 <= k < |t| ==> t[k] != '='
  {
    var t := SkipSpace(line);
    if t != [] && (IsDigit(t[0]) || t[0] == '-') then None
    else
      var i := StringUtils.Find(t, '=', 0);
      if i == -1 then None else Some((t[..i], SkipSpace(t[i + 1..])))
  }

  /** comment: the first character after leading whitespace is '#'. */
  predicate IsComment(line: string)
  {
    var t := SkipSpace(line);
    t != [] && t[0] == '#'
  }

  // ---------------------------------------------------------------------------
  // Properties

  /** Words with single separators between them tokenise back to
      themselves. */
  function Spaced(ws: seq<string>, sep: char): string
  {
    if ws == [] then [] else if |ws| == 1 then ws[0] else ws[0] + [sep] + Spaced(ws[1..], sep)
  }

  lemma {:induction false} SkipSpaceWord(w: string, rest: string)
    requires IsWord(w)
    ensures SkipSpace(w + rest) == w + rest
  {
    assert (w + rest)[0] == w[0];
  }

  lemma {:induction false} WordLengthWord(w: string, rest: string)
    requires forall k :: 0 <= k < |w| ==> !IsSpace(w[k])
    requires rest == [] || IsSpace(rest[0])
    ensures WordLength(w + rest) == |w|
  {
    if w == [] {
      assert w + rest == rest;
    } else {
      assert (w + rest)[1..] == w[1..] + rest;
      WordLengthWord(w[1..], rest);
    }
  }

  lemma {:induction false} TokensSpaced(ws: seq<string>, sep: char)
    requires IsSpace(sep) && forall i :: 0 <= i < |ws| ==> IsWord(ws[i])
    ensures Tokens(Spaced(ws, sep)) == ws
  {
    if |ws| == 1 {
      TokensOfWord(ws[0], []);
      assert ws[0] + [] == ws[0] && Spaced(ws, sep) == ws[0];
      assert Tokens([]) == [] && ws == [ws[0]];
    } else if |ws| > 1 {
      var tail := Spaced(ws[1..], sep);
      var rest := [sep] + tail;
      assert Spaced(ws, sep) == ws[0] + rest;
      TokensOfWord(ws[0], rest);
      TokensAfterSpace(rest);
      assert rest[1..] == tail;
      TokensSpaced(ws[1..], sep);
      assert ws == [ws[0]] + ws[1..];
    }
  }

  /** A word at the front of a line, followed by nothing or by whitespace,
      is its first token. */
  lemma TokensOfWord(w: string, rest: string)
    requires IsWord(w) && (rest == [] || IsSpace(rest[0]))
    ensures Tokens(w + rest) == [w] + Tokens(rest)
  {
    var s := w + rest;
    SkipSpaceWord(w, rest);
    WordLengthWord(w, rest);
    assert s[..|w|] == w && s[|w|..] == rest;
  }

  /** Leading whitespace does not change the tokens. */
  lemma TokensAfterSpace(s: string)
    requires s != [] && IsSpace(s[0])
    ensures Tokens(s) == Tokens(s[1..])
  {
  }

  /** A count written in decimal is read back as itself. */
  lemma {:induction false} ParseULongText(n: ULong)
    ensures ParseULong(ULongText(n)) == Some(n)
  {
    DigitsValueText(n);
  }

  lemma {:induction false} DigitsValueText(n: nat)
    ensures DigitsValue(ULongText(n)) == n
  {
    var d := [('0' as int + n % 10) as char];
    if n >= 10 {
      DigitsValueText(n / 10);
      var s := ULongText(n / 10) + d;
      assert s[..|s| - 1] == ULongText(n / 10);
    }
  }

  /** An annotation line as a writer produces it, key "=" value, reads back
      as that key and value, whenever the key starts with neither whitespace,
      a digit nor '-', holds no '=', and the value starts with no
      whitespace. */
  lemma KeyValueOfLine(key: string, value: string)
    requires key != [] && !IsSpace(key[0]) && !IsDigit(key[0]) && key[0] != '-'
    requires forall k :: 0 <= k < |key| ==> key[k] != '='
    requires value == [] || !IsSpace(value[0])
    ensures KeyValue(key + "=" + value) == Some((key, value))
  {
    var line := key + "=" + value;
    assert line[0] == key[0];
    var i := StringUtils.Find(line, '=', 0);
    assert line[|key|] == '=';
    assert i == |key|;
    assert line[..i] == key && line[i + 1..] == value;
  }

  /** The first word of an annotation line holds its '='. */
  lemma AnnotationFirstWord(key: string, value: string)
    requires forall k :: 0 <= k < |key| ==> key[k] != '=' && !IsSpace(key[k])
    requires value == [] || !IsSpace(value[0])
    ensures var t := Tokens(key + "=" + value); t != [] && '=' in t[0]
  {
    var line := key + "=" + value;
    var n := WordLength(value);
    WordLengthShape(value);
    var w := key + "=" + value[..n];
    assert line == w + value[n..];
    assert IsWord(w) by {
      forall k | 0 <= k < |w| ensures !IsSpace(w[k]) {
        if k > |key| { assert w[k] == value[k - |key| - 1]; }
      }
    }
    TokensOfWord(w, value[n..]);
    assert w[|key|] == '=';
  }

  /** A comment line: its first word starts with '#', and it is no
      annotation. */
  lemma CommentFirstWord(pad: string, rest: string)
    requires forall k :: 0 <= k < |pad| ==> IsSpace(pad[k])
    requires forall k :: 0 <= k < |rest| ==> rest[k] != '='
    ensures var t := Tokens(pad + "#" + rest); t != [] && t[0] != [] && t[0][0] == '#'
    ensures KeyValue(pad + "#" + rest).None? && IsComment(pad + "#" + rest)
  {
    var line := pad + "#" + rest;
    var t := "#" + rest;
    assert line == pad + t;
    SkipSpaceOver(pad, t);
    var w := Tokens(line)[0];
    assert w == t[..WordLength(t)] && w[0] == '#';
    assert forall k :: 0 <= k < |t| ==> t[k] != '=' by {
      assert forall k :: 1 <= k < |t| ==> t[k] == rest[k - 1];
    }
    CommentOfHash(pad, rest);
  }

  lemma CommentOfHash(pad: string, rest: string)
    requires forall k :: 0 <= k < |pad| ==> IsSpace(pad[k])
    ensures IsComment(pad + "#" + rest)
  {
    SkipSpaceOver(pad, "#" + rest);
    assert pad + "#" + rest == pad + ("#" + rest);
  }

  lemma {:induction false} SkipSpaceOver(pad: string, rest: string)
    requires forall k :: 0 <= k < |pad| ==> IsSpace(pad[k])
    requires rest == [] || !IsSpace(rest[0])
    ensures SkipSpace(pad + rest) == rest
  {
    if pad == [] {
      assert pad + rest == rest;
    } else {
      assert (pad + rest)[1..] == pad[1..] + rest;
      SkipSpaceOver(pad[1..], rest);
    }
  }
}
