/** The context machine the two text readers share (src/ReaderYODA.cc and
    src/ReaderFLAT.cc): a "# BEGIN <name>" line opens a block, the matching
    "# END <name>" line closes it.

    The two dynamic symbol tables of the source become a flag and a set: the
    BEGIN table holds every group or none (`beginsOn`), and the END table
    holds the ids of the blocks that were opened and not yet closed (`ends`).
    Group ids run from 1 to the number of names; a table entry matches when
    its name is a prefix of the rest of the line, and what follows the name
    is ignored. */
module Groups {
  import opened Wrappers

  predicate IsPrefix(p: string, s: string) {
    |p| <= |s| && s[..|p|] == p
  }

  /** No group name is a prefix of another, so the longest-match symbol
      table and a first-match scan find the same entry. */
  predicate PrefixFree(names: seq<string>) {
    forall g, h :: 0 <= g < |names| && 0 <= h < |names| && g != h ==> !IsPrefix(names[g], names[h])
  }

  /** The ids a table lets through: all of them, or those in `ends`. */
  predicate Allowed(g: int, any: bool, ends: set<int>) { any || g in ends }

  /** The first id from `from + 1` on that the table lets through and whose
      name starts `rest`. */
  function FirstNamed(rest: string, names: seq<string>, from: nat, any: bool, ends: set<int>): (r: Option<int>)
    ensures r.Some? ==> from < r.value <= |names| && Allowed(r.value, any, ends) && IsPrefix(names[r.value - 1], rest)
    ensures r.None? ==> forall g :: from < g <= |names| && Allowed(g, any, ends) ==> !IsPrefix(names[g - 1], rest)
    decreases |names| - from
  {
    if from >= |names| then None
    else if Allowed(from + 1, any, ends) && IsPrefix(names[from], rest) then Some(from + 1)
    else FirstNamed(rest, names, from + 1, any, ends)
  }

  const BeginTag := "# BEGIN "
  const EndTag := "# END "

  /** `begin | end` of the group grammar: the id of a BEGIN line while the
      BEGIN table is on, else minus the id of the END line of an open block. */
  function MatchGroup(line: string, names: seq<string>, beginsOn: bool, ends: set<int>): (r: Option<int>)
    ensures r.Some? && r.value > 0 ==>
      beginsOn && r.value <= |names| && IsPrefix(BeginTag + names[r.value - 1], line)
    ensures r.Some? && r.value <= 0 ==>
      0 < -r.value <= |names| && -r.value in ends && IsPrefix(EndTag + names[-r.value - 1], line)
    ensures r.Some? ==> r.value != 0
  {
    var b := if beginsOn && IsPrefix(BeginTag, line) then FirstNamed(line[|BeginTag|..], names, 0, true, {}) else None;
    if b.Some? then
      PrefixJoin(BeginTag, names[b.value - 1], line);
      b
    else if IsPrefix(EndTag, line) then
      var e := FirstNamed(line[|EndTag|..], names, 0, false, ends);
      if e.Some? then
        PrefixJoin(EndTag, names[e.value - 1], line);
        Some(-e.value)
      else None
    else None
  }

  lemma PrefixJoin(tag: string, name: string, line: string)
    requires IsPrefix(tag, line) && IsPrefix(name, line[|tag|..])
    ensures IsPrefix(tag + name, line)
  {
    assert line[..|tag| + |name|] == line[..|tag|] + line[|tag|..][..|name|];
  }

  /** The state the read loop keeps besides the data: the current context (a
      group id inside a block, minus it after the block, 0 before any), the
      "just left a block" flag, and the two tables. */
  datatype Context = Context(context: int, contextChange: bool, beginsOn: bool, ends: set<int>)

  /** What a recognised group line does to the context: entering a block
      turns the BEGIN table off and puts the group in the END table; leaving
      one takes it out again, turns the BEGIN table back on and raises the
      flag. */
  function Regroup(c: Context, m: Option<int>): (r: Context)
    ensures m.None? ==> r == c
    ensures m.Some? && m.value > 0 ==> r == Context(m.value, c.contextChange, false, c.ends + {m.value})
    ensures m.Some? && m.value < 0 ==> r == Context(m.value, true, true, c.ends - {-m.value})
  {
    if m.None? then c
    else if m.value > 0 then Context(m.value, c.contextChange, false, c.ends + {m.value})
    else if m.value < 0 then Context(m.value, true, true, c.ends - {-m.value})
    else c.(context := 0)
  }

  // ---------------------------------------------------------------------------
  // Properties

  /** Under prefix-freeness a full name selects its own id and nothing
      else. */
  lemma {:induction false} FirstNamedOfName(names: seq<string>, g: int, rest: string, from: nat, any: bool, ends: set<int>)
    requires PrefixFree(names) && 1 <= g <= |names| && from < g
    ensures FirstNamed(names[g - 1] + rest, names, from, any, ends) == if Allowed(g, any, ends) then Some(g) else None
    decreases |names| - from
  {
    var s := names[g - 1] + rest;
    assert IsPrefix(names[g - 1], s) by { assert s[..|names[g - 1]|] == names[g - 1]; }
    if from + 1 != g {
      OtherNameNotPrefix(names, g - 1, from, s);
    }
    if from + 1 < g {
      FirstNamedOfName(names, g, rest, from + 1, any, ends);
    } else if !Allowed(g, any, ends) {
      FirstNamedPast(s, names, from + 1, any, ends, g);
    }
  }

  /** A line that starts with one name does not start with another. */
  lemma OtherNameNotPrefix(names: seq<string>, g: nat, h: nat, s: string)
    requires PrefixFree(names) && g < |names| && h < |names| && g != h && IsPrefix(names[g], s)
    ensures !IsPrefix(names[h], s)
  {
  }

  lemma {:induction false} FirstNamedPast(s: string, names: seq<string>, from: nat, any: bool, ends: set<int>, g: int)
    requires PrefixFree(names) && 1 <= g <= from && g <= |names| && IsPrefix(names[g - 1], s)
    ensures FirstNamed(s, names, from, any, ends) == None
    decreases |names| - from
  {
    if from < |names| {
      OtherNameNotPrefix(names, g - 1, from, s);
      FirstNamedPast(s, names, from + 1, any, ends, g);
    }
  }

  function BeginLine(names: seq<string>, g: int, rest: string): string
    requires 1 <= g <= |names|
  {
    BeginTag + names[g - 1] + rest
  }

  function EndLine(names: seq<string>, g: int, rest: string): string
    requires 1 <= g <= |names|
  {
    EndTag + names[g - 1] + rest
  }

  /** A BEGIN line opens its group while the BEGIN table is on, and is not a
      group line while a block is open. */
  lemma BeginMatches(names: seq<string>, g: int, rest: string, beginsOn: bool, ends: set<int>)
    requires PrefixFree(names) && 1 <= g <= |names|
    ensures MatchGroup(BeginLine(names, g, rest), names, beginsOn, ends) == if beginsOn then Some(g) else None
  {
    var line := BeginLine(names, g, rest);
    assert IsPrefix(BeginTag, line) by { assert line[..|BeginTag|] == BeginTag; }
    assert line[|BeginTag|..] == names[g - 1] + rest;
    FirstNamedOfName(names, g, rest, 0, true, {});
    assert !IsPrefix(EndTag, line) by { assert line[2] == 'B'; }
  }

  /** An END line closes its group exactly when the group is open. */
  lemma EndMatches(names: seq<string>, g: int, rest: string, beginsOn: bool, ends: set<int>)
    requires PrefixFree(names) && 1 <= g <= |names|
    ensures MatchGroup(EndLine(names, g, rest), names, beginsOn, ends) == if g in ends then Some(-g) else None
  {
    var line := EndLine(names, g, rest);
    assert !IsPrefix(BeginTag, line) by { assert line[2] == 'E'; }
    assert IsPrefix(EndTag, line) by { assert line[..|EndTag|] == EndTag; }
    assert line[|EndTag|..] == names[g - 1] + rest;
    FirstNamedOfName(names, g, rest, 0, false, ends);
  }

  /** A line that starts with neither tag. */
  predicate Untagged(line: string) {
    !IsPrefix(BeginTag, line) && !IsPrefix(EndTag, line)
  }

  /** An empty line, or one that does not start with '#', carries no tag;
      nor does a "# " line whose third character starts neither tag word. */
  lemma UntaggedByHead(line: string)
    requires line == [] || line[0] != '#' || (|line| > 2 && line[1] == ' ' && line[2] != 'B' && line[2] != 'E')
    ensures Untagged(line)
  {
    if |line| >= |BeginTag| {
      assert line[..|BeginTag|][0] == line[0] && line[..|BeginTag|][2] == line[2];
    }
    if |line| >= |EndTag| {
      assert line[..|EndTag|][0] == line[0] && line[..|EndTag|][2] == line[2];
    }
  }
}
