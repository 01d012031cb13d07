/** Error kinds and failure-compatible result types shared by every module.

    Each constructor of `Error` stands for one exception class that the
    library throws (or, for the Python helpers, one Python exception). Error
    messages are plain text and are not modelled.
 */
module Wrappers {

  datatype Error =
    | RangeError        // YODA::RangeError
    | LockError         // YODA::LockError
    | LogicError        // YODA::LogicError
    | UserError         // YODA::UserError
    | BinningError      // YODA::BinningError
    | AnnotationError   // YODA::AnnotationError
    | ReadError         // YODA::ReadError
    | WriteError        // YODA::WriteError
    | LowStatsError     // YODA::LowStatsError
    | Exception         // YODA::Exception (the base class, thrown directly)
    | BadCast           // std::bad_cast from a failed dynamic_cast
    | ValueError        // Python ValueError
    | AttributeError    // Python AttributeError
    | TypeError         // Python TypeError
    | IndexError        // Python IndexError
    | RegexError        // Python re.error, from compiling a bad pattern

  datatype Option<+T> = None | Some(value: T) {
    predicate IsFailure() { None? }
    function PropagateFailure<U>(): Option<U> requires None? { None }
    function Extract(): T requires Some? { value }
    function GetOr(default: T): T { if Some? then value else default }
  }

  datatype Result<+T> = Ok(value: T) | Err(error: Error) {
    predicate IsFailure() { Err? }
    function PropagateFailure<U>(): Result<U> requires Err? { Err(error) }
    function Extract(): T requires Ok? { value }
  }

  /** The outcome of an operation that returns nothing but may throw. */
  datatype Outcome = Pass | Fail(error: Error) {
    predicate IsFailure() { Fail? }
    function PropagateFailure(): Outcome requires Fail? { this }
  }

  /** An IEEE-style double at the level the model needs: a real value or NaN. */
  datatype Double = NaN | Num(v: real)

  /** f applied to each element in order, or the error of the first element
      on which f fails: a loop whose body may throw. */
  function MapResults<A, B>(s: seq<A>, f: A -> Result<B>): (r: Result<seq<B>>)
    ensures r.Ok? <==> forall i :: 0 <= i < |s| ==> f(s[i]).Ok?
    ensures r.Ok? ==> |r.value| == |s| && forall i :: 0 <= i < |s| ==> r.value[i] == f(s[i]).value
    ensures r.Err? ==> exists i :: 0 <= i < |s| && f(s[i]).Err? && r.error == f(s[i]).error
                                   && forall j :: 0 <= j < i ==> f(s[j]).Ok?
    decreases |s|
  {
    if s == [] then Ok([])
    else
      var prefix := s[..|s| - 1];
      assert forall j :: 0 <= j < |prefix| ==> prefix[j] == s[j];
      var done := MapResults(prefix, f);
      if done.Err? then Err(done.error)
      else if f(s[|s| - 1]).Err? then Err(f(s[|s| - 1]).error)
      else Ok(done.value + [f(s[|s| - 1]).value])
  }

  /** When a prefix already fails, the whole sequence fails with its error. */
  lemma {:induction false} MapResultsPrefixFails<A, B>(s: seq<A>, k: nat, f: A -> Result<B>)
    requires k <= |s| && MapResults(s[..k], f).Err?
    ensures MapResults(s, f) == MapResults(s[..k], f)
    decreases |s| - k
  {
    if k < |s| {
      assert s[..k + 1][..k] == s[..k];
      MapResultsPrefixFails(s, k + 1, f);
    } else {
      assert s[..k] == s;
    }
  }

  /** The prefix one longer is the prefix and the next element. */
  lemma TakeSnoc<T>(s: seq<T>, i: nat)
    requires i < |s|
    ensures s[..i + 1] == s[..i] + [s[i]]
  {
  }

  /** f applied to each element, in order. */
  function Map<A, B>(s: seq<A>, f: A -> B): (r: seq<B>)
    ensures |r| == |s| && forall i :: 0 <= i < |s| ==> r[i] == f(s[i])
  {
    seq(|s|, i requires 0 <= i < |s| => f(s[i]))
  }

  lemma MapAppend<A, B>(a: seq<A>, b: seq<A>, f: A -> B)
    ensures Map(a + b, f) == Map(a, f) + Map(b, f)
  {
    forall i | 0 <= i < |a + b|
      ensures Map(a + b, f)[i] == (Map(a, f) + Map(b, f))[i]
    {
      if i < |a| {
        assert (a + b)[i] == a[i];
      } else {
        assert (a + b)[i] == b[i - |a|];
      }
    }
  }

  /** The values that the elements of one kind carry, in order. */
  function Collect<R, T>(s: seq<R>, f: R -> Option<T>): seq<T>
  {
    if s == [] then [] else (if f(s[0]).Some? then [f(s[0]).value] else []) + Collect(s[1..], f)
  }

  /** The value the last element of one kind carries, or d when there is
      none. */
  function LastOf<R, T>(s: seq<R>, f: R -> Option<T>, d: T): T
  {
    if s == [] then d else LastOf(s[1..], f, if f(s[0]).Some? then f(s[0]).value else d)
  }

  lemma {:induction false} CollectSnoc<R, T>(s: seq<R>, x: R, f: R -> Option<T>)
    ensures Collect(s + [x], f) == Collect(s, f) + (if f(x).Some? then [f(x).value] else [])
  {
    if s == [] {
      assert [x][1..] == [];
      assert [] + [x] == [x];
    } else {
      var head := if f(s[0]).Some? then [f(s[0]).value] else [];
      var last := if f(x).Some? then [f(x).value] else [];
      assert (s + [x])[0] == s[0] && (s + [x])[1..] == s[1..] + [x];
      CollectSnoc(s[1..], x, f);
      calc {
        Collect(s + [x], f);
        head + Collect(s[1..] + [x], f);
        head + (Collect(s[1..], f) + last);
        { assert head + (Collect(s[1..], f) + last) == (head + Collect(s[1..], f)) + last; }
        Collect(s, f) + last;
      }
    }
  }

  /** A vector that held base and the values collected from s, with x's
      value pushed back, holds base and the values collected from s + [x]. */
  lemma PushedSnoc<R, T>(base: seq<T>, s: seq<R>, x: R, f: R -> Option<T>, after: seq<T>)
    requires after == base + Collect(s, f) + (if f(x).Some? then [f(x).value] else [])
    ensures after == base + Collect(s + [x], f)
  {
    CollectSnoc(s, x, f);
    assert base + Collect(s, f) + (if f(x).Some? then [f(x).value] else [])
      == base + (Collect(s, f) + (if f(x).Some? then [f(x).value] else []));
  }

  lemma {:induction false} LastOfSnoc<R, T>(s: seq<R>, x: R, f: R -> Option<T>, d: T)
    ensures LastOf(s + [x], f, d) == if f(x).Some? then f(x).value else LastOf(s, f, d)
  {
    if s == [] {
      assert [x][1..] == [];
      assert [] + [x] == [x];
    } else {
      assert (s + [x])[1..] == s[1..] + [x];
      LastOfSnoc(s[1..], x, f, if f(s[0]).Some? then f(s[0]).value else d);
    }
  }

  lemma {:induction false} CollectAppend<R, T>(a: seq<R>, b: seq<R>, f: R -> Option<T>)
    ensures Collect(a + b, f) == Collect(a, f) + Collect(b, f)
  {
    if a != [] {
      assert (a + b)[1..] == a[1..] + b;
      CollectAppend(a[1..], b, f);
    } else {
      assert a + b == b;
    }
  }

  /** Nothing is collected from elements of other kinds. */
  lemma {:induction false} CollectNone<R, T>(s: seq<R>, f: R -> Option<T>)
    requires forall i :: 0 <= i < |s| ==> f(s[i]).None?
    ensures Collect(s, f) == []
  {
    if s != [] {
      CollectNone(s[1..], f);
    }
  }

  /** Elements all of the kind are collected one for one. */
  lemma {:induction false} CollectAll<R, T>(s: seq<R>, f: R -> Option<T>)
    requires forall i :: 0 <= i < |s| ==> f(s[i]).Some?
    ensures |Collect(s, f)| == |s| && forall i :: 0 <= i < |s| ==> Collect(s, f)[i] == f(s[i]).value
  {
    if s != [] {
      CollectAll(s[1..], f);
      assert Collect(s, f) == [f(s[0]).value] + Collect(s[1..], f);
    }
  }
}
