/** Utils::sortedvector: a vector kept in `<` order by re-sorting after every
    insertion.

    The element order is a parameter `less`. The point orders are fuzzy and
    not transitive, so std::sort's contract is stated here as what every
    ordering the library uses does satisfy: `less` is asymmetric, and
    "sorted" means that no neighbour is less than its predecessor (what
    std::is_sorted checks). Ties may end up in any order under std::sort;
    the model keeps an inserted element after the elements it is not less
    than.
 */
module SortedVector {

  ghost predicate Asymmetric<T(!new)>(less: (T, T) -> bool) {
    forall a, b :: less(a, b) ==> !less(b, a)
  }

  predicate Sorted<T>(s: seq<T>, less: (T, T) -> bool) {
    forall i :: 0 <= i < |s| - 1 ==> !less(s[i + 1], s[i])
  }

  /** v goes in front of the first element it is less than. */
  function InsertSorted<T>(v: T, t: seq<T>, less: (T, T) -> bool): (r: seq<T>)
    ensures |r| == |t| + 1
  {
    if t == [] || less(v, t[0]) then [v] + t else [t[0]] + InsertSorted(v, t[1..], less)
  }

  /** The sort of a whole vector, element by element from the back. */
  function SortAll<T>(s: seq<T>, less: (T, T) -> bool): (r: seq<T>)
    ensures |r| == |s|
  {
    if s == [] then [] else InsertSorted(s[0], SortAll(s[1..], less), less)
  }

  lemma SortedTail<T>(t: seq<T>, less: (T, T) -> bool)
    requires Sorted(t, less) && t != []
    ensures Sorted(t[1..], less)
  {
    forall i | 0 <= i < |t[1..]| - 1 ensures !less(t[1..][i + 1], t[1..][i]) {
      assert t[1..][i] == t[i + 1] && t[1..][i + 1] == t[i + 2];
    }
  }

  /** Insertion keeps a sorted vector sorted and adds exactly one copy of v. */
  lemma {:induction false} InsertSortedProperties<T(!new)>(v: T, t: seq<T>, less: (T, T) -> bool)
    requires Asymmetric(less) && Sorted(t, less)
    ensures Sorted(InsertSorted(v, t, less), less)
    ensures multiset(InsertSorted(v, t, less)) == multiset(t) + multiset{v}
    ensures |InsertSorted(v, t, less)| == |t| + 1
    ensures InsertSorted(v, t, less)[0] == v || (t != [] && InsertSorted(v, t, less)[0] == t[0])
  {
    if t == [] || less(v, t[0]) {
      assert InsertSorted(v, t, less) == [v] + t;
      if t != [] {
        assert !less(t[0], v);
        assert ([v] + t)[1] == t[0];
        forall i | 0 <= i < |[v] + t| - 1 ensures !less(([v] + t)[i + 1], ([v] + t)[i]) {
          if i > 0 { assert ([v] + t)[i + 1] == t[i] && ([v] + t)[i] == t[i - 1]; }
        }
      }
    } else {
      SortedTail(t, less);
      var rest := InsertSorted(v, t[1..], less);
      InsertSortedProperties(v, t[1..], less);
      assert InsertSorted(v, t, less) == [t[0]] + rest;
      assert t == [t[0]] + t[1..];
      forall i | 0 <= i < |[t[0]] + rest| - 1
        ensures !less(([t[0]] + rest)[i + 1], ([t[0]] + rest)[i])
      {
        if i > 0 {
          assert ([t[0]] + rest)[i + 1] == rest[i] && ([t[0]] + rest)[i] == rest[i - 1];
        } else {
          assert ([t[0]] + rest)[1] == rest[0];
          if rest[0] != v { assert t[1..][0] == t[1]; }
        }
      }
    }
  }

  /** Sorting yields a sorted permutation. */
  lemma {:induction false} SortAllProperties<T(!new)>(s: seq<T>, less: (T, T) -> bool)
    requires Asymmetric(less)
    ensures Sorted(SortAll(s, less), less)
    ensures multiset(SortAll(s, less)) == multiset(s)
    ensures |SortAll(s, less)| == |s|
  {
    if s != [] {
      SortAllProperties(s[1..], less);
      InsertSortedProperties(s[0], SortAll(s[1..], less), less);
      assert s == [s[0]] + s[1..];
    }
  }

  /** insert(v): push_back, then sort the whole vector. */
  function SortedInsert<T>(items: seq<T>, v: T, less: (T, T) -> bool): seq<T> {
    SortAll(items + [v], less)
  }

  /** After an insertion the vector is sorted, one longer, and holds the old
      elements plus v, whatever order it was in before. */
  lemma SortedInsertProperties<T(!new)>(items: seq<T>, v: T, less: (T, T) -> bool)
    requires Asymmetric(less)
    ensures Sorted(SortedInsert(items, v, less), less)
    ensures multiset(SortedInsert(items, v, less)) == multiset(items) + multiset{v}
    ensures |SortedInsert(items, v, less)| == |items| + 1
  {
    SortAllProperties(items + [v], less);
  }

  /** sortedvector<T>, for any element order the library uses. */
  class SortedVector<T(==,!new)> {
    var items: seq<T>
    const less: (T, T) -> bool

    ghost predicate Valid()
      reads this
    {
      Asymmetric(less) && Sorted(items, less)
    }

    /** The default constructor: empty. */
    constructor Empty(less: (T, T) -> bool)
      requires Asymmetric(less)
      ensures Valid() && items == [] && this.less == less
    {
      this.less := less;
      items := [];
    }

    /** Conversion from a vector: the vector, sorted. */
    constructor (vec: seq<T>, less: (T, T) -> bool)
      requires Asymmetric(less)
      ensures Valid() && this.less == less
      ensures multiset(items) == multiset(vec) && |items| == |vec|
      ensures items == SortAll(vec, less)
    {
      this.less := less;
      items := SortAll(vec, less);
      SortAllProperties(vec, less);
    }

    /** insert: push_back, then sort. */
    method Insert(v: T)
      requires Valid()
      modifies this
      ensures Valid()
      ensures |items| == |old(items)| + 1
      ensures multiset(items) == multiset(old(items)) + multiset{v}
      ensures items == SortedInsert(old(items), v, less)
    {
      SortedInsertProperties(items, v, less);
      items := SortedInsert(items, v, less);
    }

    function Size(): nat
      reads this
    {
      |items|
    }

    function At(i: nat): T
      reads this
      requires i < |items|
    {
      items[i]
    }
  }

  function IntLess(a: int, b: int): bool { a < b }

  /** Inserting each of vs in turn, front to back. */
  function InsertEach<T>(items: seq<T>, vs: seq<T>, less: (T, T) -> bool): (r: seq<T>)
    ensures |r| == |items| + |vs|
    decreases |vs|
  {
    if vs == [] then items else InsertEach(SortedInsert(items, vs[0], less), vs[1..], less)
  }

  lemma {:induction false} InsertEachProperties<T(!new)>(items: seq<T>, vs: seq<T>, less: (T, T) -> bool)
    requires Asymmetric(less) && (vs == [] ==> Sorted(items, less))
    ensures Sorted(InsertEach(items, vs, less), less)
    ensures multiset(InsertEach(items, vs, less)) == multiset(items) + multiset(vs)
    ensures |InsertEach(items, vs, less)| == |items| + |vs|
    decreases |vs|
  {
    if vs != [] {
      SortedInsertProperties(items, vs[0], less);
      InsertEachProperties(SortedInsert(items, vs[0], less), vs[1..], less);
      assert vs == [vs[0]] + vs[1..];
    }
  }

  /** Inserting a concatenation is inserting its two parts in turn. */
  lemma {:induction false} InsertEachAppend<T>(items: seq<T>, a: seq<T>, b: seq<T>, less: (T, T) -> bool)
    ensures InsertEach(items, a + b, less) == InsertEach(InsertEach(items, a, less), b, less)
    decreases |a|
  {
    if a != [] {
      assert (a + b)[0] == a[0] && (a + b)[1..] == a[1..] + b;
      assert InsertEach(items, a + b, less) == InsertEach(SortedInsert(items, a[0], less), a[1..] + b, less);
      assert InsertEach(items, a, less) == InsertEach(SortedInsert(items, a[0], less), a[1..], less);
      InsertEachAppend(SortedInsert(items, a[0], less), a[1..], b, less);
    } else {
      assert a + b == b;
    }
  }

  /** Inserting one more element after a run of insertions. */
  lemma InsertEachSnoc<T>(items: seq<T>, a: seq<T>, v: T, less: (T, T) -> bool)
    ensures InsertEach(items, a + [v], less) == SortedInsert(InsertEach(items, a, less), v, less)
  {
    InsertEachAppend(items, a, [v], less);
    assert [v][1..] == [];
  }

  /** Each element is less than the next. */
  predicate Chained<T>(s: seq<T>, less: (T, T) -> bool) {
    forall i :: 0 <= i < |s| - 1 ==> less(s[i], s[i + 1])
  }

  /** Sorting a chained vector leaves it as it is. */
  lemma {:induction false} SortAllChained<T>(s: seq<T>, less: (T, T) -> bool)
    requires Chained(s, less)
    ensures SortAll(s, less) == s
  {
    if s != [] {
      var t := s[1..];
      assert Chained(t, less) by {
        forall i | 0 <= i < |t| - 1 ensures less(t[i], t[i + 1]) {
          assert t[i] == s[i + 1] && t[i + 1] == s[i + 2];
        }
      }
      SortAllChained(t, less);
      if t != [] {
        assert t[0] == s[1];
      }
      assert s == [s[0]] + t;
    }
  }

  /** Inserting, in order, elements that continue a chain appends them. */
  lemma {:induction false} InsertEachChained<T>(items: seq<T>, vs: seq<T>, less: (T, T) -> bool)
    requires Chained(items + vs, less)
    ensures InsertEach(items, vs, less) == items + vs
    decreases |vs|
  {
    if vs != [] {
      var next := items + [vs[0]];
      assert next + vs[1..] == items + vs;
      assert Chained(next, less) by {
        forall i | 0 <= i < |next| - 1 ensures less(next[i], next[i + 1]) {
          assert next[i] == (items + vs)[i] && next[i + 1] == (items + vs)[i + 1];
        }
      }
      SortAllChained(next, less);
      InsertEachChained(next, vs[1..], less);
    }
  }

  /** Ints are totally ordered, so a sorted arrangement of a multiset of ints
      is unique. */
  lemma {:induction false} SortedIntsUnique(s: seq<int>, t: seq<int>)
    requires Sorted(s, IntLess) && Sorted(t, IntLess) && multiset(s) == multiset(t)
    ensures s == t
  {
    if s != [] {
      assert s[0] in multiset(t);
      assert t != [] && t[0] in multiset(s);
      SortedIntsLeast(s, t[0]);
      SortedIntsLeast(t, s[0]);
      assert s[0] == t[0];
      assert s == [s[0]] + s[1..] && t == [t[0]] + t[1..];
      assert multiset(s) == multiset{s[0]} + multiset(s[1..]);
      assert multiset(t) == multiset{t[0]} + multiset(t[1..]);
      assert multiset(s[1..]) == multiset(s) - multiset{s[0]};
      assert multiset(t[1..]) == multiset(t) - multiset{t[0]};
      SortedTail(s, IntLess);
      SortedTail(t, IntLess);
      SortedIntsUnique(s[1..], t[1..]);
    } else {
      assert |t| == |multiset(t)|;
    }
  }

  lemma {:induction false} SortedIntsLeast(s: seq<int>, v: int)
    requires Sorted(s, IntLess) && v in multiset(s)
    ensures s[0] <= v
  {
    if s[0] != v {
      assert s == [s[0]] + s[1..];
      assert v in multiset(s[1..]);
      SortedTail(s, IntLess);
      SortedIntsLeast(s[1..], v);
      assert !IntLess(s[1], s[0]);
    }
  }

  /** Inserting ints one by one yields the one sorted arrangement of them. */
  lemma InsertedIntsSorted(vs: seq<int>, expected: seq<int>)
    requires vs != [] && Sorted(expected, IntLess) && multiset(vs) == multiset(expected)
    ensures InsertEach([], vs, IntLess) == expected
  {
    InsertEachProperties([], vs, IntLess);
    SortedIntsUnique(InsertEach([], vs, IntLess), expected);
  }
}
