/** The fixed-size array of include/YODA/Utils/ndarray.h: N slots of a value
    type, built cleared, from a vector of exactly N values, or from another
    array of N values. The value-initialised T() of the source is the `zero`
    parameter of the operations that clear. */
module NdArray {
  import opened Wrappers

  class NdArray<T(0)> {
    const n: nat
    const vals: array<T>

    ghost predicate Valid()
      reads this
    {
      vals.Length == n
    }

    /** The current contents, slot by slot. */
    function Contents(): (r: seq<T>)
      reads this, vals
      requires Valid()
      ensures |r| == n && forall i :: 0 <= i < n ==> r[i] == vals[i]
    {
      vals[..]
    }

    /** ndarray(): every slot cleared to T(). */
    constructor Cleared(size: nat, zero: T)
      ensures Valid() && fresh(vals) && n == size
      ensures vals[..] == seq(size, _ => zero)
    {
      n := size;
      vals := new T[size];
      new;
      Clear(zero);
    }

    /** ndarray(boost::array): a copy of an array that already has N values. */
    constructor FromArray(arr: seq<T>, size: nat)
      requires |arr| == size
      ensures Valid() && fresh(vals) && n == size
      ensures vals[..] == arr
    {
      n := size;
      vals := new T[size](i requires 0 <= i < size => arr[i]);
    }

    /** ndarray(std::vector): a RangeError unless the vector holds exactly N
        values, else the values copied slot by slot. */
    static method FromVector(vec: seq<T>, size: nat) returns (r: Result<NdArray<T>>)
      ensures r.Err? <==> |vec| != size
      ensures r.Err? ==> r.error == RangeError
      ensures r.Ok? ==> fresh(r.value) && fresh(r.value.vals) && r.value.Valid()
      ensures r.Ok? ==> r.value.n == size && r.value.vals[..] == vec
    {
      if |vec| != size {
        return Err(RangeError);
      }
      var a := new NdArray.Unset(size);
      for i := 0 to size
        invariant forall k :: 0 <= k < i ==> a.vals[k] == vec[k]
      {
        a.vals[i] := vec[i];
      }
      assert a.vals[..] == vec;
      return Ok(a);
    }

    /** The array before its slots are written; FromVector fills it. */
    constructor Unset(size: nat)
      ensures Valid() && fresh(vals) && n == size
    {
      n := size;
      vals := new T[size];
    }

    /** clear(): every slot set to T(). */
    method Clear(zero: T)
      requires Valid()
      modifies vals
      ensures vals[..] == seq(n, _ => zero)
    {
      for i := 0 to n
        invariant forall k :: 0 <= k < i ==> vals[k] == zero
      {
        vals[i] := zero;
      }
    }

    /** operator[] (const): the value in slot i; unchecked in the source, so
        callers keep i below N. */
    function Get(i: nat): (r: T)
      reads this, vals
      requires Valid() && i < n
      ensures r == Contents()[i]
    {
      vals[i]
    }

    /** operator[] used as an lvalue: slot i replaced, every other slot kept. */
    method Set(i: nat, v: T)
      requires Valid() && i < n
      modifies vals
      ensures vals[..] == old(vals[..])[i := v]
      ensures Get(i) == v && forall j :: 0 <= j < n && j != i ==> Get(j) == old(Get(j))
    {
      vals[i] := v;
    }
  }
}
