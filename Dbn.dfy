/** Distributions of weighted fills, as records of sums.

    The Dbn0D/1D/2D/3D classes themselves are not part of this model; their
    field lists are the ones the `.yoda` reader stores
    (include/YODA/ReaderYODA.h:96-152). Each sum is read by its name: sumW is
    the sum of weights, sumW2 the sum of squared weights, sumWX the sum of
    weight times x, and so on. Combination is field-wise; the fill counter is an
    `unsigned long` and wraps modulo 2^64.
 */
module Dbn {

  const ULongModulus: nat := 0x1_0000_0000_0000_0000
  type ULong = n: nat | n < 0x1_0000_0000_0000_0000

  function AddU(a: ULong, b: ULong): ULong { (a + b) % ULongModulus }
  function SubU(a: ULong, b: ULong): ULong { (a - b) % ULongModulus }

  /** Unsigned addition and subtraction undo each other, wrap-around included. */
  lemma AddSubU(a: ULong, b: ULong)
    ensures SubU(AddU(a, b), b) == a
    ensures AddU(SubU(a, b), b) == a
  {
    var m := ULongModulus;
    if a + b >= m {
      assert AddU(a, b) == a + b - m;
    }
    if a < b {
      assert SubU(a, b) == a - b + m;
    }
  }

  // ---------------------------------------------------------------------------
  // Zero-dimensional: the Counter's distribution

  datatype Dbn0D = Dbn0D(numFills: ULong, sumW: real, sumW2: real)

  function Zero0D(): Dbn0D { Dbn0D(0, 0.0, 0.0) }

  /** One fill of weight w. */
  function Fill0D(d: Dbn0D, w: real): Dbn0D {
    Dbn0D(AddU(d.numFills, 1), d.sumW + w, d.sumW2 + w * w)
  }

  function Add0D(a: Dbn0D, b: Dbn0D): Dbn0D {
    Dbn0D(AddU(a.numFills, b.numFills), a.sumW + b.sumW, a.sumW2 + b.sumW2)
  }

  function Sub0D(a: Dbn0D, b: Dbn0D): Dbn0D {
    Dbn0D(SubU(a.numFills, b.numFills), a.sumW - b.sumW, a.sumW2 - b.sumW2)
  }

  /** Scaling every weight by s scales sumW by s and sumW2 by s^2. */
  function ScaleW0D(d: Dbn0D, s: real): Dbn0D {
    Dbn0D(d.numFills, d.sumW * s, d.sumW2 * s * s)
  }

  /** A fill is the same as adding a distribution that holds only that fill. */
  lemma Fill0DIsAddOfSingle(d: Dbn0D, w: real)
    ensures Fill0D(d, w) == Add0D(d, Fill0D(Zero0D(), w))
  {
  }

  lemma Add0DLaws(a: Dbn0D, b: Dbn0D)
    ensures Add0D(a, b) == Add0D(b, a)
    ensures Add0D(a, Zero0D()) == a
    ensures Sub0D(Add0D(a, b), b) == a
  {
    AddSubU(a.numFills, b.numFills);
  }

  lemma ScaleW0DCompose(d: Dbn0D, s: real, t: real)
    ensures ScaleW0D(ScaleW0D(d, s), t) == ScaleW0D(d, s * t)
  {
    assert d.sumW2 * s * s * t * t == d.sumW2 * (s * t) * (s * t);
  }

  // ---------------------------------------------------------------------------
  // One-dimensional: Histo1D bins and outflows

  datatype Dbn1D = Dbn1D(numFills: ULong, sumW: real, sumW2: real, sumWX: real, sumWX2: real)

  function Zero1D(): Dbn1D { Dbn1D(0, 0.0, 0.0, 0.0, 0.0) }

  function Fill1D(d: Dbn1D, x: real, w: real): Dbn1D {
    Dbn1D(AddU(d.numFills, 1), d.sumW + w, d.sumW2 + w * w, d.sumWX + w * x, d.sumWX2 + w * x * x)
  }

  function Add1D(a: Dbn1D, b: Dbn1D): Dbn1D {
    Dbn1D(AddU(a.numFills, b.numFills), a.sumW + b.sumW, a.sumW2 + b.sumW2,
          a.sumWX + b.sumWX, a.sumWX2 + b.sumWX2)
  }

  function Sub1D(a: Dbn1D, b: Dbn1D): Dbn1D {
    Dbn1D(SubU(a.numFills, b.numFills), a.sumW - b.sumW, a.sumW2 - b.sumW2,
          a.sumWX - b.sumWX, a.sumWX2 - b.sumWX2)
  }

  function ScaleW1D(d: Dbn1D, s: real): Dbn1D {
    Dbn1D(d.numFills, d.sumW * s, d.sumW2 * s * s, d.sumWX * s, d.sumWX2 * s)
  }

  /** Scaling x by s scales sumWX by s and sumWX2 by s^2. */
  function ScaleX1D(d: Dbn1D, s: real): Dbn1D {
    Dbn1D(d.numFills, d.sumW, d.sumW2, d.sumWX * s, d.sumWX2 * s * s)
  }

  /** effNumEntries(): sumW^2 / sumW2, and 0 for a zero sumW2. */
  function EffNumEntries1D(d: Dbn1D): (r: real)
    ensures d.sumW2 == 0.0 ==> r == 0.0
    ensures d.sumW2 > 0.0 ==> r >= 0.0
  {
    if d.sumW2 == 0.0 then 0.0 else d.sumW * d.sumW / d.sumW2
  }

  lemma Fill1DIsAddOfSingle(d: Dbn1D, x: real, w: real)
    ensures Fill1D(d, x, w) == Add1D(d, Fill1D(Zero1D(), x, w))
  {
  }

  /** A sum of two unsigned values wraps at most once. */
  lemma WrapOnce(x: int)
    requires 0 <= x < 2 * ULongModulus
    ensures x % ULongModulus == if x < ULongModulus then x else x - ULongModulus
  {
    if x >= ULongModulus {
      assert x == 1 * ULongModulus + (x - ULongModulus);
    }
  }

  /** Unsigned addition is associative, wrap-around included. */
  lemma AddUAssociative(a: ULong, b: ULong, c: ULong)
    ensures AddU(AddU(a, b), c) == AddU(a, AddU(b, c))
  {
    WrapOnce(a + b);
    WrapOnce(b + c);
    WrapOnce(AddU(a, b) + c);
    WrapOnce(a + AddU(b, c));
  }

  lemma Add1DLaws(a: Dbn1D, b: Dbn1D, c: Dbn1D)
    ensures Add1D(a, b) == Add1D(b, a)
    ensures Add1D(Add1D(a, b), c) == Add1D(a, Add1D(b, c))
    ensures Add1D(a, Zero1D()) == a
    ensures Sub1D(Add1D(a, b), b) == a
  {
    AddSubU(a.numFills, b.numFills);
    AddUAssociative(a.numFills, b.numFills, c.numFills);
  }

  lemma ScaleX1DCompose(d: Dbn1D, s: real, t: real)
    ensures ScaleX1D(ScaleX1D(d, s), t) == ScaleX1D(d, s * t)
  {
    assert d.sumWX2 * s * s * t * t == d.sumWX2 * (s * t) * (s * t);
  }

  // ---------------------------------------------------------------------------
  // Two- and three-dimensional: Profile1D, Histo2D and Profile2D records

  datatype Dbn2D = Dbn2D(numFills: ULong, sumW: real, sumW2: real, sumWX: real, sumWX2: real,
                         sumWY: real, sumWY2: real, sumWXY: real)

  function Zero2D(): Dbn2D { Dbn2D(0, 0.0, 0.0, 0.0, 0.0, 0.0, 0.0, 0.0) }

  datatype Dbn3D = Dbn3D(numFills: ULong, sumW: real, sumW2: real, sumWX: real, sumWX2: real,
                         sumWY: real, sumWY2: real, sumWZ: real, sumWZ2: real,
                         sumWXY: real, sumWXZ: real, sumWYZ: real)

  function Zero3D(): Dbn3D { Dbn3D(0, 0.0, 0.0, 0.0, 0.0, 0.0, 0.0, 0.0, 0.0, 0.0, 0.0, 0.0) }
}
