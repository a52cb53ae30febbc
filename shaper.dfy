/** The motion-shaping lookup table that the oscillator is passed through:
    `makeShaper` fills a table of 2048 entries with `sign(x) * |x|^g` for
    x evenly spaced over [-1, 1]. The exponent is the fixed tuning constant
    2, so each entry is `x * |x|`; the lemmas about the shape hold for every
    natural exponent. Entries are exact reals: the single-precision rounding
    of the table is not part of this model. */
module Shaper {

  /** Number of entries in the table. */
  const CurveLength: nat := 2048

  /** The shape exponent `shapeGamma`. */
  const ShapeGamma: nat := 2

  function Pow(b: real, n: nat): real
  {
    if n == 0 then 1.0 else b * Pow(b, n - 1)
  }

  function Abs(x: real): real { if x < 0.0 then -x else x }

  function Sign(x: real): real { if x > 0.0 then 1.0 else if x < 0.0 then -1.0 else 0.0 }

  /** The sign of x times |x| to the power g. */
  function Shape(x: real, g: nat): (r: real)
    ensures 0.0 < x ==> 0.0 <= r
    ensures x < 0.0 ==> r <= 0.0
    ensures x == 0.0 ==> r == 0.0
  {
    PowMonotone(0.0, Abs(x), g);
    Sign(x) * Pow(Abs(x), g)
  }

  /** The i-th sample point: i / (N - 1) mapped linearly onto [-1, 1]. */
  function SamplePoint(i: int): (r: real)
    ensures 0 <= i < CurveLength ==> -1.0 <= r <= 1.0
    ensures i == (CurveLength - 1) / 2 ==> r < 0.0
    ensures i == CurveLength / 2 ==> 0.0 < r
  {
    (i as real / (CurveLength - 1) as real) * 2.0 - 1.0
  }

  /** The value the table holds at index i. */
  function CurveAt(i: int): (r: real)
    ensures r == SamplePoint(i) * Abs(SamplePoint(i))
  {
    ShapeSquare(SamplePoint(i));
    Shape(SamplePoint(i), ShapeGamma)
  }

  lemma {:induction false} PowUnit(b: real, n: nat)
    requires 0.0 <= b <= 1.0
    ensures 0.0 <= Pow(b, n) <= 1.0
  {
    if n > 0 {
      PowUnit(b, n - 1);
      var p := Pow(b, n - 1);
      assert 0.0 <= b * p;
      assert b * p <= 1.0 * p;
    }
  }

  lemma {:induction false} PowOne(n: nat)
    ensures Pow(1.0, n) == 1.0
  {
    if n > 0 { PowOne(n - 1); }
  }

  /** Powers are non-decreasing in the base on the non-negative reals,
      and strictly increasing for a positive exponent. */
  lemma {:induction false} PowMonotone(a: real, b: real, n: nat)
    requires 0.0 <= a <= b
    ensures 0.0 <= Pow(a, n) <= Pow(b, n)
    ensures n > 0 && a < b ==> Pow(a, n) < Pow(b, n)
  {
    if n > 0 {
      PowMonotone(a, b, n - 1);
      var pa, pb := Pow(a, n - 1), Pow(b, n - 1);
      assert a * pa <= a * pb;
      assert a * pb <= b * pb;
      if a < b {
        if n - 1 == 0 {
          assert pa == 1.0 && pb == 1.0;
        } else {
          assert pa < pb;
          assert 0.0 < pb;
          assert a * pb < b * pb;
        }
      }
    }
  }

  /** With exponent 2 the shape is `x * |x|`. */
  lemma ShapeSquare(x: real)
    ensures Shape(x, 2) == x * Abs(x)
  {
    var a := Abs(x);
    assert Pow(a, 1) == a * Pow(a, 0) == a;
    assert Pow(a, 2) == a * Pow(a, 1) == a * a;
  }

  /** The shape fixes 0 and the endpoints -1 and 1. */
  lemma ShapeFixedPoints(g: nat)
    ensures Shape(0.0, g) == 0.0
    ensures Shape(1.0, g) == 1.0
    ensures Shape(-1.0, g) == -1.0
  {
    PowOne(g);
  }

  /** The shape maps [-1, 1] into [-1, 1]. */
  lemma ShapeBounded(x: real, g: nat)
    requires -1.0 <= x <= 1.0
    ensures -1.0 <= Shape(x, g) <= 1.0
  {
    PowUnit(Abs(x), g);
  }

  /** The shape is odd. */
  lemma ShapeOdd(x: real, g: nat)
    ensures Shape(-x, g) == -Shape(x, g)
  {
  }

  /** The shape is non-decreasing, and strictly increasing for a positive exponent. */
  lemma ShapeMonotone(x: real, y: real, g: nat)
    requires x <= y
    ensures Shape(x, g) <= Shape(y, g)
    ensures g > 0 && x < y ==> Shape(x, g) < Shape(y, g)
  {
    if 0.0 <= x {
      PowMonotone(x, y, g);
    } else if y <= 0.0 {
      PowMonotone(-y, -x, g);
    } else {
      PowMonotone(0.0, -x, g);
      PowMonotone(0.0, y, g);
      if g > 0 {
        assert Pow(0.0, g) == 0.0 * Pow(0.0, g - 1);
      }
    }
  }

  /** The sample points run from -1 to 1, strictly increasing, symmetric about 0. */
  lemma SamplePointFacts(i: int, j: int)
    requires 0 <= i < j < CurveLength
    ensures -1.0 <= SamplePoint(i) < SamplePoint(j) <= 1.0
    ensures SamplePoint(CurveLength - 1 - i) == -SamplePoint(i)
  {
  }

  lemma SamplePointEnds()
    ensures SamplePoint(0) == -1.0
    ensures SamplePoint(CurveLength - 1) == 1.0
  {
  }

  /** The table's endpoints are -1 and 1. */
  lemma CurveEnds()
    ensures CurveAt(0) == -1.0
    ensures CurveAt(CurveLength - 1) == 1.0
  {
  }

  /** Every entry lies in [-1, 1]. */
  lemma CurveBounded(i: int)
    requires 0 <= i < CurveLength
    ensures -1.0 <= CurveAt(i) <= 1.0
  {
    if i < CurveLength - 1 {
      SamplePointFacts(i, CurveLength - 1);
    } else {
      SamplePointEnds();
    }
    ShapeBounded(SamplePoint(i), ShapeGamma);
  }

  /** The table is strictly increasing in the index. */
  lemma CurveIncreasing(i: int, j: int)
    requires 0 <= i < j < CurveLength
    ensures CurveAt(i) < CurveAt(j)
  {
    SamplePointFacts(i, j);
    ShapeMonotone(SamplePoint(i), SamplePoint(j), ShapeGamma);
  }

  /** The table is odd: mirrored entries are opposite. */
  lemma CurveOdd(i: int)
    requires 0 <= i < CurveLength
    ensures CurveAt(i) == -CurveAt(CurveLength - 1 - i)
  {
  }

  /** Fills the table as `makeShaper` does, one entry per iteration. */
  method MakeShaper() returns (curve: array<real>)
    ensures curve.Length == CurveLength
    ensures forall i :: 0 <= i < CurveLength ==> curve[i] == CurveAt(i)
    ensures curve[0] == -1.0 && curve[CurveLength - 1] == 1.0
    ensures forall i :: 0 <= i < CurveLength ==> -1.0 <= curve[i] <= 1.0
    ensures forall i, j :: 0 <= i < j < CurveLength ==> curve[i] < curve[j]
    ensures forall i :: 0 <= i < CurveLength ==> curve[i] == -curve[CurveLength - 1 - i]
  {
    curve := new real[CurveLength];
    var i := 0;
    while i < CurveLength
      invariant 0 <= i <= CurveLength
      invariant forall k :: 0 <= k < i ==> curve[k] == CurveAt(k)
    {
      curve[i] := Shape(SamplePoint(i), ShapeGamma);
      i := i + 1;
    }
    CurveEnds();
    forall i | 0 <= i < CurveLength
      ensures -1.0 <= curve[i] <= 1.0 && curve[i] == -curve[CurveLength - 1 - i]
    {
      CurveBounded(i);
      CurveOdd(i);
    }
    forall i, j | 0 <= i < j < CurveLength
      ensures curve[i] < curve[j]
    {
      CurveIncreasing(i, j);
    }
  }
}
