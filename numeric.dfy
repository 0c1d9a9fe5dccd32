/** Numeric helpers: absolute value, Python's int() on a float, and powers. */
module Numeric {

  function Abs(x: real): (r: real)
    ensures 0.0 <= r
    ensures r == x || r == -x
  {
    if x < 0.0 then -x else x
  }

  function Min(a: real, b: real): (r: real)
    ensures r <= a && r <= b && (r == a || r == b)
  {
    if a <= b then a else b
  }

  function Max(a: real, b: real): (r: real)
    ensures a <= r && b <= r && (r == a || r == b)
  {
    if a <= b then b else a
  }

  /** Every entry is a byte, 0 to 255. */
  predicate AllBytes(b: seq<int>)
  {
    forall k :: 0 <= k < |b| ==> 0 <= b[k] < 0x100
  }

  /** Python's int() applied to a float: truncation toward zero. */
  function TruncToInt(x: real): (r: int)
    ensures 0.0 <= x ==> 0 <= r && r as real <= x < r as real + 1.0
    ensures x < 0.0 ==> r <= 0 && r as real - 1.0 < x <= r as real
  {
    if 0.0 <= x then x.Floor else -((-x).Floor)
  }

  /** Truncation toward zero never decreases when its argument grows. */
  lemma TruncMonotone(x: real, y: real)
    requires x <= y
    ensures TruncToInt(x) <= TruncToInt(y)
  {
  }

  function Pow(b: real, n: nat): real
    decreases n
  {
    if n == 0 then 1.0 else b * Pow(b, n - 1)
  }

  /** The product of two factors in [0, 1] lies in [0, 1] and is at most the second. */
  lemma MulUnit(a: real, x: real)
    requires 0.0 <= a <= 1.0 && 0.0 <= x <= 1.0
    ensures 0.0 <= a * x <= x <= 1.0
  {
    assert (1.0 - a) * x >= 0.0;
  }

  /** A power of a factor in [0, 1] stays in [0, 1] and shrinks with the exponent. */
  lemma {:induction false} PowUnit(b: real, n: nat)
    requires 0.0 <= b <= 1.0
    ensures 0.0 <= Pow(b, n) <= 1.0
    ensures Pow(b, n + 1) <= Pow(b, n)
    decreases n
  {
    if n > 0 {
      PowUnit(b, n - 1);
      MulUnit(b, Pow(b, n - 1));
    }
    MulUnit(b, Pow(b, n));
  }

  /** Multiplying both sides by a non-negative factor keeps an inequality. */
  lemma MulLeq(x: real, y: real, z: real)
    requires x <= y && 0.0 <= z
    ensures x * z <= y * z
  {
    assert y * z - x * z == (y - x) * z;
    assert 0.0 <= (y - x) * z;
  }

  /** A bound on a dividend times a positive divisor bounds the quotient. */
  lemma QuotientBounds(a: real, b: real, lo: real, hi: real)
    requires 0.0 < b && lo * b <= a <= hi * b
    ensures lo <= a / b <= hi
  {
    var q := a / b;
    assert q * b == a;
    if hi < q {
      MulLeq(hi, q, b);
    }
    if q < lo {
      MulLeq(q, lo, b);
    }
  }
}
