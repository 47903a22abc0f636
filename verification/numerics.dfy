/** Integer conversions that C++ performs implicitly. */
module Numerics {

  /** The C++ cast `(int) x` from a floating value: truncation toward zero. */
  function Trunc(x: real): (r: int)
    ensures 0.0 <= x ==> 0 <= r && r as real <= x < r as real + 1.0
    ensures x < 0.0 ==> r <= 0 && r as real - 1.0 < x <= r as real
  {
    if 0.0 <= x then x.Floor else -((-x).Floor)
  }

  /** Scaling a non-negative amount by a factor in [0, 1] keeps it within [0, amount]. */
  lemma ScaledWithin(a: real, p: real)
    requires 0.0 <= a && 0.0 <= p <= 1.0
    ensures 0.0 <= a * p <= a
  {
    assert 0.0 <= a * (1.0 - p);
  }

  /** A weighted mean of two values lies between them. */
  lemma ConvexBetween(a: real, b: real, alpha: real)
    requires 0.0 <= alpha <= 1.0
    ensures a <= b ==> a <= a * (1.0 - alpha) + b * alpha <= b
    ensures b <= a ==> b <= a * (1.0 - alpha) + b * alpha <= a
  {
    var d := b - a;
    assert a * (1.0 - alpha) + b * alpha == a + d * alpha;
    if 0.0 <= d {
      ScaledWithin(d, alpha);
      assert a + d * alpha <= b;
    } else {
      var e := -d;
      ScaledWithin(e, alpha);
      assert e * alpha == -(d * alpha);
      assert b <= a + d * alpha;
    }
  }

  function Min(a: int, b: int): (r: int)
    ensures r <= a && r <= b
    ensures r == a || r == b
  {
    if a <= b then a else b
  }

}
