/** Smooth Hermite easing ("smoothstep") that maps linear build progress
    to the eased progress used to ramp the heart's frequency parameter k. */
module Easing {

  /** Clamps t into [0, 1], as numpy's clip(t, 0.0, 1.0) does. */
  function Clip(t: real): (c: real)
    ensures 0.0 <= c <= 1.0
    ensures 0.0 <= t <= 1.0 ==> c == t
    ensures t < 0.0 ==> c == 0.0
    ensures t > 1.0 ==> c == 1.0
  {
    if t < 0.0 then 0.0 else if t > 1.0 then 1.0 else t
  }

  /** The Hermite polynomial 3c^2 - 2c^3, written as the source writes it. */
  function Smoothstep(c: real): real
  {
    c * c * (3.0 - 2.0 * c)
  }

  /** Eased progress: the input is clipped first, then smoothed. The result
      stays in [0, 1] and pins both end points. */
  function Ease(t: real): (e: real)
    ensures 0.0 <= e <= 1.0
    ensures t <= 0.0 ==> e == 0.0
    ensures t >= 1.0 ==> e == 1.0
  {
    var c := Clip(t);
    SmoothstepBounds(c);
    Smoothstep(c)
  }

  lemma SmoothstepBounds(c: real)
    requires 0.0 <= c <= 1.0
    ensures 0.0 <= Smoothstep(c) <= 1.0
  {
    NonnegProduct(c, c);
    NonnegProduct(c * c, 3.0 - 2.0 * c);
    // 1 - (3c^2 - 2c^3) = (1 - c)^2 (1 + 2c) >= 0
    assert 1.0 - Smoothstep(c) == (1.0 - c) * (1.0 - c) * (1.0 + 2.0 * c);
    NonnegProduct(1.0 - c, 1.0 - c);
    NonnegProduct((1.0 - c) * (1.0 - c), 1.0 + 2.0 * c);
  }

  lemma NonnegProduct(a: real, b: real)
    requires 0.0 <= a && 0.0 <= b
    ensures 0.0 <= a * b
  {
  }

  lemma ScaledDown(a: real, b: real)
    requires 0.0 <= a && 0.0 <= b <= 1.0
    ensures a * b <= a && b * a <= a
  {
  }

  /** Ease is monotone non-decreasing on the whole real line. */
  lemma EaseMonotone(a: real, b: real)
    requires a <= b
    ensures Ease(a) <= Ease(b)
  {
    var x, y := Clip(a), Clip(b);
    assert x <= y;
    // f(y) - f(x) = (y - x) (3 (x + y) - 2 (x^2 + x y + y^2))
    assert Smoothstep(y) - Smoothstep(x)
        == (y - x) * (3.0 * (x + y) - 2.0 * (x * x + x * y + y * y));
    SlopeNonneg(x, y);
    NonnegProduct(y - x, 3.0 * (x + y) - 2.0 * (x * x + x * y + y * y));
  }

  lemma SlopeNonneg(x: real, y: real)
    requires 0.0 <= x <= 1.0 && 0.0 <= y <= 1.0
    ensures 2.0 * (x * x + x * y + y * y) <= 3.0 * (x + y)
  {
    ScaledDown(x, x);
    ScaledDown(y, y);
    ScaledDown(x, y);
    ScaledDown(y, x);
    SumBound(x, y, x * x, x * y, y * y);
  }

  lemma SumBound(x: real, y: real, xx: real, xy: real, yy: real)
    requires xx <= x && yy <= y && xy <= x && xy <= y
    ensures 2.0 * (xx + xy + yy) <= 3.0 * (x + y)
  {
  }

  /** Ease is point-symmetric about (1/2, 1/2): ease(t) = 1 - ease(1 - t). */
  lemma EaseSymmetric(t: real)
    ensures Ease(t) == 1.0 - Ease(1.0 - t)
  {
  }

  /** The midpoint is a fixed point. */
  lemma EaseHalf()
    ensures Ease(0.5) == 0.5
  {
  }
}
