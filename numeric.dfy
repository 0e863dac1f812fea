/**
 * The parts of JavaScript's `Math` that the renderers use. The trigonometric functions are not
 * computed: a `Maths` value carries them as functions, and `Lawful` states the facts the proofs
 * rely on (ranges, sin^2 + cos^2 = 1, the range of acos).
 */
module Numeric {

  datatype Maths = Maths(sin: real -> real, cos: real -> real, acos: real -> real, pi: real)

  ghost predicate Lawful(m: Maths) {
    && m.pi > 3.0
    && (forall t :: -1.0 <= m.sin(t) <= 1.0)
    && (forall t :: -1.0 <= m.cos(t) <= 1.0)
    && (forall t :: m.sin(t) * m.sin(t) + m.cos(t) * m.cos(t) == 1.0)
    && (forall u :: -1.0 <= u <= 1.0 ==> 0.0 <= m.acos(u) <= m.pi)
  }

  lemma Pythagoras(m: Maths, t: real)
    requires Lawful(m)
    ensures m.sin(t) * m.sin(t) + m.cos(t) * m.cos(t) == 1.0
  {
  }

  /** `Math.floor`. */
  function Floor(x: real): (r: int)
    ensures r as real <= x < r as real + 1.0
  {
    x.Floor
  }

  /** `Math.round`: halves round up, towards positive infinity. */
  function Round(x: real): (r: int)
    ensures x - 0.5 < r as real <= x + 0.5
  {
    Floor(x + 0.5)
  }

  /** `Math.min` and `Math.max` on numbers that are not NaN. */
  function Min(a: real, b: real): (r: real)
    ensures r <= a && r <= b && (r == a || r == b)
  {
    if a <= b then a else b
  }

  function Max(a: real, b: real): (r: real)
    ensures r >= a && r >= b && (r == a || r == b)
  {
    if a >= b then a else b
  }

  function Abs(x: real): (r: real)
    ensures r >= 0.0 && (r == x || r == -x)
  {
    if x >= 0.0 then x else -x
  }

  lemma MulNonNeg(a: real, b: real)
    requires a >= 0.0 && b >= 0.0
    ensures a * b >= 0.0
  {
  }

  lemma MulPos(a: real, b: real)
    requires a > 0.0 && b > 0.0
    ensures a * b > 0.0
  {
  }

  /** Multiplying by a non-negative factor keeps an order. */
  lemma MulMono(a: real, b: real, c: real)
    requires a >= 0.0 && b <= c
    ensures a * b <= a * c
  {
    MulNonNeg(a, c - b);
  }

  /** A factor in [-1, 1] does not increase magnitude. */
  lemma BoundedProduct(r: real, c: real)
    requires -1.0 <= c <= 1.0
    ensures Abs(r * c) <= Abs(r)
  {
    if r >= 0.0 {
      MulNonNeg(r, 1.0 - c);
      MulNonNeg(r, c + 1.0);
    } else {
      MulNonNeg(-r, 1.0 - c);
      MulNonNeg(-r, c + 1.0);
    }
  }

  lemma SquareNonNeg(x: real)
    ensures x * x >= 0.0
  {
    if x < 0.0 {
      MulNonNeg(-x, -x);
    }
  }

  /** A square no larger than r * r means a value within r of zero. */
  lemma SquareBound(t: real, r: real)
    requires r >= 0.0 && t * t <= r * r
    ensures -r <= t <= r
  {
    if t > r {
      assert (t - r) * (t + r) == t * t - r * r;
      MulPos(t - r, t + r);
    } else if t < -r {
      assert (-t - r) * (r - t) == t * t - r * r;
      MulPos(-t - r, r - t);
    }
  }
}
