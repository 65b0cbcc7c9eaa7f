/** Square roots as a parameter.

    Single-precision `hypot` and `sqrt` are library calls outside this model; every
    member that needs one takes a function `sqrt` and, where its value matters, the
    precondition `IsSqrt(sqrt)`: on non-negative arguments it returns the exact
    non-negative square root. */
module Roots {

  ghost predicate IsSqrt(sqrt: real -> real)
  {
    forall t :: 0.0 <= t ==> 0.0 <= sqrt(t) && sqrt(t) * sqrt(t) == t
  }

  /** The root of a non-negative t is non-negative and squares back to t. */
  lemma SqrtSquare(sqrt: real -> real, t: real)
    requires IsSqrt(sqrt) && 0.0 <= t
    ensures 0.0 <= sqrt(t) && sqrt(t) * sqrt(t) == t
  {
  }

  /** `hypot(a, b)`: the length of the vector (a, b). */
  function Hypot(sqrt: real -> real, a: real, b: real): real
  {
    sqrt(a * a + b * b)
  }

  lemma MulLeft(a: real, b: real, c: real)
    requires 0.0 <= a && b <= c
    ensures a * b <= a * c
  {
  }

  lemma MulLeftStrict(a: real, b: real, c: real)
    requires 0.0 < a && b < c
    ensures a * b < a * c
  {
  }

  lemma SquareNonneg(a: real)
    ensures 0.0 <= a * a
  {
  }

  /** Squaring is strictly increasing on the non-negative reals. */
  lemma SquareLt(a: real, b: real)
    requires 0.0 <= a < b
    ensures a * a < b * b
  {
    MulLeft(a, a, b);
    MulLeftStrict(b, a, b);
    calc {
      a * a;
    <= a * b;
    == b * a;
    < b * b;
    }
  }

  lemma SquareInj(a: real, b: real)
    requires 0.0 <= a && 0.0 <= b && a * a == b * b
    ensures a == b
  {
    if a < b {
      SquareLt(a, b);
    } else if b < a {
      SquareLt(b, a);
    }
  }

  /** The square root is determined by its square. */
  lemma SqrtUnique(sqrt: real -> real, u: real, r: real)
    requires IsSqrt(sqrt) && 0.0 <= r && r * r == u
    ensures sqrt(u) == r
  {
    SquareNonneg(r);
    SquareInj(sqrt(u), r);
  }

  /** sqrt(t) is zero exactly when t is. */
  lemma SqrtZero(sqrt: real -> real, t: real)
    requires IsSqrt(sqrt) && 0.0 <= t
    ensures sqrt(t) == 0.0 <==> t == 0.0
  {
    if t == 0.0 {
      SqrtUnique(sqrt, t, 0.0);
    }
  }

  /** A non-negative number c bounds sqrt(t) exactly when c*c bounds t. */
  lemma SqrtAtMost(sqrt: real -> real, t: real, c: real)
    requires IsSqrt(sqrt) && 0.0 <= t && 0.0 <= c
    ensures sqrt(t) <= c <==> t <= c * c
  {
    var s := sqrt(t);
    assert s * s == t;
    if s < c {
      SquareLt(s, c);
    } else if c < s {
      SquareLt(c, s);
    }
  }

  /** A non-negative factor k comes out of the root as k. */
  lemma SqrtScale(sqrt: real -> real, k: real, t: real)
    requires IsSqrt(sqrt) && 0.0 <= k && 0.0 <= t
    ensures sqrt(k * k * t) == k * sqrt(t)
  {
    var s := sqrt(t);
    assert (k * s) * (k * s) == k * k * (s * s);
    MulLeft(k, 0.0, s);
    SqrtUnique(sqrt, k * k * t, k * s);
  }

  /** Hypot is a length: non-negative, squaring back to a*a + b*b, and zero only at
      the origin. */
  lemma HypotFacts(sqrt: real -> real, a: real, b: real)
    requires IsSqrt(sqrt)
    ensures 0.0 <= Hypot(sqrt, a, b)
    ensures Hypot(sqrt, a, b) * Hypot(sqrt, a, b) == a * a + b * b
    ensures Hypot(sqrt, a, b) == 0.0 <==> a == 0.0 && b == 0.0
  {
    SquareNonneg(a);
    SquareNonneg(b);
    SqrtZero(sqrt, a * a + b * b);
    SquareZero(a);
    SquareZero(b);
  }

  lemma SquareZero(a: real)
    ensures a * a == 0.0 ==> a == 0.0
  {
    if a > 0.0 {
      SquareLt(0.0, a);
    } else if a < 0.0 {
      SquareLt(0.0, -a);
      calc {
        0.0;
      < (-a) * (-a);
      == a * a;
      }
    }
  }

  lemma ScaleSquares(a: real, b: real, k: real)
    ensures (k * a) * (k * a) + (k * b) * (k * b) == k * k * (a * a + b * b)
  {
  }

  /** A non-negative factor on both coordinates scales the length. */
  lemma HypotScale(sqrt: real -> real, a: real, b: real, k: real)
    requires IsSqrt(sqrt) && 0.0 <= k
    ensures Hypot(sqrt, k * a, k * b) == k * Hypot(sqrt, a, b)
  {
    SquareNonneg(a);
    SquareNonneg(b);
    var t := a * a + b * b;
    ScaleSquares(a, b, k);
    SqrtScale(sqrt, k, t);
    SqrtEq(sqrt, (k * a) * (k * a) + (k * b) * (k * b), k * k * t);
  }

  /** Equal arguments give equal roots (stated for the solver, which does not always
      carry an arithmetic equality into a function argument). */
  lemma SqrtEq(sqrt: real -> real, x: real, y: real)
    requires x == y
    ensures sqrt(x) == sqrt(y)
  {
  }

  /** Dividing both coordinates by f > 0 divides the length by f. */
  lemma HypotDiv(sqrt: real -> real, a: real, b: real, f: real)
    requires IsSqrt(sqrt) && 0.0 < f
    ensures Hypot(sqrt, a / f, b / f) == Hypot(sqrt, a, b) / f
  {
    var k := 1.0 / f;
    assert a / f == k * a && b / f == k * b;
    HypotScale(sqrt, a, b, k);
    var h := Hypot(sqrt, a, b);
    assert k * h == h / f;
  }

  /** Equal coordinates give equal lengths. */
  lemma HypotEq(sqrt: real -> real, a: real, b: real, c: real, d: real)
    requires a == c && b == d
    ensures Hypot(sqrt, a, b) == Hypot(sqrt, c, d)
  {
  }

  /** The length of (hypot(a, b), c) is the length of (a, b, c). */
  lemma HypotOfHypot(sqrt: real -> real, a: real, b: real, c: real)
    requires IsSqrt(sqrt)
    ensures Hypot(sqrt, Hypot(sqrt, a, b), c) == sqrt(a * a + b * b + c * c)
  {
    HypotFacts(sqrt, a, b);
    var h := Hypot(sqrt, a, b);
    SqrtEq(sqrt, h * h + c * c, a * a + b * b + c * c);
  }
}
