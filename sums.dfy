/** Finite sums of real-valued index functions.

    Every lemma here takes the functions it relates as parameters and states the
    pointwise relation between them as a precondition, so that callers may pass
    whatever lambda they have at hand. */
module Sums {

  function Abs(t: real): (a: real)
    ensures 0.0 <= a && (a == t || a == -t)
  {
    if t < 0.0 then -t else t
  }

  /** a / b for a non-zero b, zero otherwise: IEEE infinities are not modelled. */
  function Div(a: real, b: real): real
  {
    if b != 0.0 then a / b else 0.0
  }

  function Min(a: real, b: real): real
  {
    if a <= b then a else b
  }

  function Max(a: real, b: real): real
  {
    if a >= b then a else b
  }

  /** Sum of f(0) + ... + f(n - 1); zero when n <= 0. */
  function Sum(n: int, f: int -> real): real
    decreases n
  {
    if n <= 0 then 0.0 else Sum(n - 1, f) + f(n - 1)
  }

  /** Sums of two functions that agree on [0, n) are equal. */
  lemma {:induction false} SumExt(n: int, f: int -> real, g: int -> real)
    requires forall k :: 0 <= k < n ==> f(k) == g(k)
    ensures Sum(n, f) == Sum(n, g)
    decreases n
  {
    if n > 0 {
      SumExt(n - 1, f, g);
    }
  }

  /** The sum is linear: h = a*f + b*g pointwise gives Sum h = a*Sum f + b*Sum g. */
  lemma {:induction false} SumLinear(n: int, a: real, f: int -> real, b: real, g: int -> real, h: int -> real)
    requires forall k :: 0 <= k < n ==> h(k) == a * f(k) + b * g(k)
    ensures Sum(n, h) == a * Sum(n, f) + b * Sum(n, g)
    decreases n
  {
    if n > 0 {
      SumLinear(n - 1, a, f, b, g, h);
      LinearStep(a, Sum(n - 1, f), f(n - 1), b, Sum(n - 1, g), g(n - 1));
    }
  }

  /** The inductive step of SumLinear: a*F + b*G grows by a*f + b*g. */
  lemma LinearStep(a: real, sf: real, fk: real, b: real, sg: real, gk: real)
    ensures (a * sf + b * sg) + (a * fk + b * gk) == a * (sf + fk) + b * (sg + gk)
  {
  }

  /** h = a * f + b * g on the first n points. */
  ghost predicate Lin(n: int, a: real, f: int -> real, b: real, g: int -> real, h: int -> real)
  {
    forall k :: 0 <= k < n ==> h(k) == a * f(k) + b * g(k)
  }

  /** SumLinear with its pointwise relation passed as a predicate. */
  lemma SumLinearBy(n: int, a: real, f: int -> real, b: real, g: int -> real, h: int -> real)
    requires Lin(n, a, f, b, g, h)
    ensures Sum(n, h) == a * Sum(n, f) + b * Sum(n, g)
  {
    SumLinear(n, a, f, b, g, h);
  }

  /** Sum of h = f + g. */
  lemma SumAdd(n: int, f: int -> real, g: int -> real, h: int -> real)
    requires forall k :: 0 <= k < n ==> h(k) == f(k) + g(k)
    ensures Sum(n, h) == Sum(n, f) + Sum(n, g)
  {
    SumLinear(n, 1.0, f, 1.0, g, h);
  }

  /** Sum of h = f - g. */
  lemma SumSub(n: int, f: int -> real, g: int -> real, h: int -> real)
    requires forall k :: 0 <= k < n ==> h(k) == f(k) - g(k)
    ensures Sum(n, h) == Sum(n, f) - Sum(n, g)
  {
    SumLinear(n, 1.0, f, -1.0, g, h);
  }

  /** Sum of a difference of two masked functions. */
  lemma SumSubMasked(n: int, c: bool, f: int -> real, d: bool, g: int -> real, h: int -> real)
    requires forall k :: 0 <= k < n ==> h(k) == (if c then f(k) else 0.0) - (if d then g(k) else 0.0)
    ensures Sum(n, h) == (if c then Sum(n, f) else 0.0) - (if d then Sum(n, g) else 0.0)
  {
    if c && d {
      SumSub(n, f, g, h);
    } else if c {
      SumExt(n, h, f);
    } else if d {
      SumScale(n, -1.0, g, h);
    } else {
      SumZero(n, h);
    }
  }

  /** Sum of h = c * f. */
  lemma SumScale(n: int, c: real, f: int -> real, h: int -> real)
    requires forall k :: 0 <= k < n ==> h(k) == c * f(k)
    ensures Sum(n, h) == c * Sum(n, f)
  {
    SumLinear(n, c, f, 0.0, f, h);
  }

  /** A function that vanishes on [0, n) sums to zero. */
  lemma {:induction false} SumZero(n: int, f: int -> real)
    requires forall k :: 0 <= k < n ==> f(k) == 0.0
    ensures Sum(n, f) == 0.0
    decreases n
  {
    if n > 0 {
      SumZero(n - 1, f);
    }
  }

  /** A sum of non-negative terms is non-negative. */
  lemma {:induction false} SumNonneg(n: int, f: int -> real)
    requires forall k :: 0 <= k < n ==> 0.0 <= f(k)
    ensures 0.0 <= Sum(n, f)
    decreases n
  {
    if n > 0 {
      SumNonneg(n - 1, f);
    }
  }

  /** Summing a function that is cut off at m <= n is summing the first m values. */
  lemma {:induction false} SumPrefix(n: int, m: int, f: int -> real, g: int -> real)
    requires 0 <= m <= n
    requires forall k :: 0 <= k < n ==> g(k) == (if k < m then f(k) else 0.0)
    ensures Sum(n, g) == Sum(m, f)
    decreases n
  {
    if n == m {
      SumExt(n, g, f);
    } else {
      SumPrefix(n - 1, m, f, g);
    }
  }

  /** Shifting the index up by one: sum over k < n of [k > 0] f(k - 1) is the sum of
      the first n - 1 values of f. */
  lemma {:induction false} SumShiftUp(n: int, f: int -> real, g: int -> real)
    requires 1 <= n
    requires forall k :: 0 <= k < n ==> g(k) == (if k > 0 then f(k - 1) else 0.0)
    ensures Sum(n, g) == Sum(n - 1, f)
    decreases n
  {
    if n > 1 {
      SumShiftUp(n - 1, f, g);
    }
  }

  /** The summation-by-parts core: moving a unit shift from one factor to the other.
      sum_{k<n} [k < n-1] h(k) == sum_{k<n} [k > 0] h(k - 1). */
  lemma SumShift(n: int, h: int -> real, lo: int -> real, hi: int -> real)
    requires forall k :: 0 <= k < n ==> lo(k) == (if k < n - 1 then h(k) else 0.0)
    requires forall k :: 0 <= k < n ==> hi(k) == (if k > 0 then h(k - 1) else 0.0)
    ensures Sum(n, lo) == Sum(n, hi)
  {
    if n >= 1 {
      SumPrefix(n, n - 1, h, lo);
      SumShiftUp(n, h, hi);
    }
  }

  /** f + g vanishing pointwise gives sums that cancel. */
  lemma {:induction false} SumCancel(n: int, f: int -> real, g: int -> real)
    requires forall k :: 0 <= k < n ==> f(k) + g(k) == 0.0
    ensures Sum(n, f) + Sum(n, g) == 0.0
    decreases n
  {
    if n > 0 {
      SumCancel(n - 1, f, g);
    }
  }

  /** Row y of a grid function, as a function of the column x. */
  function Row(f: (int, int) -> real, y: int): int -> real
  {
    x => f(x, y)
  }

  /** The row sums of a grid function with nx columns. */
  function RowSums(nx: int, f: (int, int) -> real): int -> real
  {
    y => Sum(nx, Row(f, y))
  }

  /** Sum over a grid of nx columns and ny rows, rows outermost. */
  function GridSum(nx: int, ny: int, f: (int, int) -> real): real
  {
    Sum(ny, RowSums(nx, f))
  }

  /** The grid function with rows and columns exchanged. */
  function Transpose(f: (int, int) -> real): (int, int) -> real
  {
    (i, j) => f(j, i)
  }

  /** Grid sums of functions that agree on the grid are equal. */
  lemma GridExt(nx: int, ny: int, f: (int, int) -> real, g: (int, int) -> real)
    requires forall x, y :: 0 <= x < nx && 0 <= y < ny ==> f(x, y) == g(x, y)
    ensures GridSum(nx, ny, f) == GridSum(nx, ny, g)
  {
    forall y | 0 <= y < ny
      ensures Sum(nx, Row(f, y)) == Sum(nx, Row(g, y))
    {
      SumExt(nx, Row(f, y), Row(g, y));
    }
    SumExt(ny, RowSums(nx, f), RowSums(nx, g));
  }

  /** Grid sums are additive. */
  lemma GridAdd(nx: int, ny: int, f: (int, int) -> real, g: (int, int) -> real, h: (int, int) -> real)
    requires forall x, y :: 0 <= x < nx && 0 <= y < ny ==> h(x, y) == f(x, y) + g(x, y)
    ensures GridSum(nx, ny, h) == GridSum(nx, ny, f) + GridSum(nx, ny, g)
  {
    forall y | 0 <= y < ny
      ensures Sum(nx, Row(h, y)) == Sum(nx, Row(f, y)) + Sum(nx, Row(g, y))
    {
      SumAdd(nx, Row(f, y), Row(g, y), Row(h, y));
    }
    SumAdd(ny, RowSums(nx, f), RowSums(nx, g), RowSums(nx, h));
  }

  /** Grid sums of a four-term sum. */
  lemma GridAdd4(nx: int, ny: int, f1: (int, int) -> real, f2: (int, int) -> real,
                 f3: (int, int) -> real, f4: (int, int) -> real, h: (int, int) -> real)
    requires forall x, y :: 0 <= x < nx && 0 <= y < ny ==> h(x, y) == f1(x, y) + f2(x, y) + f3(x, y) + f4(x, y)
    ensures GridSum(nx, ny, h) == GridSum(nx, ny, f1) + GridSum(nx, ny, f2) + GridSum(nx, ny, f3) + GridSum(nx, ny, f4)
  {
    var g12 := (x, y) => f1(x, y) + f2(x, y);
    var g123 := (x, y) => g12(x, y) + f3(x, y);
    GridAdd(nx, ny, f1, f2, g12);
    GridAdd(nx, ny, g12, f3, g123);
    GridAdd(nx, ny, g123, f4, h);
  }

  /** h == a*f + b*g on the nx-by-ny grid. */
  ghost predicate LinearComb(nx: int, ny: int, a: real, f: (int, int) -> real, b: real, g: (int, int) -> real,
                             h: (int, int) -> real)
  {
    forall x, y :: 0 <= x < nx && 0 <= y < ny ==> h(x, y) == a * f(x, y) + b * g(x, y)
  }

  /** Grid sums are linear. */
  lemma GridLinear(nx: int, ny: int, a: real, f: (int, int) -> real, b: real, g: (int, int) -> real,
                   h: (int, int) -> real)
    requires LinearComb(nx, ny, a, f, b, g, h)
    ensures GridSum(nx, ny, h) == a * GridSum(nx, ny, f) + b * GridSum(nx, ny, g)
  {
    forall y | 0 <= y < ny
      ensures RowSums(nx, h)(y) == a * RowSums(nx, f)(y) + b * RowSums(nx, g)(y)
    {
      RowLinear(nx, ny, a, f, b, g, h, y);
    }
    SumLinear(ny, a, RowSums(nx, f), b, RowSums(nx, g), RowSums(nx, h));
  }

  /** Row y of GridLinear. */
  lemma RowLinear(nx: int, ny: int, a: real, f: (int, int) -> real, b: real, g: (int, int) -> real,
                  h: (int, int) -> real, y: int)
    requires LinearComb(nx, ny, a, f, b, g, h) && 0 <= y < ny
    ensures RowSums(nx, h)(y) == a * RowSums(nx, f)(y) + b * RowSums(nx, g)(y)
  {
    SumLinear(nx, a, Row(f, y), b, Row(g, y), Row(h, y));
  }

  /** Rows whose sums cancel give grid sums that cancel. */
  lemma GridCancel(nx: int, ny: int, f: (int, int) -> real, g: (int, int) -> real)
    requires forall y :: 0 <= y < ny ==> Sum(nx, Row(f, y)) + Sum(nx, Row(g, y)) == 0.0
    ensures GridSum(nx, ny, f) + GridSum(nx, ny, g) == 0.0
  {
    SumCancel(ny, RowSums(nx, f), RowSums(nx, g));
  }

  /** Exchange of the two sums of a grid (discrete Fubini). */
  lemma {:induction false} GridTranspose(nx: int, ny: int, f: (int, int) -> real)
    requires 0 <= nx
    ensures GridSum(nx, ny, f) == GridSum(ny, nx, Transpose(f))
    decreases ny
  {
    if ny <= 0 {
      SumZero(nx, RowSums(ny, Transpose(f)));
    } else {
      GridTranspose(nx, ny - 1, f);
      forall x | 0 <= x < nx
        ensures RowSums(ny, Transpose(f))(x) == RowSums(ny - 1, Transpose(f))(x) + Row(f, ny - 1)(x)
      {
      }
      SumAdd(nx, RowSums(ny - 1, Transpose(f)), Row(f, ny - 1), RowSums(ny, Transpose(f)));
    }
  }

  /** Appending values that are zero does not change a sum: f vanishes between m and n. */
  lemma {:induction false} SumPad(m: int, n: int, f: int -> real)
    requires 0 <= m <= n
    requires forall k :: m <= k < n ==> f(k) == 0.0
    ensures Sum(n, f) == Sum(m, f)
    decreases n
  {
    if m < n {
      SumPad(m, n - 1, f);
    }
  }

  /** A function that can be non-zero only at p and p + 1 sums to those two values
      (each counted when it lies in [0, n)). */
  lemma {:induction false} SumTwo(n: int, p: int, f: int -> real)
    requires forall k :: 0 <= k < n && k != p && k != p + 1 ==> f(k) == 0.0
    ensures Sum(n, f) == (if 0 <= p < n then f(p) else 0.0) + (if 0 <= p + 1 < n then f(p + 1) else 0.0)
    decreases n
  {
    if n > 0 {
      SumTwo(n - 1, p, f);
    }
  }

  /** h == c*f on the nx-by-ny grid. */
  ghost predicate Scaled(nx: int, ny: int, c: real, f: (int, int) -> real, h: (int, int) -> real)
  {
    forall x, y :: 0 <= x < nx && 0 <= y < ny ==> h(x, y) == c * f(x, y)
  }

  /** A constant factor comes out of a grid sum. */
  lemma GridScale(nx: int, ny: int, c: real, f: (int, int) -> real, h: (int, int) -> real)
    requires Scaled(nx, ny, c, f, h)
    ensures GridSum(nx, ny, h) == c * GridSum(nx, ny, f)
  {
    forall y | 0 <= y < ny
      ensures Sum(nx, Row(h, y)) == c * Sum(nx, Row(f, y))
    {
      SumScale(nx, c, Row(f, y), Row(h, y));
    }
    SumScale(ny, c, RowSums(nx, f), RowSums(nx, h));
  }

  /** Slice a of a family of grid functions. */
  function Slice(G: (int, int, int) -> real, a: int): (int, int) -> real
  {
    (x, y) => G(a, x, y)
  }

  /** The grid sums of the slices of G, as a function of the slice. */
  function SliceSums(nx: int, ny: int, G: (int, int, int) -> real): int -> real
  {
    a => GridSum(nx, ny, Slice(G, a))
  }

  /** The values of G at pixel (x, y), as a function of the slice. */
  function Fibre(G: (int, int, int) -> real, x: int, y: int): int -> real
  {
    a => G(a, x, y)
  }

  /** The pixelwise sums of the first n slices of G. */
  function FibreSums(n: int, G: (int, int, int) -> real): (int, int) -> real
  {
    (x, y) => Sum(n, Fibre(G, x, y))
  }

  /** Summing grid sums over n slices is the grid sum of the pixelwise sums. */
  lemma {:induction false} SumOfGridSums(n: int, nx: int, ny: int, G: (int, int, int) -> real)
    ensures Sum(n, SliceSums(nx, ny, G)) == GridSum(nx, ny, FibreSums(n, G))
    decreases n
  {
    if n <= 0 {
      forall y | 0 <= y < ny
        ensures Sum(nx, Row(FibreSums(n, G), y)) == 0.0
      {
        SumZero(nx, Row(FibreSums(n, G), y));
      }
      SumZero(ny, RowSums(nx, FibreSums(n, G)));
    } else {
      SumOfGridSums(n - 1, nx, ny, G);
      GridAdd(nx, ny, FibreSums(n - 1, G), Slice(G, n - 1), FibreSums(n, G));
    }
  }

  /** Pair (a, b) of a four-index function, as a grid function of (c, d). */
  function Inner4(F: (int, int, int, int) -> real, a: int, b: int): (int, int) -> real
  {
    (c, d) => F(a, b, c, d)
  }

  /** Pair (c, d) of a four-index function, as a grid function of (a, b). */
  function Outer4(F: (int, int, int, int) -> real, c: int, d: int): (int, int) -> real
  {
    (a, b) => F(a, b, c, d)
  }

  /** The grid sums over (c, d), as a grid function of (a, b). */
  function InnerSums(m1: int, m2: int, F: (int, int, int, int) -> real): (int, int) -> real
  {
    (a, b) => GridSum(m1, m2, Inner4(F, a, b))
  }

  /** The grid sums over (a, b), as a grid function of (c, d). */
  function OuterSums(n1: int, n2: int, F: (int, int, int, int) -> real): (int, int) -> real
  {
    (c, d) => GridSum(n1, n2, Outer4(F, c, d))
  }

  /** F with its second index fixed at b, as a family of grid functions over (c, d)
      indexed by a. */
  function FixSecond(F: (int, int, int, int) -> real, b: int): (int, int, int) -> real
  {
    (a, c, d) => F(a, b, c, d)
  }

  /** The sums over a of F, as a family of grid functions over (c, d) indexed by b. */
  function SumFirst(n1: int, F: (int, int, int, int) -> real): (int, int, int) -> real
  {
    (b, c, d) => Sum(n1, Fibre(FixSecond(F, b), c, d))
  }

  /** Exchange of two grid sums (discrete Fubini over four indices). */
  lemma GridSwap(n1: int, n2: int, m1: int, m2: int, F: (int, int, int, int) -> real)
    ensures GridSum(n1, n2, InnerSums(m1, m2, F)) == GridSum(m1, m2, OuterSums(n1, n2, F))
  {
    forall b | 0 <= b < n2
      ensures Sum(n1, Row(InnerSums(m1, m2, F), b)) == GridSum(m1, m2, Slice(SumFirst(n1, F), b))
    {
      forall a | 0 <= a < n1
        ensures Row(InnerSums(m1, m2, F), b)(a) == SliceSums(m1, m2, FixSecond(F, b))(a)
      {
        GridExt(m1, m2, Inner4(F, a, b), Slice(FixSecond(F, b), a));
      }
      SumExt(n1, Row(InnerSums(m1, m2, F), b), SliceSums(m1, m2, FixSecond(F, b)));
      SumOfGridSums(n1, m1, m2, FixSecond(F, b));
      GridExt(m1, m2, FibreSums(n1, FixSecond(F, b)), Slice(SumFirst(n1, F), b));
    }
    SumExt(n2, RowSums(n1, InnerSums(m1, m2, F)), SliceSums(m1, m2, SumFirst(n1, F)));
    SumOfGridSums(n2, m1, m2, SumFirst(n1, F));
    forall c, d | 0 <= c < m1 && 0 <= d < m2
      ensures FibreSums(n2, SumFirst(n1, F))(c, d) == OuterSums(n1, n2, F)(c, d)
    {
      forall b | 0 <= b < n2
        ensures Fibre(SumFirst(n1, F), c, d)(b) == RowSums(n1, Outer4(F, c, d))(b)
      {
        SumExt(n1, Fibre(FixSecond(F, b), c, d), Row(Outer4(F, c, d), b));
      }
      SumExt(n2, Fibre(SumFirst(n1, F), c, d), RowSums(n1, Outer4(F, c, d)));
    }
    GridExt(m1, m2, FibreSums(n2, SumFirst(n1, F)), OuterSums(n1, n2, F));
  }
}
