/** Single-precision complex samples (float2) as pairs of reals: .x is the real part,
    .y the imaginary part. */
module Complex {
  import opened Sums

  datatype C = C(re: real, im: real)

  const Zero := C(0.0, 0.0)

  function Add(a: C, b: C): C
  {
    C(a.re + b.re, a.im + b.im)
  }

  /** Zero is the unit of the sum. */
  lemma AddZero(a: C)
    ensures Add(Zero, a) == a && Add(a, Zero) == a
  {
  }

  /** The difference, lane by lane. */
  function Sub(a: C, b: C): C
  {
    C(a.re - b.re, a.im - b.im)
  }

  /** A real multiple of a complex value. */
  function Scale(t: real, a: C): C
  {
    C(t * a.re, t * a.im)
  }

  /** The squared modulus |a|^2. */
  function AbsSq(a: C): (r: real)
    ensures 0.0 <= r
  {
    a.re * a.re + a.im * a.im
  }

  lemma ScaleOne(a: C)
    ensures Scale(1.0, a) == a
  {
  }

  /** Scaling by t scales the squared modulus by t^2. */
  lemma AbsSqScale(t: real, a: C)
    ensures AbsSq(Scale(t, a)) == t * t * AbsSq(a)
  {
  }

  /** Entry i of a complex buffer, zero outside it. */
  function CAt(s: seq<C>, i: int): C
  {
    if 0 <= i < |s| then s[i] else Zero
  }

  /** The product the kernels write out lane by lane. */
  function Mul(a: C, b: C): C
  {
    C(a.re * b.re - a.im * b.im, a.re * b.im + a.im * b.re)
  }

  function Conj(a: C): C
  {
    C(a.re, -a.im)
  }

  lemma MulComm(a: C, b: C)
    ensures Mul(a, b) == Mul(b, a)
  {
  }

  lemma MulAssoc(a: C, b: C, c: C)
    ensures Mul(Mul(a, b), c) == Mul(a, Mul(b, c))
  {
  }

  /** Conjugation turns a product into the product of the conjugates. */
  lemma ConjMul(a: C, b: C)
    ensures Conj(Mul(a, b)) == Mul(Conj(a), Conj(b))
  {
  }

  /** A real factor on either side of a product comes out of it. */
  lemma ScaleMul(k: real, a: C, b: C)
    ensures Mul(Scale(k, a), b) == Scale(k, Mul(a, b))
    ensures Mul(a, Scale(k, b)) == Scale(k, Mul(a, b))
  {
    assert (k * a.re) * b.re - (k * a.im) * b.im == k * (a.re * b.re - a.im * b.im);
    assert (k * a.re) * b.im + (k * a.im) * b.re == k * (a.re * b.im + a.im * b.re);
    assert a.re * (k * b.re) - a.im * (k * b.im) == k * (a.re * b.re - a.im * b.im);
    assert a.re * (k * b.im) + a.im * (k * b.re) == k * (a.re * b.im + a.im * b.re);
  }

  /** A real multiple of a sum is the sum of the multiples. */
  lemma ScaleAdd(k: real, a: C, b: C)
    ensures Scale(k, Add(a, b)) == Add(Scale(k, a), Scale(k, b))
  {
    assert k * (a.re + b.re) == k * a.re + k * b.re;
    assert k * (a.im + b.im) == k * a.im + k * b.im;
  }

  /** One is the unit of the product. */
  lemma MulOne(a: C)
    ensures Mul(C(1.0, 0.0), a) == a
  {
  }

  /** Two real factors in a row are their product. */
  lemma ScaleScale(k: real, l: real, a: C)
    ensures Scale(k, Scale(l, a)) == Scale(k * l, a)
  {
    assert k * (l * a.re) == (k * l) * a.re;
    assert k * (l * a.im) == (k * l) * a.im;
  }

  function Neg(a: C): C
  {
    C(-a.re, -a.im)
  }

  /** A real multiple of the negation is the multiple by the negated factor. */
  lemma ScaleNeg(k: real, a: C)
    ensures Scale(k, Neg(a)) == Scale(-k, a)
  {
  }

  /** The product is linear in its left factor. */
  lemma MulAddLeft(a: C, h: C, b: C)
    ensures Sub(Mul(Add(a, h), b), Mul(a, b)) == Mul(h, b)
    ensures Add(Mul(a, b), Mul(h, b)) == Mul(Add(a, h), b)
  {
    assert (a.re + h.re) * b.re == a.re * b.re + h.re * b.re;
    assert (a.im + h.im) * b.im == a.im * b.im + h.im * b.im;
    assert (a.re + h.re) * b.im == a.re * b.im + h.re * b.im;
    assert (a.im + h.im) * b.re == a.im * b.re + h.im * b.re;
  }

  /** The product distributes over a sum in its right factor. */
  lemma MulDistAdd(a: C, b: C, c: C)
    ensures Mul(a, Add(b, c)) == Add(Mul(a, b), Mul(a, c))
    ensures Sub(Mul(a, Add(b, c)), Mul(a, b)) == Mul(a, c)
  {
    assert a.re * (b.re + c.re) == a.re * b.re + a.re * c.re;
    assert a.im * (b.im + c.im) == a.im * b.im + a.im * c.im;
    assert a.re * (b.im + c.im) == a.re * b.im + a.re * c.im;
    assert a.im * (b.re + c.re) == a.im * b.re + a.im * c.re;
  }

  /** The two left factors of a triple product can be exchanged. */
  lemma MulLeftSwap(a: C, h: C, d: C)
    ensures Mul(a, Mul(h, d)) == Mul(h, Mul(a, d))
  {
    MulAssoc(a, h, d);
    MulComm(a, h);
    MulAssoc(h, a, d);
  }

  /** A common right factor comes out of a difference. */
  lemma MulSubRight(a: C, b: C, c: C)
    ensures Sub(Mul(a, c), Mul(b, c)) == Mul(Sub(a, b), c)
  {
    assert (a.re - b.re) * c.re == a.re * c.re - b.re * c.re;
    assert (a.im - b.im) * c.im == a.im * c.im - b.im * c.im;
    assert (a.re - b.re) * c.im == a.re * c.im - b.re * c.im;
    assert (a.im - b.im) * c.re == a.im * c.re - b.im * c.re;
  }

  /** Sum of the first n terms of a complex sequence, lane by lane. */
  function CSum(n: int, f: int -> C): C
  {
    C(Sum(n, ReOf(f)), Sum(n, ImOf(f)))
  }

  function ReOf(f: int -> C): int -> real
  {
    k => f(k).re
  }

  function ImOf(f: int -> C): int -> real
  {
    k => f(k).im
  }

  /** The sum of n + 1 terms adds the last one. */
  lemma CSumStep(n: int, f: int -> C)
    requires 0 <= n
    ensures CSum(n + 1, f) == Add(CSum(n, f), f(n))
  {
  }

  lemma CSumEmpty(n: int, f: int -> C)
    requires n <= 0
    ensures CSum(n, f) == Zero
  {
  }

  lemma CSumExt(n: int, f: int -> C, g: int -> C)
    requires forall k :: 0 <= k < n ==> f(k) == g(k)
    ensures CSum(n, f) == CSum(n, g)
  {
    SumExt(n, ReOf(f), ReOf(g));
    SumExt(n, ImOf(f), ImOf(g));
  }

  lemma CSumZero(n: int, f: int -> C)
    requires forall k :: 0 <= k < n ==> f(k) == Zero
    ensures CSum(n, f) == Zero
  {
    SumZero(n, ReOf(f));
    SumZero(n, ImOf(f));
  }

  /** Sum of terms that are sums of two terms. */
  lemma CSumAdd(n: int, f: int -> C, g: int -> C, h: int -> C)
    requires forall k :: 0 <= k < n ==> h(k) == Add(f(k), g(k))
    ensures CSum(n, h) == Add(CSum(n, f), CSum(n, g))
  {
    SumAdd(n, ReOf(f), ReOf(g), ReOf(h));
    SumAdd(n, ImOf(f), ImOf(g), ImOf(h));
  }

  /** The lanes of y = x * c as linear combinations of the lanes of x. */
  lemma MulLanes(x: C, c: C, y: C)
    requires y == Mul(x, c) || y == Mul(c, x)
    ensures y.re == c.re * x.re + -c.im * x.im
    ensures y.im == c.im * x.re + c.re * x.im
  {
  }

  /** The lanes of the products f(k) * c as linear combinations of the lanes of f. */
  lemma MulLanesAll(n: int, f: int -> C, c: C, h: int -> C)
    requires forall k :: 0 <= k < n ==> h(k) == Mul(f(k), c) || h(k) == Mul(c, f(k))
    ensures Lin(n, c.re, ReOf(f), -c.im, ImOf(f), ReOf(h))
    ensures Lin(n, c.im, ReOf(f), c.re, ImOf(f), ImOf(h))
  {
    forall k | 0 <= k < n
      ensures ReOf(h)(k) == c.re * ReOf(f)(k) + -c.im * ImOf(f)(k)
      ensures ImOf(h)(k) == c.im * ReOf(f)(k) + c.re * ImOf(f)(k)
    {
      MulLanes(f(k), c, h(k));
    }
  }

  /** A common right factor comes out of a sum. */
  lemma CSumMulRight(n: int, f: int -> C, c: C, h: int -> C)
    requires forall k :: 0 <= k < n ==> h(k) == Mul(f(k), c)
    ensures CSum(n, h) == Mul(CSum(n, f), c)
  {
    MulLanesAll(n, f, c, h);
    SumLinearBy(n, c.re, ReOf(f), -c.im, ImOf(f), ReOf(h));
    SumLinearBy(n, c.im, ReOf(f), c.re, ImOf(f), ImOf(h));
    MulLanes(CSum(n, f), c, Mul(CSum(n, f), c));
  }

  /** A common left factor comes out of a sum. */
  lemma CSumMulLeft(n: int, c: C, f: int -> C, h: int -> C)
    requires forall k :: 0 <= k < n ==> h(k) == Mul(c, f(k))
    ensures CSum(n, h) == Mul(c, CSum(n, f))
  {
    MulLanesAll(n, f, c, h);
    SumLinearBy(n, c.re, ReOf(f), -c.im, ImOf(f), ReOf(h));
    SumLinearBy(n, c.im, ReOf(f), c.re, ImOf(f), ImOf(h));
    MulLanes(CSum(n, f), c, Mul(c, CSum(n, f)));
  }

  /** The conjugate of a sum is the sum of the conjugates. */
  lemma CSumConj(n: int, f: int -> C, h: int -> C)
    requires forall k :: 0 <= k < n ==> h(k) == Conj(f(k))
    ensures CSum(n, h) == Conj(CSum(n, f))
  {
    SumExt(n, ReOf(h), ReOf(f));
    SumScale(n, -1.0, ImOf(f), ImOf(h));
  }

  /** Row a of a two-index family, as a function of b. */
  function RowC(F: (int, int) -> C, a: int): int -> C
  {
    b => F(a, b)
  }

  /** Column b of a two-index family, as a function of a. */
  function ColC(F: (int, int) -> C, b: int): int -> C
  {
    a => F(a, b)
  }

  /** The sums of the first m entries of every row. */
  function RowCSums(m: int, F: (int, int) -> C): int -> C
  {
    a => CSum(m, RowC(F, a))
  }

  /** The sums of the first n entries of every column. */
  function ColCSums(n: int, F: (int, int) -> C): int -> C
  {
    b => CSum(n, ColC(F, b))
  }

  /** Real lane of a two-index family, with the column index first. */
  function ReCols(F: (int, int) -> C): (int, int) -> real
  {
    (b, a) => F(a, b).re
  }

  function ImCols(F: (int, int) -> C): (int, int) -> real
  {
    (b, a) => F(a, b).im
  }

  /** Exchange of two finite real sums written with rows and columns of a family. */
  lemma LaneSwap(n: int, m: int, G: (int, int) -> real, rows: int -> real, cols: int -> real)
    requires 0 <= m
    requires forall a :: 0 <= a < n ==> rows(a) == Sum(m, Row(G, a))
    requires forall b :: 0 <= b < m ==> cols(b) == Sum(n, Row(Transpose(G), b))
    ensures Sum(n, rows) == Sum(m, cols)
  {
    SumExt(n, rows, RowSums(m, G));
    GridTranspose(m, n, G);
    SumExt(m, cols, RowSums(n, Transpose(G)));
  }

  /** Exchange of two finite complex sums. */
  lemma CSumSwap(n: int, m: int, F: (int, int) -> C)
    requires 0 <= m
    ensures CSum(n, RowCSums(m, F)) == CSum(m, ColCSums(n, F))
  {
    forall a | 0 <= a < n
      ensures ReOf(RowCSums(m, F))(a) == Sum(m, Row(ReCols(F), a))
      ensures ImOf(RowCSums(m, F))(a) == Sum(m, Row(ImCols(F), a))
    {
      SumExt(m, ReOf(RowC(F, a)), Row(ReCols(F), a));
      SumExt(m, ImOf(RowC(F, a)), Row(ImCols(F), a));
    }
    forall b | 0 <= b < m
      ensures ReOf(ColCSums(n, F))(b) == Sum(n, Row(Transpose(ReCols(F)), b))
      ensures ImOf(ColCSums(n, F))(b) == Sum(n, Row(Transpose(ImCols(F)), b))
    {
      SumExt(n, ReOf(ColC(F, b)), Row(Transpose(ReCols(F)), b));
      SumExt(n, ImOf(ColC(F, b)), Row(Transpose(ImCols(F)), b));
    }
    LaneSwap(n, m, ReCols(F), ReOf(RowCSums(m, F)), ReOf(ColCSums(n, F)));
    LaneSwap(n, m, ImCols(F), ImOf(RowCSums(m, F)), ImOf(ColCSums(n, F)));
  }

  /** Exchange of two finite complex sums, the rows and columns given pointwise. */
  lemma CSumSwapBy(n: int, m: int, F: (int, int) -> C, rows: int -> C, cols: int -> C)
    requires 0 <= m
    requires forall a :: 0 <= a < n ==> rows(a) == CSum(m, RowC(F, a))
    requires forall b :: 0 <= b < m ==> cols(b) == CSum(n, ColC(F, b))
    ensures CSum(n, rows) == CSum(m, cols)
  {
    CSumExt(n, rows, RowCSums(m, F));
    CSumSwap(n, m, F);
    CSumExt(m, cols, ColCSums(n, F));
  }

  /** A sum of one term is that term. */
  lemma CSumOne(f: int -> C)
    ensures CSum(1, f) == f(0)
  {
    CSumStep(0, f);
  }
}
