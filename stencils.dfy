/** Grid sums and the one-dimensional summation-by-parts identities behind every
    gradient/divergence pair of the reconstruction: a forward difference that is
    zero on the last index against its divergence, and a backward difference that
    is zero on the first index against its divergence. */
module Stencils {
  import opened Sums

  /** Column x of a grid function, as a function of the row. */
  function Col(f: (int, int) -> real, x: int): int -> real
  {
    y => f(x, y)
  }

  /** Forward difference along one axis, zero at the last index. */
  function FwdDiff(n: int, a: int -> real, k: int): real
  {
    if k < n - 1 then a(k + 1) - a(k) else 0.0
  }

  /** The negative adjoint of FwdDiff. */
  function FwdDiv(n: int, b: int -> real, k: int): real
  {
    (if k < n - 1 then b(k) else 0.0) - (if k > 0 then b(k - 1) else 0.0)
  }

  /** Backward difference along one axis, zero at the first index. */
  function BwdDiff(a: int -> real, k: int): real
  {
    if k > 0 then a(k) - a(k - 1) else 0.0
  }

  /** The negative adjoint of BwdDiff. */
  function BwdDiv(n: int, b: int -> real, k: int): real
  {
    (if k < n - 1 then b(k + 1) else 0.0) - (if k > 0 then b(k) else 0.0)
  }

  /** Distributing a factor over a difference. */
  lemma Distrib(x: real, y: real, z: real)
    ensures (x - y) * z == x * z - y * z
    ensures z * (x - y) == z * x - z * y
  {
  }

  /** h cut off at the last index. */
  function Lo(n: int, h: int -> real): int -> real
  {
    k => if k < n - 1 then h(k) else 0.0
  }

  /** h(k - 1), zero at the first index. */
  function HiAt(h: int -> real, k: int): real
  {
    if k > 0 then h(k - 1) else 0.0
  }

  /** h shifted up by one index, zero at the first. */
  function Hi(h: int -> real): int -> real
  {
    k => HiAt(h, k)
  }

  /** h cut off at the first index. */
  function Tail(h: int -> real): int -> real
  {
    k => if k > 0 then h(k) else 0.0
  }

  /** The unit shift moves between Lo and Hi without changing the sum. */
  lemma LoHi(n: int, h: int -> real)
    ensures Sum(n, Lo(n, h)) == Sum(n, Hi(h))
  {
    SumShift(n, h, Lo(n, h), Hi(h));
  }

  /** Summation by parts with h(k) standing for a(k + 1) * b(k) and d(k) for a(k) * b(k). */
  lemma FwdParts(n: int, h: int -> real, d: int -> real, lhs: int -> real, rhs: int -> real)
    requires forall k {:trigger lhs(k)} :: 0 <= k < n ==>
      lhs(k) == (if k < n - 1 then h(k) - d(k) else 0.0)
    requires forall k {:trigger rhs(k)} :: 0 <= k < n ==>
      rhs(k) == (if k < n - 1 then d(k) else 0.0) - (if k > 0 then h(k - 1) else 0.0)
    ensures Sum(n, lhs) + Sum(n, rhs) == 0.0
  {
    LoHi(n, h);
    SumSub(n, Lo(n, h), Lo(n, d), lhs);
    SumSub(n, Lo(n, d), Hi(h), rhs);
  }

  /** Summation by parts with h(k) standing for a(k) * b(k + 1) and d(k) for a(k) * b(k). */
  lemma BwdParts(n: int, h: int -> real, d: int -> real, lhs: int -> real, rhs: int -> real)
    requires forall k {:trigger lhs(k)} :: 0 <= k < n ==>
      lhs(k) == (if k > 0 then d(k) - h(k - 1) else 0.0)
    requires forall k {:trigger rhs(k)} :: 0 <= k < n ==>
      rhs(k) == (if k < n - 1 then h(k) else 0.0) - (if k > 0 then d(k) else 0.0)
    ensures Sum(n, lhs) + Sum(n, rhs) == 0.0
  {
    LoHi(n, h);
    SumSub(n, Tail(d), Hi(h), lhs);
    SumSub(n, Lo(n, h), Tail(d), rhs);
  }

  /** The pointwise product a(k) * b(k). */
  function Prod(a: int -> real, b: int -> real): int -> real
  {
    k => a(k) * b(k)
  }

  /** a(k + 1) * b(k). Index arithmetic stays out of lambda bodies: a lambda whose
      body applies a function to k + 1 makes the verifier's instantiation loop. */
  function ProdShiftedAt(a: int -> real, b: int -> real, k: int): real
  {
    a(k + 1) * b(k)
  }

  /** The product a(k + 1) * b(k) of a shifted by one against b. */
  function ProdShifted(a: int -> real, b: int -> real): int -> real
  {
    k => ProdShiftedAt(a, b, k)
  }

  /** A value v equal to FwdDiff(a)(k) * b(k) is a difference of products. */
  lemma FwdDiffProduct(n: int, a: int -> real, b: int -> real, k: int, v: real)
    requires v == FwdDiff(n, a, k) * b(k)
    ensures v == (if k < n - 1 then ProdShifted(a, b)(k) - Prod(a, b)(k) else 0.0)
  {
    if k < n - 1 {
      Distrib(a(k + 1), a(k), b(k));
    }
  }

  /** A value v equal to a(k) * FwdDiv(b)(k) is a difference of products. */
  lemma FwdDivProduct(n: int, a: int -> real, b: int -> real, k: int, v: real)
    requires v == a(k) * FwdDiv(n, b, k)
    ensures v == (if k < n - 1 then Prod(a, b)(k) else 0.0) - (if k > 0 then ProdShifted(a, b)(k - 1) else 0.0)
  {
    var lo, hi := (if k < n - 1 then b(k) else 0.0), (if k > 0 then b(k - 1) else 0.0);
    Distrib(lo, hi, a(k));
    assert a(k) * lo == (if k < n - 1 then Prod(a, b)(k) else 0.0);
    assert a(k) * hi == (if k > 0 then ProdShifted(a, b)(k - 1) else 0.0);
  }

  /** A value v equal to BwdDiff(a)(k) * b(k) is a difference of products. */
  lemma BwdDiffProduct(a: int -> real, b: int -> real, k: int, v: real)
    requires v == BwdDiff(a, k) * b(k)
    ensures v == (if k > 0 then Prod(a, b)(k) - ProdShifted(b, a)(k - 1) else 0.0)
  {
    if k > 0 {
      Distrib(a(k), a(k - 1), b(k));
    }
  }

  /** A value v equal to a(k) * BwdDiv(b)(k) is a difference of products. */
  lemma BwdDivProduct(n: int, a: int -> real, b: int -> real, k: int, v: real)
    requires v == a(k) * BwdDiv(n, b, k)
    ensures v == (if k < n - 1 then ProdShifted(b, a)(k) else 0.0) - (if k > 0 then Prod(a, b)(k) else 0.0)
  {
    var lo, hi := (if k < n - 1 then b(k + 1) else 0.0), (if k > 0 then b(k) else 0.0);
    Distrib(lo, hi, a(k));
    assert a(k) * lo == (if k < n - 1 then ProdShifted(b, a)(k) else 0.0);
    assert a(k) * hi == (if k > 0 then Prod(a, b)(k) else 0.0);
  }

  /** The sum of FwdDiff(a) * b as a difference of sums of products. */
  lemma FwdDiffProducts(n: int, a: int -> real, b: int -> real, lhs: int -> real)
    requires forall k {:trigger lhs(k)} :: 0 <= k < n ==> lhs(k) == FwdDiff(n, a, k) * b(k)
    ensures Sum(n, lhs) == Sum(n, Lo(n, ProdShifted(a, b))) - Sum(n, Lo(n, Prod(a, b)))
  {
    forall k {:trigger lhs(k)} | 0 <= k < n
      ensures lhs(k) == Lo(n, ProdShifted(a, b))(k) - Lo(n, Prod(a, b))(k)
    {
      FwdDiffProduct(n, a, b, k, lhs(k));
    }
    SumSub(n, Lo(n, ProdShifted(a, b)), Lo(n, Prod(a, b)), lhs);
  }

  /** The sum of a * FwdDiv(b) as a difference of sums of products. */
  lemma FwdDivProducts(n: int, a: int -> real, b: int -> real, rhs: int -> real)
    requires forall k {:trigger rhs(k)} :: 0 <= k < n ==> rhs(k) == a(k) * FwdDiv(n, b, k)
    ensures Sum(n, rhs) == Sum(n, Lo(n, Prod(a, b))) - Sum(n, Hi(ProdShifted(a, b)))
  {
    forall k {:trigger rhs(k)} | 0 <= k < n
      ensures rhs(k) == Lo(n, Prod(a, b))(k) - Hi(ProdShifted(a, b))(k)
    {
      FwdDivProduct(n, a, b, k, rhs(k));
    }
    SumSub(n, Lo(n, Prod(a, b)), Hi(ProdShifted(a, b)), rhs);
  }

  /** The sum of BwdDiff(a) * b as a difference of sums of products. */
  lemma BwdDiffProducts(n: int, a: int -> real, b: int -> real, lhs: int -> real)
    requires forall k {:trigger lhs(k)} :: 0 <= k < n ==> lhs(k) == BwdDiff(a, k) * b(k)
    ensures Sum(n, lhs) == Sum(n, Tail(Prod(a, b))) - Sum(n, Hi(ProdShifted(b, a)))
  {
    forall k {:trigger lhs(k)} | 0 <= k < n
      ensures lhs(k) == Tail(Prod(a, b))(k) - Hi(ProdShifted(b, a))(k)
    {
      BwdDiffProduct(a, b, k, lhs(k));
    }
    SumSub(n, Tail(Prod(a, b)), Hi(ProdShifted(b, a)), lhs);
  }

  /** The sum of a * BwdDiv(b) as a difference of sums of products. */
  lemma BwdDivProducts(n: int, a: int -> real, b: int -> real, rhs: int -> real)
    requires forall k {:trigger rhs(k)} :: 0 <= k < n ==> rhs(k) == a(k) * BwdDiv(n, b, k)
    ensures Sum(n, rhs) == Sum(n, Lo(n, ProdShifted(b, a))) - Sum(n, Tail(Prod(a, b)))
  {
    forall k {:trigger rhs(k)} | 0 <= k < n
      ensures rhs(k) == Lo(n, ProdShifted(b, a))(k) - Tail(Prod(a, b))(k)
    {
      BwdDivProduct(n, a, b, k, rhs(k));
    }
    SumSub(n, Lo(n, ProdShifted(b, a)), Tail(Prod(a, b)), rhs);
  }

  /** sum_k FwdDiff(a)(k) * b(k) + sum_k a(k) * FwdDiv(b)(k) == 0. */
  lemma FwdAdjoint1(n: int, a: int -> real, b: int -> real, lhs: int -> real, rhs: int -> real)
    requires forall k {:trigger lhs(k)} :: 0 <= k < n ==> lhs(k) == FwdDiff(n, a, k) * b(k)
    requires forall k {:trigger rhs(k)} :: 0 <= k < n ==> rhs(k) == a(k) * FwdDiv(n, b, k)
    ensures Sum(n, lhs) + Sum(n, rhs) == 0.0
  {
    FwdDiffProducts(n, a, b, lhs);
    FwdDivProducts(n, a, b, rhs);
    LoHi(n, ProdShifted(a, b));
  }

  /** sum_k BwdDiff(a)(k) * b(k) + sum_k a(k) * BwdDiv(b)(k) == 0. */
  lemma BwdAdjoint1(n: int, a: int -> real, b: int -> real, lhs: int -> real, rhs: int -> real)
    requires forall k {:trigger lhs(k)} :: 0 <= k < n ==> lhs(k) == BwdDiff(a, k) * b(k)
    requires forall k {:trigger rhs(k)} :: 0 <= k < n ==> rhs(k) == a(k) * BwdDiv(n, b, k)
    ensures Sum(n, lhs) + Sum(n, rhs) == 0.0
  {
    BwdDiffProducts(n, a, b, lhs);
    BwdDivProducts(n, a, b, rhs);
    LoHi(n, ProdShifted(b, a));
  }

  /** On the grid, lhs is the forward difference along x of a times b and rhs is a times
      the matching divergence of b. */
  ghost predicate FwdPairX(nx: int, ny: int, a: (int, int) -> real, b: (int, int) -> real,
                 lhs: (int, int) -> real, rhs: (int, int) -> real)
  {
    (forall x, y {:trigger lhs(x, y)} :: 0 <= x < nx && 0 <= y < ny ==>
       lhs(x, y) == FwdDiff(nx, Row(a, y), x) * b(x, y)) &&
    (forall x, y {:trigger rhs(x, y)} :: 0 <= x < nx && 0 <= y < ny ==>
       rhs(x, y) == a(x, y) * FwdDiv(nx, Row(b, y), x))
  }

  /** Forward difference along x (the column index) against its divergence, on a grid. */
  lemma FwdAdjointX(nx: int, ny: int, a: (int, int) -> real, b: (int, int) -> real,
                    lhs: (int, int) -> real, rhs: (int, int) -> real)
    requires FwdPairX(nx, ny, a, b, lhs, rhs)
    ensures GridSum(nx, ny, lhs) + GridSum(nx, ny, rhs) == 0.0
  {
    forall y {:trigger Row(lhs, y)} | 0 <= y < ny
      ensures Sum(nx, Row(lhs, y)) + Sum(nx, Row(rhs, y)) == 0.0
    {
      FwdAdjoint1(nx, Row(a, y), Row(b, y), Row(lhs, y), Row(rhs, y));
    }
    GridCancel(nx, ny, lhs, rhs);
  }

  /** On the grid, lhs is the backward difference along x of a times b and rhs is a times
      the matching divergence of b. */
  ghost predicate BwdPairX(nx: int, ny: int, a: (int, int) -> real, b: (int, int) -> real,
                 lhs: (int, int) -> real, rhs: (int, int) -> real)
  {
    (forall x, y {:trigger lhs(x, y)} :: 0 <= x < nx && 0 <= y < ny ==>
       lhs(x, y) == BwdDiff(Row(a, y), x) * b(x, y)) &&
    (forall x, y {:trigger rhs(x, y)} :: 0 <= x < nx && 0 <= y < ny ==>
       rhs(x, y) == a(x, y) * BwdDiv(nx, Row(b, y), x))
  }

  /** Backward difference along x against its divergence, on a grid. */
  lemma BwdAdjointX(nx: int, ny: int, a: (int, int) -> real, b: (int, int) -> real,
                    lhs: (int, int) -> real, rhs: (int, int) -> real)
    requires BwdPairX(nx, ny, a, b, lhs, rhs)
    ensures GridSum(nx, ny, lhs) + GridSum(nx, ny, rhs) == 0.0
  {
    forall y {:trigger Row(lhs, y)} | 0 <= y < ny
      ensures Sum(nx, Row(lhs, y)) + Sum(nx, Row(rhs, y)) == 0.0
    {
      BwdAdjoint1(nx, Row(a, y), Row(b, y), Row(lhs, y), Row(rhs, y));
    }
    GridCancel(nx, ny, lhs, rhs);
  }

  /** Products of row y + s of a against row y of b, summed over the columns. */
  function RowDots(nx: int, a: (int, int) -> real, b: (int, int) -> real, s: int): int -> real
  {
    y => RowDot(nx, a, b, y, s)
  }

  /** Row y + s of a against row y of b, summed over the columns. */
  function RowDot(nx: int, a: (int, int) -> real, b: (int, int) -> real, y: int, s: int): real
  {
    Sum(nx, Prod(Row(a, y + s), Row(b, y)))
  }

  /** The row sums of a forward difference along y against b, and of a against its
      divergence, as differences of RowDots. */
  lemma FwdRowSums(nx: int, ny: int, a: (int, int) -> real, b: (int, int) -> real,
                   lhs: (int, int) -> real, rhs: (int, int) -> real, y: int)
    requires 0 <= y < ny
    requires forall x {:trigger lhs(x, y)} :: 0 <= x < nx ==> lhs(x, y) == FwdDiff(ny, Col(a, x), y) * b(x, y)
    requires forall x {:trigger rhs(x, y)} :: 0 <= x < nx ==> rhs(x, y) == a(x, y) * FwdDiv(ny, Col(b, x), y)
    ensures Sum(nx, Row(lhs, y)) == (if y < ny - 1 then RowDots(nx, a, b, 1)(y) - RowDots(nx, a, b, 0)(y) else 0.0)
    ensures Sum(nx, Row(rhs, y))
         == (if y < ny - 1 then RowDots(nx, a, b, 0)(y) else 0.0) - (if y > 0 then RowDots(nx, a, b, 1)(y - 1) else 0.0)
  {
    var up, here, down := Prod(Row(a, y + 1), Row(b, y)), Prod(Row(a, y), Row(b, y)), Prod(Row(a, y - 1 + 1), Row(b, y - 1));
    forall x {:trigger Row(lhs, y)(x)} {:trigger Row(rhs, y)(x)} | 0 <= x < nx
      ensures Row(lhs, y)(x) == (if y < ny - 1 then up(x) else 0.0) - (if y < ny - 1 then here(x) else 0.0)
      ensures Row(rhs, y)(x) == (if y < ny - 1 then here(x) else 0.0) - (if y > 0 then down(x) else 0.0)
    {
      var l, r := lhs(x, y), rhs(x, y);
      FwdRowPoint(ny, a, b, y, x, l, r);
    }
    var first, last := y > 0, y < ny - 1;
    SumSubMasked(nx, last, up, last, here, Row(lhs, y));
    SumSubMasked(nx, last, here, first, down, Row(rhs, y));
  }

  /** Column x of FwdRowSums: the two products at (x, y) as differences of row products. */
  lemma FwdRowPoint(ny: int, a: (int, int) -> real, b: (int, int) -> real, y: int, x: int, l: real, r: real)
    requires 0 <= y < ny
    requires l == FwdDiff(ny, Col(a, x), y) * b(x, y)
    requires r == a(x, y) * FwdDiv(ny, Col(b, x), y)
    ensures l == (if y < ny - 1 then Prod(Row(a, y + 1), Row(b, y))(x) else 0.0)
               - (if y < ny - 1 then Prod(Row(a, y), Row(b, y))(x) else 0.0)
    ensures r == (if y < ny - 1 then Prod(Row(a, y), Row(b, y))(x) else 0.0)
               - (if y > 0 then Prod(Row(a, y - 1 + 1), Row(b, y - 1))(x) else 0.0)
  {
    FwdDiffProduct(ny, Col(a, x), Col(b, x), y, l);
    FwdDivProduct(ny, Col(a, x), Col(b, x), y, r);
    assert Prod(Row(a, y + 1), Row(b, y))(x) == ProdShifted(Col(a, x), Col(b, x))(y);
    assert Prod(Row(a, y), Row(b, y))(x) == Prod(Col(a, x), Col(b, x))(y);
    assert y > 0 ==> Prod(Row(a, y - 1 + 1), Row(b, y - 1))(x) == ProdShifted(Col(a, x), Col(b, x))(y - 1);
  }

  /** On the grid, lhs is the forward difference along y of a times b and rhs is a times
      the matching divergence of b. */
  ghost predicate FwdPairY(nx: int, ny: int, a: (int, int) -> real, b: (int, int) -> real,
                 lhs: (int, int) -> real, rhs: (int, int) -> real)
  {
    (forall x, y {:trigger lhs(x, y)} :: 0 <= x < nx && 0 <= y < ny ==>
       lhs(x, y) == FwdDiff(ny, Col(a, x), y) * b(x, y)) &&
    (forall x, y {:trigger rhs(x, y)} :: 0 <= x < nx && 0 <= y < ny ==>
       rhs(x, y) == a(x, y) * FwdDiv(ny, Col(b, x), y))
  }

  /** Forward difference along y (the row index) against its divergence, on a grid. */
  lemma FwdAdjointY(nx: int, ny: int, a: (int, int) -> real, b: (int, int) -> real,
                    lhs: (int, int) -> real, rhs: (int, int) -> real)
    requires FwdPairY(nx, ny, a, b, lhs, rhs)
    ensures GridSum(nx, ny, lhs) + GridSum(nx, ny, rhs) == 0.0
  {
    forall y {:trigger RowSums(nx, lhs)(y)} {:trigger RowSums(nx, rhs)(y)} | 0 <= y < ny
      ensures RowSums(nx, lhs)(y) == (if y < ny - 1 then RowDots(nx, a, b, 1)(y) - RowDots(nx, a, b, 0)(y) else 0.0)
      ensures RowSums(nx, rhs)(y)
           == (if y < ny - 1 then RowDots(nx, a, b, 0)(y) else 0.0) - (if y > 0 then RowDots(nx, a, b, 1)(y - 1) else 0.0)
    {
      FwdRowSums(nx, ny, a, b, lhs, rhs, y);
    }
    FwdParts(ny, RowDots(nx, a, b, 1), RowDots(nx, a, b, 0), RowSums(nx, lhs), RowSums(nx, rhs));
  }

  /** The row sums of a backward difference along y against b, and of a against its
      divergence, as differences of RowDots. */
  lemma BwdRowSums(nx: int, ny: int, a: (int, int) -> real, b: (int, int) -> real,
                   lhs: (int, int) -> real, rhs: (int, int) -> real, y: int)
    requires 0 <= y < ny
    requires forall x {:trigger lhs(x, y)} :: 0 <= x < nx ==> lhs(x, y) == BwdDiff(Col(a, x), y) * b(x, y)
    requires forall x {:trigger rhs(x, y)} :: 0 <= x < nx ==> rhs(x, y) == a(x, y) * BwdDiv(ny, Col(b, x), y)
    ensures Sum(nx, Row(lhs, y)) == (if y > 0 then RowDots(nx, a, b, 0)(y) - RowDots(nx, b, a, 1)(y - 1) else 0.0)
    ensures Sum(nx, Row(rhs, y))
         == (if y < ny - 1 then RowDots(nx, b, a, 1)(y) else 0.0) - (if y > 0 then RowDots(nx, a, b, 0)(y) else 0.0)
  {
    var up, here, down := Prod(Row(b, y + 1), Row(a, y)), Prod(Row(a, y), Row(b, y)), Prod(Row(b, y - 1 + 1), Row(a, y - 1));
    forall x {:trigger Row(lhs, y)(x)} {:trigger Row(rhs, y)(x)} | 0 <= x < nx
      ensures Row(lhs, y)(x) == (if y > 0 then here(x) else 0.0) - (if y > 0 then down(x) else 0.0)
      ensures Row(rhs, y)(x) == (if y < ny - 1 then up(x) else 0.0) - (if y > 0 then here(x) else 0.0)
    {
      var l, r := lhs(x, y), rhs(x, y);
      BwdRowPoint(ny, a, b, y, x, l, r);
    }
    var first, last := y > 0, y < ny - 1;
    SumSubMasked(nx, first, here, first, down, Row(lhs, y));
    SumSubMasked(nx, last, up, first, here, Row(rhs, y));
  }

  /** Column x of BwdRowSums: the two products at (x, y) as differences of row products. */
  lemma BwdRowPoint(ny: int, a: (int, int) -> real, b: (int, int) -> real, y: int, x: int, l: real, r: real)
    requires 0 <= y < ny
    requires l == BwdDiff(Col(a, x), y) * b(x, y)
    requires r == a(x, y) * BwdDiv(ny, Col(b, x), y)
    ensures l == (if y > 0 then Prod(Row(a, y), Row(b, y))(x) else 0.0)
               - (if y > 0 then Prod(Row(b, y - 1 + 1), Row(a, y - 1))(x) else 0.0)
    ensures r == (if y < ny - 1 then Prod(Row(b, y + 1), Row(a, y))(x) else 0.0)
               - (if y > 0 then Prod(Row(a, y), Row(b, y))(x) else 0.0)
  {
    BwdDiffProduct(Col(a, x), Col(b, x), y, l);
    BwdDivProduct(ny, Col(a, x), Col(b, x), y, r);
    assert Prod(Row(b, y + 1), Row(a, y))(x) == ProdShifted(Col(b, x), Col(a, x))(y);
    assert Prod(Row(a, y), Row(b, y))(x) == Prod(Col(a, x), Col(b, x))(y);
    assert y > 0 ==> Prod(Row(b, y - 1 + 1), Row(a, y - 1))(x) == ProdShifted(Col(b, x), Col(a, x))(y - 1);
  }

  /** On the grid, lhs is the backward difference along y of a times b and rhs is a times
      the matching divergence of b. */
  ghost predicate BwdPairY(nx: int, ny: int, a: (int, int) -> real, b: (int, int) -> real,
                 lhs: (int, int) -> real, rhs: (int, int) -> real)
  {
    (forall x, y {:trigger lhs(x, y)} :: 0 <= x < nx && 0 <= y < ny ==>
       lhs(x, y) == BwdDiff(Col(a, x), y) * b(x, y)) &&
    (forall x, y {:trigger rhs(x, y)} :: 0 <= x < nx && 0 <= y < ny ==>
       rhs(x, y) == a(x, y) * BwdDiv(ny, Col(b, x), y))
  }

  /** Backward difference along y against its divergence, on a grid. */
  lemma BwdAdjointY(nx: int, ny: int, a: (int, int) -> real, b: (int, int) -> real,
                    lhs: (int, int) -> real, rhs: (int, int) -> real)
    requires BwdPairY(nx, ny, a, b, lhs, rhs)
    ensures GridSum(nx, ny, lhs) + GridSum(nx, ny, rhs) == 0.0
  {
    forall y {:trigger RowSums(nx, lhs)(y)} {:trigger RowSums(nx, rhs)(y)} | 0 <= y < ny
      ensures RowSums(nx, lhs)(y) == (if y > 0 then RowDots(nx, a, b, 0)(y) - RowDots(nx, b, a, 1)(y - 1) else 0.0)
      ensures RowSums(nx, rhs)(y)
           == (if y < ny - 1 then RowDots(nx, b, a, 1)(y) else 0.0) - (if y > 0 then RowDots(nx, a, b, 0)(y) else 0.0)
    {
      BwdRowSums(nx, ny, a, b, lhs, rhs, y);
    }
    BwdParts(ny, RowDots(nx, b, a, 1), RowDots(nx, a, b, 0), RowSums(nx, lhs), RowSums(nx, rhs));
  }
}
