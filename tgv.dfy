/** The TGV finite-difference kernels of the 2-D reconstruction (`update_p`,
    `update_q`, `update_lambda`, `update_u`, `update_w`, `functional_tgv`,
    `functional_discrepancy`).

    u is a scalar image, p and w are images of 2-vectors (`float2`) and q is an
    image of symmetric 2x2 tensors stored as (xx, yy, xy) (`float3`). The per-pixel
    formulas are the functions below; the kernels, as methods, apply them to every
    pixel of their output buffer. */
module Tgv {
  import opened Sums
  import opened Stencils
  import opened Roots
  import opened Images

  datatype V2 = V2(s0: real, s1: real)
  datatype V3 = V3(s0: real, s1: real, s2: real)

  /** Entry i of a buffer of 2-vectors, zero outside it. */
  function At2(s: seq<V2>, i: int): V2
  {
    if 0 <= i < |s| then s[i] else V2(0.0, 0.0)
  }

  /** Entry i of a buffer of 3-vectors, zero outside it. */
  function At3(s: seq<V3>, i: int): V3
  {
    if 0 <= i < |s| then s[i] else V3(0.0, 0.0, 0.0)
  }

  function Pixel2(nx: int, s: seq<V2>, x: int, y: int): V2
  {
    At2(s, Idx(nx, x, y))
  }

  function Pixel3(nx: int, s: seq<V3>, x: int, y: int): V3
  {
    At3(s, Idx(nx, x, y))
  }

  // ---------------------------------------------------------------------------
  // Per-pixel stencils

  /** Forward-difference gradient of u, zero in the last column (x) and last row (y). */
  function Grad(nx: int, ny: int, u: seq<real>, x: int, y: int): V2
  {
    V2(if x < nx - 1 then Pixel(nx, u, x + 1, y) - Pixel(nx, u, x, y) else 0.0,
       if y < ny - 1 then Pixel(nx, u, x, y + 1) - Pixel(nx, u, x, y) else 0.0)
  }

  /** x part of the divergence of p: p.s0 except in the last column, minus p.s0 one
      column to the left. */
  function DivX(nx: int, p: seq<V2>, x: int, y: int): real
  {
    (if x == nx - 1 then 0.0 else Pixel2(nx, p, x, y).s0) - (if x > 0 then Pixel2(nx, p, x - 1, y).s0 else 0.0)
  }

  /** y part of the divergence of p. */
  function DivY(nx: int, ny: int, p: seq<V2>, x: int, y: int): real
  {
    (if y == ny - 1 then 0.0 else Pixel2(nx, p, x, y).s1) - (if y > 0 then Pixel2(nx, p, x, y - 1).s1 else 0.0)
  }

  /** Divergence of p, the operator `update_u` applies. */
  function Div(nx: int, ny: int, p: seq<V2>, x: int, y: int): real
  {
    DivX(nx, p, x, y) + DivY(nx, ny, p, x, y)
  }

  /** Backward difference of w along x, zero in the first column. */
  function BwdX(nx: int, w: seq<V2>, x: int, y: int): V2
  {
    if x > 0 then
      V2(Pixel2(nx, w, x, y).s0 - Pixel2(nx, w, x - 1, y).s0, Pixel2(nx, w, x, y).s1 - Pixel2(nx, w, x - 1, y).s1)
    else V2(0.0, 0.0)
  }

  /** Backward difference of w along y, zero in the first row. */
  function BwdY(nx: int, w: seq<V2>, x: int, y: int): V2
  {
    if y > 0 then
      V2(Pixel2(nx, w, x, y).s0 - Pixel2(nx, w, x, y - 1).s0, Pixel2(nx, w, x, y).s1 - Pixel2(nx, w, x, y - 1).s1)
    else V2(0.0, 0.0)
  }

  /** Symmetrised gradient of w: (dx w0, dy w1, (dx w1 + dy w0) / 2). */
  function SymGrad(nx: int, w: seq<V2>, x: int, y: int): V3
  {
    var dx := BwdX(nx, w, x, y);
    var dy := BwdY(nx, w, x, y);
    V3(dx.s0, dy.s1, 0.5 * (dx.s1 + dy.s0))
  }

  /** One axis of the divergence of q: the difference of b between the next pixel and
      this one, with b(this) left out on the first index and b(next) on the last. */
  function DivPart(first: bool, last: bool, here: real, next: real): real
  {
    (if first then 0.0 else -here) + (if last then 0.0 else next)
  }

  /** Divergence of the tensor image q, the operator `update_w` applies. */
  function DivSym(nx: int, ny: int, q: seq<V3>, x: int, y: int): V2
  {
    var c := Pixel3(nx, q, x, y);
    var r := Pixel3(nx, q, x + 1, y);
    var d := Pixel3(nx, q, x, y + 1);
    V2(DivPart(x == 0, x >= nx - 1, c.s0, r.s0) + DivPart(y == 0, y >= ny - 1, c.s2, d.s2),
       DivPart(x == 0, x >= nx - 1, c.s2, r.s2) + DivPart(y == 0, y >= ny - 1, c.s1, d.s1))
  }

  // ---------------------------------------------------------------------------
  // The stencils are the one-dimensional differences of Stencils along rows and
  // columns of the image.

  /** Component k of a buffer of 2-vectors as a grid function. */
  function Comp2(nx: int, s: seq<V2>, k: int): (int, int) -> real
  {
    (x, y) => Comp2At(nx, s, k, x, y)
  }

  function Comp2At(nx: int, s: seq<V2>, k: int, x: int, y: int): real
  {
    if k == 0 then Pixel2(nx, s, x, y).s0 else Pixel2(nx, s, x, y).s1
  }

  /** Component k of a buffer of 3-vectors as a grid function. */
  function Comp3(nx: int, s: seq<V3>, k: int): (int, int) -> real
  {
    (x, y) => Comp3At(nx, s, k, x, y)
  }

  function Comp3At(nx: int, s: seq<V3>, k: int, x: int, y: int): real
  {
    if k == 0 then Pixel3(nx, s, x, y).s0 else if k == 1 then Pixel3(nx, s, x, y).s1 else Pixel3(nx, s, x, y).s2
  }

  lemma GradIsFwdDiff(nx: int, ny: int, u: seq<real>, x: int, y: int)
    ensures Grad(nx, ny, u, x, y).s0 == FwdDiff(nx, Row(Img(nx, u), y), x)
    ensures Grad(nx, ny, u, x, y).s1 == FwdDiff(ny, Col(Img(nx, u), x), y)
  {
  }

  lemma DivIsFwdDiv(nx: int, ny: int, p: seq<V2>, x: int, y: int)
    requires 0 <= x < nx && 0 <= y < ny
    ensures DivX(nx, p, x, y) == FwdDiv(nx, Row(Comp2(nx, p, 0), y), x)
    ensures DivY(nx, ny, p, x, y) == FwdDiv(ny, Col(Comp2(nx, p, 1), x), y)
  {
  }

  lemma SymGradIsBwdDiff(nx: int, w: seq<V2>, x: int, y: int)
    ensures BwdX(nx, w, x, y).s0 == BwdDiff(Row(Comp2(nx, w, 0), y), x)
    ensures BwdX(nx, w, x, y).s1 == BwdDiff(Row(Comp2(nx, w, 1), y), x)
    ensures BwdY(nx, w, x, y).s0 == BwdDiff(Col(Comp2(nx, w, 0), x), y)
    ensures BwdY(nx, w, x, y).s1 == BwdDiff(Col(Comp2(nx, w, 1), x), y)
  {
  }

  lemma DivSymIsBwdDiv(nx: int, ny: int, q: seq<V3>, x: int, y: int)
    requires 0 <= x < nx && 0 <= y < ny
    ensures DivSym(nx, ny, q, x, y).s0
         == BwdDiv(nx, Row(Comp3(nx, q, 0), y), x) + BwdDiv(ny, Col(Comp3(nx, q, 2), x), y)
    ensures DivSym(nx, ny, q, x, y).s1
         == BwdDiv(nx, Row(Comp3(nx, q, 2), y), x) + BwdDiv(ny, Col(Comp3(nx, q, 1), x), y)
  {
  }

  /** Equal factors give equal products. */
  lemma MulEq(a: real, b: real, c: real, d: real)
    requires a == c && b == d
    ensures a * b == c * d
  {
  }

  /** a * (b + c) == a * b + a * c, for values named by the caller. */
  lemma MulAdd(a: real, b: real, c: real, v: real)
    requires v == a * (b + c)
    ensures v == a * b + a * c
  {
  }

  // ---------------------------------------------------------------------------
  // Adjointness of the gradient and divergence

  /** sum over pixels of <grad u, p>. */
  function GradDot(nx: int, ny: int, u: seq<real>, p: seq<V2>): (int, int) -> real
  {
    (x, y) => GradDotAt(nx, ny, u, p, x, y)
  }

  function GradDotAt(nx: int, ny: int, u: seq<real>, p: seq<V2>, x: int, y: int): real
  {
    GradXAt(nx, ny, u, p, x, y) + GradYAt(nx, ny, u, p, x, y)
  }

  function GradXAt(nx: int, ny: int, u: seq<real>, p: seq<V2>, x: int, y: int): real
  {
    Grad(nx, ny, u, x, y).s0 * Pixel2(nx, p, x, y).s0
  }

  function GradYAt(nx: int, ny: int, u: seq<real>, p: seq<V2>, x: int, y: int): real
  {
    Grad(nx, ny, u, x, y).s1 * Pixel2(nx, p, x, y).s1
  }

  /** sum over pixels of u * div p. */
  function UDiv(nx: int, ny: int, u: seq<real>, p: seq<V2>): (int, int) -> real
  {
    (x, y) => UDivAt(nx, ny, u, p, x, y)
  }

  function UDivAt(nx: int, ny: int, u: seq<real>, p: seq<V2>, x: int, y: int): real
  {
    Pixel(nx, u, x, y) * Div(nx, ny, p, x, y)
  }

  function UDivXAt(nx: int, ny: int, u: seq<real>, p: seq<V2>, x: int, y: int): real
  {
    Pixel(nx, u, x, y) * DivX(nx, p, x, y)
  }

  function UDivYAt(nx: int, ny: int, u: seq<real>, p: seq<V2>, x: int, y: int): real
  {
    Pixel(nx, u, x, y) * DivY(nx, ny, p, x, y)
  }

  function GradX(nx: int, ny: int, u: seq<real>, p: seq<V2>): (int, int) -> real
  {
    (x, y) => GradXAt(nx, ny, u, p, x, y)
  }

  function GradY(nx: int, ny: int, u: seq<real>, p: seq<V2>): (int, int) -> real
  {
    (x, y) => GradYAt(nx, ny, u, p, x, y)
  }

  function UDivX(nx: int, ny: int, u: seq<real>, p: seq<V2>): (int, int) -> real
  {
    (x, y) => UDivXAt(nx, ny, u, p, x, y)
  }

  function UDivY(nx: int, ny: int, u: seq<real>, p: seq<V2>): (int, int) -> real
  {
    (x, y) => UDivYAt(nx, ny, u, p, x, y)
  }

  lemma GradXForm(nx: int, ny: int, u: seq<real>, p: seq<V2>)
    ensures forall x, y {:trigger GradX(nx, ny, u, p)(x, y)} :: 0 <= x < nx && 0 <= y < ny ==>
      GradX(nx, ny, u, p)(x, y) == FwdDiff(nx, Row(Img(nx, u), y), x) * Comp2(nx, p, 0)(x, y)
  {
    forall x, y | 0 <= x < nx && 0 <= y < ny
      ensures GradX(nx, ny, u, p)(x, y) == FwdDiff(nx, Row(Img(nx, u), y), x) * Comp2(nx, p, 0)(x, y)
    {
      GradIsFwdDiff(nx, ny, u, x, y);
      MulEq(Grad(nx, ny, u, x, y).s0, Pixel2(nx, p, x, y).s0, FwdDiff(nx, Row(Img(nx, u), y), x), Comp2(nx, p, 0)(x, y));
    }
  }

  lemma UDivXForm(nx: int, ny: int, u: seq<real>, p: seq<V2>)
    ensures forall x, y {:trigger UDivX(nx, ny, u, p)(x, y)} :: 0 <= x < nx && 0 <= y < ny ==>
      UDivX(nx, ny, u, p)(x, y) == Img(nx, u)(x, y) * FwdDiv(nx, Row(Comp2(nx, p, 0), y), x)
  {
    forall x, y | 0 <= x < nx && 0 <= y < ny
      ensures UDivX(nx, ny, u, p)(x, y) == Img(nx, u)(x, y) * FwdDiv(nx, Row(Comp2(nx, p, 0), y), x)
    {
      DivIsFwdDiv(nx, ny, p, x, y);
      MulEq(Pixel(nx, u, x, y), DivX(nx, p, x, y), Img(nx, u)(x, y), FwdDiv(nx, Row(Comp2(nx, p, 0), y), x));
    }
  }

  lemma GradYForm(nx: int, ny: int, u: seq<real>, p: seq<V2>)
    ensures forall x, y {:trigger GradY(nx, ny, u, p)(x, y)} :: 0 <= x < nx && 0 <= y < ny ==>
      GradY(nx, ny, u, p)(x, y) == FwdDiff(ny, Col(Img(nx, u), x), y) * Comp2(nx, p, 1)(x, y)
  {
    forall x, y | 0 <= x < nx && 0 <= y < ny
      ensures GradY(nx, ny, u, p)(x, y) == FwdDiff(ny, Col(Img(nx, u), x), y) * Comp2(nx, p, 1)(x, y)
    {
      GradIsFwdDiff(nx, ny, u, x, y);
      MulEq(Grad(nx, ny, u, x, y).s1, Pixel2(nx, p, x, y).s1, FwdDiff(ny, Col(Img(nx, u), x), y), Comp2(nx, p, 1)(x, y));
    }
  }

  lemma UDivYForm(nx: int, ny: int, u: seq<real>, p: seq<V2>)
    ensures forall x, y {:trigger UDivY(nx, ny, u, p)(x, y)} :: 0 <= x < nx && 0 <= y < ny ==>
      UDivY(nx, ny, u, p)(x, y) == Img(nx, u)(x, y) * FwdDiv(ny, Col(Comp2(nx, p, 1), x), y)
  {
    forall x, y | 0 <= x < nx && 0 <= y < ny
      ensures UDivY(nx, ny, u, p)(x, y) == Img(nx, u)(x, y) * FwdDiv(ny, Col(Comp2(nx, p, 1), x), y)
    {
      DivIsFwdDiv(nx, ny, p, x, y);
      MulEq(Pixel(nx, u, x, y), DivY(nx, ny, p, x, y), Img(nx, u)(x, y), FwdDiv(ny, Col(Comp2(nx, p, 1), x), y));
    }
  }

  /** The x pairing in the form FwdAdjointX takes it. */
  lemma GradDivXTerms(nx: int, ny: int, u: seq<real>, p: seq<V2>)
    ensures FwdPairX(nx, ny, Img(nx, u), Comp2(nx, p, 0), GradX(nx, ny, u, p), UDivX(nx, ny, u, p))
  {
    GradXForm(nx, ny, u, p);
    UDivXForm(nx, ny, u, p);
  }

  lemma GradDivX(nx: int, ny: int, u: seq<real>, p: seq<V2>)
    ensures GridSum(nx, ny, GradX(nx, ny, u, p)) + GridSum(nx, ny, UDivX(nx, ny, u, p)) == 0.0
  {
    GradDivXTerms(nx, ny, u, p);
    FwdAdjointX(nx, ny, Img(nx, u), Comp2(nx, p, 0), GradX(nx, ny, u, p), UDivX(nx, ny, u, p));
  }

  /** The y pairing in the form FwdAdjointY takes it. */
  lemma GradDivYTerms(nx: int, ny: int, u: seq<real>, p: seq<V2>)
    ensures FwdPairY(nx, ny, Img(nx, u), Comp2(nx, p, 1), GradY(nx, ny, u, p), UDivY(nx, ny, u, p))
  {
    GradYForm(nx, ny, u, p);
    UDivYForm(nx, ny, u, p);
  }

  lemma GradDivY(nx: int, ny: int, u: seq<real>, p: seq<V2>)
    ensures GridSum(nx, ny, GradY(nx, ny, u, p)) + GridSum(nx, ny, UDivY(nx, ny, u, p)) == 0.0
  {
    GradDivYTerms(nx, ny, u, p);
    FwdAdjointY(nx, ny, Img(nx, u), Comp2(nx, p, 1), GradY(nx, ny, u, p), UDivY(nx, ny, u, p));
  }

  lemma UDivSplit(nx: int, ny: int, u: seq<real>, p: seq<V2>)
    ensures GridSum(nx, ny, UDiv(nx, ny, u, p)) == GridSum(nx, ny, UDivX(nx, ny, u, p)) + GridSum(nx, ny, UDivY(nx, ny, u, p))
  {
    forall x, y | 0 <= x < nx && 0 <= y < ny
      ensures UDiv(nx, ny, u, p)(x, y) == UDivX(nx, ny, u, p)(x, y) + UDivY(nx, ny, u, p)(x, y)
    {
      MulAdd(Pixel(nx, u, x, y), DivX(nx, p, x, y), DivY(nx, ny, p, x, y), UDivAt(nx, ny, u, p, x, y));
    }
    GridAdd(nx, ny, UDivX(nx, ny, u, p), UDivY(nx, ny, u, p), UDiv(nx, ny, u, p));
  }

  /** The divergence is the negative adjoint of the gradient: over the whole image,
      sum <grad u, p> + sum u * div p == 0. */
  lemma GradDivAdjoint(nx: int, ny: int, u: seq<real>, p: seq<V2>)
    ensures GridSum(nx, ny, GradDot(nx, ny, u, p)) + GridSum(nx, ny, UDiv(nx, ny, u, p)) == 0.0
  {
    GradDivX(nx, ny, u, p);
    GradDivY(nx, ny, u, p);
    GridAdd(nx, ny, GradX(nx, ny, u, p), GradY(nx, ny, u, p), GradDot(nx, ny, u, p));
    UDivSplit(nx, ny, u, p);
  }

  // ---------------------------------------------------------------------------
  // Adjointness of the symmetrised gradient and the tensor divergence

  /** <e, q> with the off-diagonal entry counted twice: the inner product of
      symmetric 2x2 tensors stored as (xx, yy, xy). */
  function SymDot(nx: int, ny: int, w: seq<V2>, q: seq<V3>): (int, int) -> real
  {
    (x, y) => SymDotAt(nx, w, q, x, y)
  }

  function SymDotAt(nx: int, w: seq<V2>, q: seq<V3>, x: int, y: int): real
  {
    var e := SymGrad(nx, w, x, y);
    var c := Pixel3(nx, q, x, y);
    e.s0 * c.s0 + e.s1 * c.s1 + 2.0 * e.s2 * c.s2
  }

  /** <w, divsym q> per pixel. */
  function WDivSym(nx: int, ny: int, w: seq<V2>, q: seq<V3>): (int, int) -> real
  {
    (x, y) => WDivSymAt(nx, ny, w, q, x, y)
  }

  function WDivSymAt(nx: int, ny: int, w: seq<V2>, q: seq<V3>, x: int, y: int): real
  {
    var d := DivSym(nx, ny, q, x, y);
    var c := Pixel2(nx, w, x, y);
    c.s0 * d.s0 + c.s1 * d.s1
  }

  /** Backward difference of component i of w along x times component k of q. */
  function XTerm(nx: int, w: seq<V2>, q: seq<V3>, i: int, k: int): (int, int) -> real
  {
    (x, y) => XTermAt(nx, w, q, i, k, x, y)
  }

  function XTermAt(nx: int, w: seq<V2>, q: seq<V3>, i: int, k: int, x: int, y: int): real
  {
    BwdDiff(Row(Comp2(nx, w, i), y), x) * Comp3(nx, q, k)(x, y)
  }

  /** Component i of w times the x part of the divergence of component k of q. */
  function XDiv(nx: int, w: seq<V2>, q: seq<V3>, i: int, k: int): (int, int) -> real
  {
    (x, y) => XDivAt(nx, w, q, i, k, x, y)
  }

  function XDivAt(nx: int, w: seq<V2>, q: seq<V3>, i: int, k: int, x: int, y: int): real
  {
    Comp2(nx, w, i)(x, y) * BwdDiv(nx, Row(Comp3(nx, q, k), y), x)
  }

  function YTerm(nx: int, w: seq<V2>, q: seq<V3>, i: int, k: int): (int, int) -> real
  {
    (x, y) => YTermAt(nx, w, q, i, k, x, y)
  }

  function YTermAt(nx: int, w: seq<V2>, q: seq<V3>, i: int, k: int, x: int, y: int): real
  {
    BwdDiff(Col(Comp2(nx, w, i), x), y) * Comp3(nx, q, k)(x, y)
  }

  function YDiv(nx: int, ny: int, w: seq<V2>, q: seq<V3>, i: int, k: int): (int, int) -> real
  {
    (x, y) => YDivAt(nx, ny, w, q, i, k, x, y)
  }

  function YDivAt(nx: int, ny: int, w: seq<V2>, q: seq<V3>, i: int, k: int, x: int, y: int): real
  {
    Comp2(nx, w, i)(x, y) * BwdDiv(ny, Col(Comp3(nx, q, k), x), y)
  }

  /** The x pairings in the form BwdAdjointX takes them. */
  lemma XPairTerms(nx: int, ny: int, w: seq<V2>, q: seq<V3>, i: int, k: int)
    ensures BwdPairX(nx, ny, Comp2(nx, w, i), Comp3(nx, q, k), XTerm(nx, w, q, i, k), XDiv(nx, w, q, i, k))
  {
  }

  lemma XPair(nx: int, ny: int, w: seq<V2>, q: seq<V3>, i: int, k: int)
    ensures GridSum(nx, ny, XTerm(nx, w, q, i, k)) + GridSum(nx, ny, XDiv(nx, w, q, i, k)) == 0.0
  {
    XPairTerms(nx, ny, w, q, i, k);
    BwdAdjointX(nx, ny, Comp2(nx, w, i), Comp3(nx, q, k), XTerm(nx, w, q, i, k), XDiv(nx, w, q, i, k));
  }

  /** The y pairings in the form BwdAdjointY takes them. */
  lemma YPairTerms(nx: int, ny: int, w: seq<V2>, q: seq<V3>, i: int, k: int)
    ensures BwdPairY(nx, ny, Comp2(nx, w, i), Comp3(nx, q, k), YTerm(nx, w, q, i, k), YDiv(nx, ny, w, q, i, k))
  {
  }

  lemma YPair(nx: int, ny: int, w: seq<V2>, q: seq<V3>, i: int, k: int)
    ensures GridSum(nx, ny, YTerm(nx, w, q, i, k)) + GridSum(nx, ny, YDiv(nx, ny, w, q, i, k)) == 0.0
  {
    YPairTerms(nx, ny, w, q, i, k);
    BwdAdjointY(nx, ny, Comp2(nx, w, i), Comp3(nx, q, k), YTerm(nx, w, q, i, k), YDiv(nx, ny, w, q, i, k));
  }

  /** Expanding the doubled off-diagonal product, for values named by the caller. */
  lemma SymDotExpand(a0: real, a1: real, b0: real, b1: real, c0: real, c1: real, c2: real, v: real)
    requires v == a0 * c0 + b1 * c1 + 2.0 * (0.5 * (a1 + b0)) * c2
    ensures v == a0 * c0 + b1 * c1 + a1 * c2 + b0 * c2
  {
  }

  /** Distributing the components of w over the divergence, for values named by the
      caller. */
  lemma WDivSymExpand(w0: real, w1: real, e0: real, e1: real, d0: real, d1: real, d2: real, d3: real, v: real)
    requires v == w0 * e0 + w1 * e1 && e0 == d0 + d1 && e1 == d2 + d3
    ensures v == w0 * d0 + w1 * d3 + w1 * d2 + w0 * d1
  {
  }

  lemma SymDotPixel(nx: int, w: seq<V2>, q: seq<V3>, x: int, y: int)
    ensures SymDotAt(nx, w, q, x, y)
         == XTermAt(nx, w, q, 0, 0, x, y) + YTermAt(nx, w, q, 1, 1, x, y)
          + XTermAt(nx, w, q, 1, 2, x, y) + YTermAt(nx, w, q, 0, 2, x, y)
  {
    SymGradIsBwdDiff(nx, w, x, y);
    var dx := BwdX(nx, w, x, y);
    var dy := BwdY(nx, w, x, y);
    var c := Pixel3(nx, q, x, y);
    SymDotExpand(dx.s0, dx.s1, dy.s0, dy.s1, c.s0, c.s1, c.s2, SymDotAt(nx, w, q, x, y));
    MulEq(dx.s0, c.s0, BwdDiff(Row(Comp2(nx, w, 0), y), x), Comp3(nx, q, 0)(x, y));
    MulEq(dy.s1, c.s1, BwdDiff(Col(Comp2(nx, w, 1), x), y), Comp3(nx, q, 1)(x, y));
    MulEq(dx.s1, c.s2, BwdDiff(Row(Comp2(nx, w, 1), y), x), Comp3(nx, q, 2)(x, y));
    MulEq(dy.s0, c.s2, BwdDiff(Col(Comp2(nx, w, 0), x), y), Comp3(nx, q, 2)(x, y));
  }

  /** The pointwise pairing <w, div q> over named components. */
  lemma WDivSymAtIs(nx: int, ny: int, w: seq<V2>, q: seq<V3>, x: int, y: int, w0: real, w1: real, e0: real, e1: real, v: real)
    requires w0 == Comp2(nx, w, 0)(x, y) && w1 == Comp2(nx, w, 1)(x, y)
    requires e0 == DivSym(nx, ny, q, x, y).s0 && e1 == DivSym(nx, ny, q, x, y).s1
    requires v == WDivSymAt(nx, ny, w, q, x, y)
    ensures v == w0 * e0 + w1 * e1
  {
  }

  /** XDivAt over named factors. */
  lemma XDivAtIs(nx: int, w: seq<V2>, q: seq<V3>, i: int, k: int, x: int, y: int, a: real, b: real, v: real)
    requires a == Comp2(nx, w, i)(x, y) && b == BwdDiv(nx, Row(Comp3(nx, q, k), y), x)
    requires v == XDivAt(nx, w, q, i, k, x, y)
    ensures v == a * b
  {
  }

  /** YDivAt over named factors. */
  lemma YDivAtIs(nx: int, ny: int, w: seq<V2>, q: seq<V3>, i: int, k: int, x: int, y: int, a: real, b: real, v: real)
    requires a == Comp2(nx, w, i)(x, y) && b == BwdDiv(ny, Col(Comp3(nx, q, k), x), y)
    requires v == YDivAt(nx, ny, w, q, i, k, x, y)
    ensures v == a * b
  {
  }

  lemma WDivSymPixel(nx: int, ny: int, w: seq<V2>, q: seq<V3>, x: int, y: int)
    requires 0 <= x < nx && 0 <= y < ny
    ensures WDivSymAt(nx, ny, w, q, x, y)
         == XDivAt(nx, w, q, 0, 0, x, y) + YDivAt(nx, ny, w, q, 1, 1, x, y)
          + XDivAt(nx, w, q, 1, 2, x, y) + YDivAt(nx, ny, w, q, 0, 2, x, y)
  {
    DivSymIsBwdDiv(nx, ny, q, x, y);
    var w0, w1 := Comp2(nx, w, 0)(x, y), Comp2(nx, w, 1)(x, y);
    var e0, e1 := DivSym(nx, ny, q, x, y).s0, DivSym(nx, ny, q, x, y).s1;
    var d0 := BwdDiv(nx, Row(Comp3(nx, q, 0), y), x);
    var d1 := BwdDiv(ny, Col(Comp3(nx, q, 2), x), y);
    var d2 := BwdDiv(nx, Row(Comp3(nx, q, 2), y), x);
    var d3 := BwdDiv(ny, Col(Comp3(nx, q, 1), x), y);
    var v := WDivSymAt(nx, ny, w, q, x, y);
    var x00, y11, x12, y02 := XDivAt(nx, w, q, 0, 0, x, y), YDivAt(nx, ny, w, q, 1, 1, x, y),
                              XDivAt(nx, w, q, 1, 2, x, y), YDivAt(nx, ny, w, q, 0, 2, x, y);
    WDivSymAtIs(nx, ny, w, q, x, y, w0, w1, e0, e1, v);
    XDivAtIs(nx, w, q, 0, 0, x, y, w0, d0, x00);
    YDivAtIs(nx, ny, w, q, 1, 1, x, y, w1, d3, y11);
    XDivAtIs(nx, w, q, 1, 2, x, y, w1, d2, x12);
    YDivAtIs(nx, ny, w, q, 0, 2, x, y, w0, d1, y02);
    WDivSymExpand(w0, w1, e0, e1, d0, d1, d2, d3, v);
  }

  lemma SymDotSplit(nx: int, ny: int, w: seq<V2>, q: seq<V3>)
    ensures GridSum(nx, ny, SymDot(nx, ny, w, q))
         == GridSum(nx, ny, XTerm(nx, w, q, 0, 0)) + GridSum(nx, ny, YTerm(nx, w, q, 1, 1))
          + GridSum(nx, ny, XTerm(nx, w, q, 1, 2)) + GridSum(nx, ny, YTerm(nx, w, q, 0, 2))
  {
    forall x, y | 0 <= x < nx && 0 <= y < ny
      ensures SymDot(nx, ny, w, q)(x, y)
           == XTerm(nx, w, q, 0, 0)(x, y) + YTerm(nx, w, q, 1, 1)(x, y)
            + XTerm(nx, w, q, 1, 2)(x, y) + YTerm(nx, w, q, 0, 2)(x, y)
    {
      SymDotPixel(nx, w, q, x, y);
    }
    GridAdd4(nx, ny, XTerm(nx, w, q, 0, 0), YTerm(nx, w, q, 1, 1), XTerm(nx, w, q, 1, 2), YTerm(nx, w, q, 0, 2),
             SymDot(nx, ny, w, q));
  }

  lemma WDivSymSplit(nx: int, ny: int, w: seq<V2>, q: seq<V3>)
    ensures GridSum(nx, ny, WDivSym(nx, ny, w, q))
         == GridSum(nx, ny, XDiv(nx, w, q, 0, 0)) + GridSum(nx, ny, YDiv(nx, ny, w, q, 1, 1))
          + GridSum(nx, ny, XDiv(nx, w, q, 1, 2)) + GridSum(nx, ny, YDiv(nx, ny, w, q, 0, 2))
  {
    forall x, y | 0 <= x < nx && 0 <= y < ny
      ensures WDivSym(nx, ny, w, q)(x, y)
           == XDiv(nx, w, q, 0, 0)(x, y) + YDiv(nx, ny, w, q, 1, 1)(x, y)
            + XDiv(nx, w, q, 1, 2)(x, y) + YDiv(nx, ny, w, q, 0, 2)(x, y)
    {
      WDivSymPixel(nx, ny, w, q, x, y);
    }
    GridAdd4(nx, ny, XDiv(nx, w, q, 0, 0), YDiv(nx, ny, w, q, 1, 1), XDiv(nx, w, q, 1, 2), YDiv(nx, ny, w, q, 0, 2),
             WDivSym(nx, ny, w, q));
  }

  /** The tensor divergence is the negative adjoint of the symmetrised gradient:
      sum <symgrad w, q> + sum <w, divsym q> == 0 over the whole image. */
  lemma SymGradDivAdjoint(nx: int, ny: int, w: seq<V2>, q: seq<V3>)
    ensures GridSum(nx, ny, SymDot(nx, ny, w, q)) + GridSum(nx, ny, WDivSym(nx, ny, w, q)) == 0.0
  {
    SymDotSplit(nx, ny, w, q);
    WDivSymSplit(nx, ny, w, q);
    XPair(nx, ny, w, q, 0, 0);
    YPair(nx, ny, w, q, 1, 1);
    XPair(nx, ny, w, q, 1, 2);
    YPair(nx, ny, w, q, 0, 2);
  }
}
