/** The per-pixel updates of the TGV primal-dual kernels and the kernels themselves.

    `update_p` and `update_q` take a dual ascent step and reproject onto the dual
    ball of radius 1/alphainv; `update_lambda` takes the resolvent step of the data
    term; `update_u` and `update_w` take a primal descent step along the divergences;
    `functional_discrepancy` and `functional_tgv` write the per-pixel terms of the
    energy. Each kernel is a launch over the Nx-by-Ny image (Images.Launch). */
module TgvKernels {
  import opened Sums
  import opened Roots
  import opened Images
  import opened Tgv

  // ---------------------------------------------------------------------------
  // Reprojection onto the dual balls

  /** The length of a 2-vector scaled by alphainv. */
  function Fac2(sqrt: real -> real, v: V2, alphainv: real): real
  {
    Hypot(sqrt, v.s0, v.s1) * alphainv
  }

  /** Reprojection of a 2-vector: divided by its scaled length fac when fac > 1. */
  function Reproject2(sqrt: real -> real, v: V2, alphainv: real): V2
  {
    var fac := Fac2(sqrt, v, alphainv);
    if fac > 1.0 then V2(v.s0 / fac, v.s1 / fac) else v
  }

  /** The length the `update_q` kernel uses for a tensor (xx, yy, xy):
      hypot(hypot(xx, yy), 2 xy). */
  function Norm3(sqrt: real -> real, v: V3): real
  {
    Hypot(sqrt, Hypot(sqrt, v.s0, v.s1), 2.0 * v.s2)
  }

  /** The tensor length scaled by alphainv. */
  function Fac3(sqrt: real -> real, v: V3, alphainv: real): real
  {
    Norm3(sqrt, v) * alphainv
  }

  /** Reprojection of a tensor. */
  function Reproject3(sqrt: real -> real, v: V3, alphainv: real): V3
  {
    var fac := Fac3(sqrt, v, alphainv);
    if fac > 1.0 then V3(v.s0 / fac, v.s1 / fac, v.s2 / fac) else v
  }

  /** The kernel's tensor length is sqrt(xx^2 + yy^2 + 4 xy^2): the off-diagonal entry
      weighs 4, not the 2 of the Frobenius norm of the symmetric tensor. */
  lemma Norm3Squares(sqrt: real -> real, v: V3)
    requires IsSqrt(sqrt)
    ensures Norm3(sqrt, v) == sqrt(v.s0 * v.s0 + v.s1 * v.s1 + 4.0 * (v.s2 * v.s2))
  {
    var c := 2.0 * v.s2;
    HypotOfHypot(sqrt, v.s0, v.s1, c);
    SqrtEq(sqrt, v.s0 * v.s0 + v.s1 * v.s1 + c * c, v.s0 * v.s0 + v.s1 * v.s1 + 4.0 * (v.s2 * v.s2));
  }

  lemma Norm3Facts(sqrt: real -> real, v: V3)
    requires IsSqrt(sqrt)
    ensures 0.0 <= Norm3(sqrt, v)
    ensures Norm3(sqrt, v) == 0.0 <==> v == V3(0.0, 0.0, 0.0)
  {
    HypotFacts(sqrt, v.s0, v.s1);
    HypotFacts(sqrt, Hypot(sqrt, v.s0, v.s1), 2.0 * v.s2);
  }

  /** Dividing a tensor by f > 0 divides its length by f. */
  lemma Norm3Div(sqrt: real -> real, v: V3, f: real)
    requires IsSqrt(sqrt) && 0.0 < f
    ensures Norm3(sqrt, V3(v.s0 / f, v.s1 / f, v.s2 / f)) == Norm3(sqrt, v) / f
  {
    var h := Hypot(sqrt, v.s0, v.s1);
    HypotDiv(sqrt, v.s0, v.s1, f);
    assert 2.0 * (v.s2 / f) == (2.0 * v.s2) / f;
    HypotEq(sqrt, Hypot(sqrt, v.s0 / f, v.s1 / f), 2.0 * (v.s2 / f), h / f, (2.0 * v.s2) / f);
    HypotDiv(sqrt, h, 2.0 * v.s2, f);
  }

  /** After reprojection the scaled length is at most 1; a vector inside the ball is
      kept unchanged and one outside lands on the sphere. */
  lemma Reproject2Ball(sqrt: real -> real, v: V2, alphainv: real)
    requires IsSqrt(sqrt) && 0.0 <= alphainv
    ensures Fac2(sqrt, Reproject2(sqrt, v, alphainv), alphainv) <= 1.0
    ensures Reproject2(sqrt, v, alphainv) == v <==> Fac2(sqrt, v, alphainv) <= 1.0
    ensures Fac2(sqrt, v, alphainv) > 1.0 ==> Fac2(sqrt, Reproject2(sqrt, v, alphainv), alphainv) == 1.0
  {
    var fac := Fac2(sqrt, v, alphainv);
    if fac > 1.0 {
      Reproject2Outside(sqrt, v, alphainv, fac);
    }
    Reproject2Cases(sqrt, v, alphainv, fac);
  }

  lemma Reproject2Outside(sqrt: real -> real, v: V2, alphainv: real, fac: real)
    requires IsSqrt(sqrt) && fac == Fac2(sqrt, v, alphainv) && 1.0 < fac
    ensures Fac2(sqrt, V2(v.s0 / fac, v.s1 / fac), alphainv) == 1.0
    ensures V2(v.s0 / fac, v.s1 / fac) != v
  {
    var h := Hypot(sqrt, v.s0, v.s1);
    HypotDiv(sqrt, v.s0, v.s1, fac);
    DivScaled(h, alphainv, fac);
    if v.s0 / fac == v.s0 && v.s1 / fac == v.s1 {
      DivFixed(v.s0, fac);
      DivFixed(v.s1, fac);
      HypotFacts(sqrt, v.s0, v.s1);
    }
  }

  lemma Reproject3Ball(sqrt: real -> real, v: V3, alphainv: real)
    requires IsSqrt(sqrt) && 0.0 <= alphainv
    ensures Fac3(sqrt, Reproject3(sqrt, v, alphainv), alphainv) <= 1.0
    ensures Reproject3(sqrt, v, alphainv) == v <==> Fac3(sqrt, v, alphainv) <= 1.0
    ensures Fac3(sqrt, v, alphainv) > 1.0 ==> Fac3(sqrt, Reproject3(sqrt, v, alphainv), alphainv) == 1.0
  {
    var fac := Fac3(sqrt, v, alphainv);
    if fac > 1.0 {
      Reproject3Outside(sqrt, v, alphainv, fac);
    }
    Reproject3Cases(sqrt, v, alphainv, fac);
  }

  lemma Reproject3Outside(sqrt: real -> real, v: V3, alphainv: real, fac: real)
    requires IsSqrt(sqrt) && fac == Fac3(sqrt, v, alphainv) && 1.0 < fac
    ensures Fac3(sqrt, V3(v.s0 / fac, v.s1 / fac, v.s2 / fac), alphainv) == 1.0
    ensures V3(v.s0 / fac, v.s1 / fac, v.s2 / fac) != v
  {
    var h := Norm3(sqrt, v);
    Norm3Div(sqrt, v, fac);
    DivScaled(h, alphainv, fac);
    if v.s0 / fac == v.s0 && v.s1 / fac == v.s1 && v.s2 / fac == v.s2 {
      DivFixed(v.s0, fac);
      DivFixed(v.s1, fac);
      DivFixed(v.s2, fac);
      Norm3Facts(sqrt, v);
    }
  }

  lemma Reproject2Cases(sqrt: real -> real, v: V2, alphainv: real, fac: real)
    requires fac == Fac2(sqrt, v, alphainv)
    ensures fac > 1.0 ==> Reproject2(sqrt, v, alphainv) == V2(v.s0 / fac, v.s1 / fac)
    ensures fac <= 1.0 ==> Reproject2(sqrt, v, alphainv) == v
  {
  }

  lemma Reproject3Cases(sqrt: real -> real, v: V3, alphainv: real, fac: real)
    requires fac == Fac3(sqrt, v, alphainv)
    ensures fac > 1.0 ==> Reproject3(sqrt, v, alphainv) == V3(v.s0 / fac, v.s1 / fac, v.s2 / fac)
    ensures fac <= 1.0 ==> Reproject3(sqrt, v, alphainv) == v
  {
  }

  /** Only zero is left unchanged by dividing by f > 1. */
  lemma DivFixed(a: real, f: real)
    requires 1.0 < f && a / f == a
    ensures a == 0.0
  {
    assert (a / f) * f == a;
    if a > 0.0 {
      MulLeftStrict(a, 1.0, f);
    } else if a < 0.0 {
      MulLeftStrict(-a, 1.0, f);
    }
  }

  /** h / fac * alphainv == 1 when fac == h * alphainv. */
  lemma DivScaled(h: real, alphainv: real, fac: real)
    requires 0.0 < fac && fac == h * alphainv
    ensures h / fac * alphainv == 1.0
  {
    assert h / fac * alphainv == (h * alphainv) / fac;
  }

  // ---------------------------------------------------------------------------
  // Per-pixel updates

  /** The ascent step of `update_p` before reprojection: p + sigma (grad u - w). */
  function PAscent(nx: int, ny: int, p: seq<V2>, u: seq<real>, w: seq<V2>, sigma: real, x: int, y: int): V2
  {
    var g := Grad(nx, ny, u, x, y);
    var c := Pixel2(nx, p, x, y);
    var d := Pixel2(nx, w, x, y);
    V2(c.s0 + sigma * (g.s0 - d.s0), c.s1 + sigma * (g.s1 - d.s1))
  }

  /** `update_p`: dual ascent along grad u - w, then reprojection. */
  function PStep(sqrt: real -> real, nx: int, ny: int, p: seq<V2>, u: seq<real>, w: seq<V2>,
                 sigma: real, alphainv: real, x: int, y: int): V2
  {
    Reproject2(sqrt, PAscent(nx, ny, p, u, w, sigma, x, y), alphainv)
  }

  /** The ascent step of `update_q` before reprojection: q + sigma symgrad w. */
  function QAscent(nx: int, q: seq<V3>, w: seq<V2>, sigma: real, x: int, y: int): V3
  {
    var e := SymGrad(nx, w, x, y);
    var c := Pixel3(nx, q, x, y);
    V3(c.s0 + sigma * e.s0, c.s1 + sigma * e.s1, c.s2 + sigma * e.s2)
  }

  /** `update_q`: dual ascent along the symmetrised gradient of w, then reprojection. */
  function QStep(sqrt: real -> real, nx: int, q: seq<V3>, w: seq<V2>, sigma: real, alphainv: real,
                 x: int, y: int): V3
  {
    Reproject3(sqrt, QAscent(nx, q, w, sigma, x, y), alphainv)
  }

  /** `update_lambda`: (lambda + sigma (Ku - f)) * sigmap1inv. */
  function LambdaStep(l: real, ku: real, f: real, sigma: real, sigmap1inv: real): real
  {
    (l + sigma * (ku - f)) * sigmap1inv
  }

  /** `update_u`: u_ + tau (div p - norming K*lambda). */
  function UStep(nx: int, ny: int, u_: seq<real>, p: seq<V2>, kstar: seq<real>, tau: real, norming: real,
                 x: int, y: int): real
  {
    Pixel(nx, u_, x, y) + tau * (Tgv.Div(nx, ny, p, x, y) - norming * Pixel(nx, kstar, x, y))
  }

  /** `update_w`: w_ + tau (p + divsym q). */
  function WStep(nx: int, ny: int, w_: seq<V2>, p: seq<V2>, q: seq<V3>, tau: real, x: int, y: int): V2
  {
    var c := Pixel2(nx, w_, x, y);
    var d := Pixel2(nx, p, x, y);
    var e := DivSym(nx, ny, q, x, y);
    V2(c.s0 + tau * (d.s0 + e.s0), c.s1 + tau * (d.s1 + e.s1))
  }

  /** `functional_discrepancy`: (Ku - f)^2. */
  function Discrepancy(ku: real, f: real): real
  {
    (ku - f) * (ku - f)
  }

  /** The TGV energy density of a pixel, given grad u (g), w (c) and the symmetrised
      gradient of w (e): alpha1 |g - c| + alpha0 |e|. */
  function TgvDensity(sqrt: real -> real, g: V2, c: V2, e: V3, alpha0: real, alpha1: real): real
  {
    alpha1 * Hypot(sqrt, g.s0 - c.s0, g.s1 - c.s1) + alpha0 * Norm3(sqrt, e)
  }

  /** The entries of `val2` that `functional_tgv` measures. val2 holds the backward
      differences (dx w0, dx w1, dy w0, dy w1), and the kernel's norm reads its entries
      0, 1 and 2: dx w0, dx w1 and dy w0. The symmetrised gradient `val3` it builds is
      never read. */
  function Val2Read(nx: int, w: seq<V2>, x: int, y: int): V3
  {
    V3(BwdX(nx, w, x, y).s0, BwdX(nx, w, x, y).s1, BwdY(nx, w, x, y).s0)
  }

  /** `functional_tgv` at pixel (x, y) as written: the second term is alpha0 times
      hypot(hypot(dx w0, dx w1), 2 dy w0). */
  function TgvAtAsWritten(sqrt: real -> real, nx: int, ny: int, u: seq<real>, w: seq<V2>, alpha0: real, alpha1: real,
                          x: int, y: int): real
  {
    TgvDensity(sqrt, Grad(nx, ny, u, x, y), Pixel2(nx, w, x, y), Val2Read(nx, w, x, y), alpha0, alpha1)
  }

  /** As written, with positive weights a pixel's density vanishes exactly when w
      equals the gradient of u there and dx w0, dx w1 and dy w0 vanish: dy w1 is
      never charged. */
  lemma TgvAtAsWrittenZero(sqrt: real -> real, nx: int, ny: int, u: seq<real>, w: seq<V2>, alpha0: real, alpha1: real,
                           x: int, y: int)
    requires IsSqrt(sqrt) && 0.0 < alpha0 && 0.0 < alpha1
    ensures 0.0 <= TgvAtAsWritten(sqrt, nx, ny, u, w, alpha0, alpha1, x, y)
    ensures TgvAtAsWritten(sqrt, nx, ny, u, w, alpha0, alpha1, x, y) == 0.0
        <==> Grad(nx, ny, u, x, y) == Pixel2(nx, w, x, y)
             && BwdX(nx, w, x, y) == V2(0.0, 0.0) && BwdY(nx, w, x, y).s0 == 0.0
  {
    TgvDensityFacts(sqrt, Grad(nx, ny, u, x, y), Pixel2(nx, w, x, y), Val2Read(nx, w, x, y), alpha0, alpha1);
  }

  /** The TGV energy density of pixel (x, y), with the symmetrised gradient of w the
      kernel builds as `val3`. */
  function TgvAt(sqrt: real -> real, nx: int, ny: int, u: seq<real>, w: seq<V2>, alpha0: real, alpha1: real,
                 x: int, y: int): real
  {
    TgvDensity(sqrt, Grad(nx, ny, u, x, y), Pixel2(nx, w, x, y), SymGrad(nx, w, x, y), alpha0, alpha1)
  }

  /** With positive weights the density vanishes exactly when w equals the gradient
      of u at the pixel and the symmetrised gradient of w vanishes there. */
  lemma TgvAtZero(sqrt: real -> real, nx: int, ny: int, u: seq<real>, w: seq<V2>, alpha0: real, alpha1: real,
                  x: int, y: int)
    requires IsSqrt(sqrt) && 0.0 < alpha0 && 0.0 < alpha1
    ensures 0.0 <= TgvAt(sqrt, nx, ny, u, w, alpha0, alpha1, x, y)
    ensures TgvAt(sqrt, nx, ny, u, w, alpha0, alpha1, x, y) == 0.0
        <==> Grad(nx, ny, u, x, y) == Pixel2(nx, w, x, y) && SymGrad(nx, w, x, y) == V3(0.0, 0.0, 0.0)
  {
    TgvDensityFacts(sqrt, Grad(nx, ny, u, x, y), Pixel2(nx, w, x, y), SymGrad(nx, w, x, y), alpha0, alpha1);
  }

  /** The two densities differ: on a one-column, two-row image with u = 0 and w zero
      except w(0, 1) = (0, 1), pixel (0, 1) has dy w1 = 1 and no other difference, so
      with alpha0 = 1 and alpha1 = 0 the kernel charges 0 where the symmetrised
      gradient charges 1. */
  lemma FunctionalTgvDropsDyW1(sqrt: real -> real)
    requires IsSqrt(sqrt)
    ensures TgvAtAsWritten(sqrt, 1, 2, [0.0, 0.0], [V2(0.0, 0.0), V2(0.0, 1.0)], 1.0, 0.0, 0, 1) == 0.0
    ensures TgvAt(sqrt, 1, 2, [0.0, 0.0], [V2(0.0, 0.0), V2(0.0, 1.0)], 1.0, 0.0, 0, 1) == 1.0
  {
    var u, w := [0.0, 0.0], [V2(0.0, 0.0), V2(0.0, 1.0)];
    assert Pixel2(1, w, 0, 1) == V2(0.0, 1.0) && Pixel2(1, w, 0, 0) == V2(0.0, 0.0);
    var g, c := Grad(1, 2, u, 0, 1), Pixel2(1, w, 0, 1);
    var ea, ec := Val2Read(1, w, 0, 1), SymGrad(1, w, 0, 1);
    assert ea == V3(0.0, 0.0, 0.0);
    assert ec == V3(0.0, 1.0, 0.0);
    Norm3Facts(sqrt, ea);
    Norm3Squares(sqrt, ec);
    SqrtUnique(sqrt, 1.0, 1.0);
    assert Norm3(sqrt, ec) == 1.0;
    var h := Hypot(sqrt, g.s0 - c.s0, g.s1 - c.s1);
    assert TgvDensity(sqrt, g, c, ea, 1.0, 0.0) == 0.0 * h + 1.0 * Norm3(sqrt, ea);
    assert TgvDensity(sqrt, g, c, ec, 1.0, 0.0) == 0.0 * h + 1.0 * Norm3(sqrt, ec);
  }

  /** With sigmap1inv = 1 / (1 + sigma), the new multiplier l' solves
      l' + sigma l' == l + sigma (Ku - f), and is the only value that does: it is the
      resolvent step of the quadratic data term. */
  lemma LambdaResolvent(l: real, ku: real, f: real, sigma: real, sigmap1inv: real, z: real)
    requires sigmap1inv * (1.0 + sigma) == 1.0
    ensures LambdaStep(l, ku, f, sigma, sigmap1inv) * (1.0 + sigma) == l + sigma * (ku - f)
    ensures z * (1.0 + sigma) == l + sigma * (ku - f) ==> z == LambdaStep(l, ku, f, sigma, sigmap1inv)
  {
    var t := l + sigma * (ku - f);
    assert LambdaStep(l, ku, f, sigma, sigmap1inv) * (1.0 + sigma) == t * (sigmap1inv * (1.0 + sigma));
    if z * (1.0 + sigma) == t {
      assert z == z * ((1.0 + sigma) * sigmap1inv);
    }
  }

  /** The discrepancy is a square: never negative, zero exactly where Ku matches f. */
  lemma DiscrepancyFacts(ku: real, f: real)
    ensures 0.0 <= Discrepancy(ku, f)
    ensures Discrepancy(ku, f) == 0.0 <==> ku == f
  {
    SquareNonneg(ku - f);
    SquareZero(ku - f);
  }

  /** The TGV density is never negative for non-negative weights; for positive weights
      it vanishes exactly where w equals the gradient of u and w has no symmetrised
      gradient. */
  lemma TgvDensityFacts(sqrt: real -> real, g: V2, c: V2, e: V3, alpha0: real, alpha1: real)
    requires IsSqrt(sqrt) && 0.0 <= alpha0 && 0.0 <= alpha1
    ensures 0.0 <= TgvDensity(sqrt, g, c, e, alpha0, alpha1)
    ensures 0.0 < alpha0 && 0.0 < alpha1 ==>
      (TgvDensity(sqrt, g, c, e, alpha0, alpha1) == 0.0 <==> g == c && e == V3(0.0, 0.0, 0.0))
  {
    var h1 := Hypot(sqrt, g.s0 - c.s0, g.s1 - c.s1);
    var h0 := Norm3(sqrt, e);
    HypotFacts(sqrt, g.s0 - c.s0, g.s1 - c.s1);
    Norm3Facts(sqrt, e);
    WeightedPair(alpha1, h1, alpha0, h0, TgvDensity(sqrt, g, c, e, alpha0, alpha1));
  }

  /** A weighted sum of two non-negative values with non-negative weights is
      non-negative, and with positive weights it is zero only when both values are. */
  lemma WeightedPair(a1: real, h1: real, a0: real, h0: real, v: real)
    requires 0.0 <= a1 && 0.0 <= h1 && 0.0 <= a0 && 0.0 <= h0 && v == a1 * h1 + a0 * h0
    ensures 0.0 <= v
    ensures 0.0 < a0 && 0.0 < a1 ==> (v == 0.0 <==> h1 == 0.0 && h0 == 0.0)
  {
    MulLeft(a1, 0.0, h1);
    MulLeft(a0, 0.0, h0);
    if 0.0 < a0 && 0.0 < a1 && v == 0.0 {
      ProductZero(a1, h1);
      ProductZero(a0, h0);
    }
  }

  lemma ProductZero(a: real, b: real)
    requires 0.0 < a && a * b == 0.0
    ensures b == 0.0
  {
    if b > 0.0 {
      MulLeftStrict(a, 0.0, b);
    } else if b < 0.0 {
      MulLeftStrict(a, b, 0.0);
    }
  }

  // ---------------------------------------------------------------------------
  // The primal steps in weak form: paired with any image v, the change made by
  // `update_u` is -tau (grad* p + norming K* lambda) and the change made by
  // `update_w` is tau (p - symgrad* q), where * is the adjoint of Tgv.

  /** v times the change `update_u` makes to u_, per pixel. */
  function UChange(nx: int, ny: int, v: seq<real>, u_: seq<real>, p: seq<V2>, kstar: seq<real>,
                   tau: real, norming: real): (int, int) -> real
  {
    (x, y) => UChangeAt(nx, ny, v, u_, p, kstar, tau, norming, x, y)
  }

  function UChangeAt(nx: int, ny: int, v: seq<real>, u_: seq<real>, p: seq<V2>, kstar: seq<real>,
                     tau: real, norming: real, x: int, y: int): real
  {
    Pixel(nx, v, x, y) * (UStep(nx, ny, u_, p, kstar, tau, norming, x, y) - Pixel(nx, u_, x, y))
  }

  /** The pixelwise product of two scalar images. */
  function Dot(nx: int, a: seq<real>, b: seq<real>): (int, int) -> real
  {
    (x, y) => DotAt(nx, a, b, x, y)
  }

  function DotAt(nx: int, a: seq<real>, b: seq<real>, x: int, y: int): real
  {
    Pixel(nx, a, x, y) * Pixel(nx, b, x, y)
  }

  lemma UChangePixel(a: real, u0: real, d: real, k: real, tau: real, norming: real, c: real, r: real)
    requires c == -(tau * norming)
    requires r == a * ((u0 + tau * (d - norming * k)) - u0)
    ensures r == tau * (a * d) + c * (a * k)
  {
  }

  lemma UChangeAtSplit(nx: int, ny: int, v: seq<real>, u_: seq<real>, p: seq<V2>, kstar: seq<real>,
                       tau: real, norming: real, c: real, x: int, y: int)
    requires c == -(tau * norming)
    ensures UChangeAt(nx, ny, v, u_, p, kstar, tau, norming, x, y)
         == tau * UDivAt(nx, ny, v, p, x, y) + c * DotAt(nx, v, kstar, x, y)
  {
    UChangePixel(Pixel(nx, v, x, y), Pixel(nx, u_, x, y), Tgv.Div(nx, ny, p, x, y), Pixel(nx, kstar, x, y),
                 tau, norming, c, UChangeAt(nx, ny, v, u_, p, kstar, tau, norming, x, y));
  }

  lemma UChangeForm(nx: int, ny: int, v: seq<real>, u_: seq<real>, p: seq<V2>, kstar: seq<real>,
                    tau: real, norming: real, c: real)
    requires c == -(tau * norming)
    ensures LinearComb(nx, ny, tau, UDiv(nx, ny, v, p), c, Dot(nx, v, kstar), UChange(nx, ny, v, u_, p, kstar, tau, norming))
  {
    forall x, y | 0 <= x < nx && 0 <= y < ny
      ensures UChange(nx, ny, v, u_, p, kstar, tau, norming)(x, y)
           == tau * UDiv(nx, ny, v, p)(x, y) + c * Dot(nx, v, kstar)(x, y)
    {
      UChangeAtSplit(nx, ny, v, u_, p, kstar, tau, norming, c, x, y);
    }
  }

  lemma UChangeSplit(nx: int, ny: int, v: seq<real>, u_: seq<real>, p: seq<V2>, kstar: seq<real>,
                     tau: real, norming: real, c: real)
    requires c == -(tau * norming)
    ensures GridSum(nx, ny, UChange(nx, ny, v, u_, p, kstar, tau, norming))
         == tau * GridSum(nx, ny, UDiv(nx, ny, v, p)) + c * GridSum(nx, ny, Dot(nx, v, kstar))
  {
    UChangeForm(nx, ny, v, u_, p, kstar, tau, norming, c);
    GridLinear(nx, ny, tau, UDiv(nx, ny, v, p), c, Dot(nx, v, kstar), UChange(nx, ny, v, u_, p, kstar, tau, norming));
  }

  /** `update_u` is the primal descent step u_ - tau (grad* p + norming K* lambda):
      <v, u - u_> + tau <grad v, p> + tau norming <v, K* lambda> == 0 for every v. */
  lemma UStepWeak(nx: int, ny: int, v: seq<real>, u_: seq<real>, p: seq<V2>, kstar: seq<real>,
                  tau: real, norming: real)
    ensures GridSum(nx, ny, UChange(nx, ny, v, u_, p, kstar, tau, norming))
          + tau * GridSum(nx, ny, GradDot(nx, ny, v, p))
          + tau * norming * GridSum(nx, ny, Dot(nx, v, kstar)) == 0.0
  {
    var tn := tau * norming;
    var c := -tn;
    UChangeSplit(nx, ny, v, u_, p, kstar, tau, norming, c);
    GradDivAdjoint(nx, ny, v, p);
    var gd := GridSum(nx, ny, GradDot(nx, ny, v, p));
    var ud := GridSum(nx, ny, UDiv(nx, ny, v, p));
    var dk := GridSum(nx, ny, Dot(nx, v, kstar));
    ScaledCancel(tau, gd, ud);
    ScaledCancel(dk, c, tn);
  }

  /** <v, change `update_w` makes to w_>, per pixel. */
  function WChange(nx: int, ny: int, v: seq<V2>, w_: seq<V2>, p: seq<V2>, q: seq<V3>, tau: real): (int, int) -> real
  {
    (x, y) => WChangeAt(nx, ny, v, w_, p, q, tau, x, y)
  }

  function WChangeAt(nx: int, ny: int, v: seq<V2>, w_: seq<V2>, p: seq<V2>, q: seq<V3>, tau: real,
                     x: int, y: int): real
  {
    var a := Pixel2(nx, v, x, y);
    var r := WStep(nx, ny, w_, p, q, tau, x, y);
    var c := Pixel2(nx, w_, x, y);
    a.s0 * (r.s0 - c.s0) + a.s1 * (r.s1 - c.s1)
  }

  /** The pixelwise inner product of two images of 2-vectors. */
  function Dot2(nx: int, a: seq<V2>, b: seq<V2>): (int, int) -> real
  {
    (x, y) => Dot2At(nx, a, b, x, y)
  }

  function Dot2At(nx: int, a: seq<V2>, b: seq<V2>, x: int, y: int): real
  {
    Pixel2(nx, a, x, y).s0 * Pixel2(nx, b, x, y).s0 + Pixel2(nx, a, x, y).s1 * Pixel2(nx, b, x, y).s1
  }

  lemma WChangePixel(a0: real, a1: real, c0: real, c1: real, p0: real, p1: real, d0: real, d1: real,
                     tau: real, r: real)
    requires r == a0 * ((c0 + tau * (p0 + d0)) - c0) + a1 * ((c1 + tau * (p1 + d1)) - c1)
    ensures r == tau * (a0 * p0 + a1 * p1) + tau * (a0 * d0 + a1 * d1)
  {
  }

  lemma WChangeAtSplit(nx: int, ny: int, v: seq<V2>, w_: seq<V2>, p: seq<V2>, q: seq<V3>, tau: real, x: int, y: int)
    ensures WChangeAt(nx, ny, v, w_, p, q, tau, x, y)
         == tau * Dot2At(nx, v, p, x, y) + tau * WDivSymAt(nx, ny, v, q, x, y)
  {
    var a := Pixel2(nx, v, x, y);
    var c := Pixel2(nx, w_, x, y);
    var d := Pixel2(nx, p, x, y);
    var e := DivSym(nx, ny, q, x, y);
    WChangePixel(a.s0, a.s1, c.s0, c.s1, d.s0, d.s1, e.s0, e.s1, tau, WChangeAt(nx, ny, v, w_, p, q, tau, x, y));
  }

  lemma WChangeForm(nx: int, ny: int, v: seq<V2>, w_: seq<V2>, p: seq<V2>, q: seq<V3>, tau: real)
    ensures LinearComb(nx, ny, tau, Dot2(nx, v, p), tau, WDivSym(nx, ny, v, q), WChange(nx, ny, v, w_, p, q, tau))
  {
    forall x, y | 0 <= x < nx && 0 <= y < ny
      ensures WChange(nx, ny, v, w_, p, q, tau)(x, y)
           == tau * Dot2(nx, v, p)(x, y) + tau * WDivSym(nx, ny, v, q)(x, y)
    {
      WChangeAtSplit(nx, ny, v, w_, p, q, tau, x, y);
    }
  }

  lemma WChangeSplit(nx: int, ny: int, v: seq<V2>, w_: seq<V2>, p: seq<V2>, q: seq<V3>, tau: real)
    ensures GridSum(nx, ny, WChange(nx, ny, v, w_, p, q, tau))
         == tau * GridSum(nx, ny, Dot2(nx, v, p)) + tau * GridSum(nx, ny, WDivSym(nx, ny, v, q))
  {
    WChangeForm(nx, ny, v, w_, p, q, tau);
    GridLinear(nx, ny, tau, Dot2(nx, v, p), tau, WDivSym(nx, ny, v, q), WChange(nx, ny, v, w_, p, q, tau));
  }

  /** `update_w` is the primal descent step w_ + tau (p - symgrad* q):
      <v, w - w_> - tau <v, p> + tau <symgrad v, q> == 0 for every v. */
  lemma WStepWeak(nx: int, ny: int, v: seq<V2>, w_: seq<V2>, p: seq<V2>, q: seq<V3>, tau: real)
    ensures GridSum(nx, ny, WChange(nx, ny, v, w_, p, q, tau))
          - tau * GridSum(nx, ny, Dot2(nx, v, p))
          + tau * GridSum(nx, ny, SymDot(nx, ny, v, q)) == 0.0
  {
    WChangeSplit(nx, ny, v, w_, p, q, tau);
    SymGradDivAdjoint(nx, ny, v, q);
    ScaledCancel(tau, GridSum(nx, ny, SymDot(nx, ny, v, q)), GridSum(nx, ny, WDivSym(nx, ny, v, q)));
  }

  /** t * a + t * b == 0 when a + b == 0. */
  lemma ScaledCancel(t: real, a: real, b: real)
    requires a + b == 0.0
    ensures t * a + t * b == 0.0 && a * t + b * t == 0.0
  {
  }

  // ---------------------------------------------------------------------------
  // The kernels

  /** `update_p`: every p[i] becomes PStep and lies in the dual ball of radius
      1/alphainv. */
  method UpdateP(p: array<V2>, u: array<real>, w: array<V2>, nx: int, ny: int,
                 sigma: real, alphainv: real, sqrt: real -> real)
    requires 0 <= nx && 0 <= ny && p.Length == nx * ny && p != w
    modifies p
    ensures forall x, y :: 0 <= x < nx && 0 <= y < ny ==>
      0 <= Idx(nx, x, y) < p.Length
      && p[Idx(nx, x, y)] == PStep(sqrt, nx, ny, old(p[..]), u[..], w[..], sigma, alphainv, x, y)
    ensures IsSqrt(sqrt) && 0.0 <= alphainv ==>
      forall i :: 0 <= i < p.Length ==> Fac2(sqrt, p[i], alphainv) <= 1.0
  {
    var ps, us, ws := p[..], u[..], w[..];
    Launch(p, nx, ny, (x, y) => PStep(sqrt, nx, ny, ps, us, ws, sigma, alphainv, x, y));
    if IsSqrt(sqrt) && 0.0 <= alphainv {
      forall i | 0 <= i < p.Length
        ensures Fac2(sqrt, p[i], alphainv) <= 1.0
      {
        var x, y := PixelOf(nx, ny, i);
        Reproject2Ball(sqrt, PAscent(nx, ny, ps, us, ws, sigma, x, y), alphainv);
      }
    }
  }

  /** `update_q`: every q[i] becomes QStep and lies in the dual ball of radius
      1/alphainv for the kernel's tensor length. */
  method UpdateQ(q: array<V3>, w: array<V2>, nx: int, ny: int, sigma: real, alphainv: real, sqrt: real -> real)
    requires 0 <= nx && 0 <= ny && q.Length == nx * ny
    modifies q
    ensures forall x, y :: 0 <= x < nx && 0 <= y < ny ==>
      0 <= Idx(nx, x, y) < q.Length
      && q[Idx(nx, x, y)] == QStep(sqrt, nx, old(q[..]), w[..], sigma, alphainv, x, y)
    ensures IsSqrt(sqrt) && 0.0 <= alphainv ==>
      forall i :: 0 <= i < q.Length ==> Fac3(sqrt, q[i], alphainv) <= 1.0
  {
    var qs, ws := q[..], w[..];
    Launch(q, nx, ny, (x, y) => QStep(sqrt, nx, qs, ws, sigma, alphainv, x, y));
    if IsSqrt(sqrt) && 0.0 <= alphainv {
      forall i | 0 <= i < q.Length
        ensures Fac3(sqrt, q[i], alphainv) <= 1.0
      {
        var x, y := PixelOf(nx, ny, i);
        Reproject3Ball(sqrt, QAscent(nx, qs, ws, sigma, x, y), alphainv);
      }
    }
  }

  /** `update_lambda`: every multiplier takes the resolvent step of LambdaStep. */
  method UpdateLambda(lambda: array<real>, ku: array<real>, f: array<real>, nx: int, ny: int,
                      sigma: real, sigmap1inv: real)
    requires 0 <= nx && 0 <= ny && lambda.Length == nx * ny && lambda != ku && lambda != f
    modifies lambda
    ensures forall x, y :: 0 <= x < nx && 0 <= y < ny ==>
      0 <= Idx(nx, x, y) < lambda.Length
      && lambda[Idx(nx, x, y)]
         == LambdaStep(Pixel(nx, old(lambda[..]), x, y), Pixel(nx, ku[..], x, y), Pixel(nx, f[..], x, y),
                       sigma, sigmap1inv)
  {
    var ls, ks, fs := lambda[..], ku[..], f[..];
    Launch(lambda, nx, ny, (x, y) => LambdaStep(Pixel(nx, ls, x, y), Pixel(nx, ks, x, y), Pixel(nx, fs, x, y),
                                                sigma, sigmap1inv));
  }

  /** `update_u`: every pixel takes the primal step UStep. */
  method UpdateU(u: array<real>, u_: array<real>, p: array<V2>, kstar: array<real>, nx: int, ny: int,
                 tau: real, norming: real)
    requires 0 <= nx && 0 <= ny && u.Length == nx * ny && u != u_ && u != kstar
    modifies u
    ensures forall x, y :: 0 <= x < nx && 0 <= y < ny ==>
      0 <= Idx(nx, x, y) < u.Length
      && u[Idx(nx, x, y)] == UStep(nx, ny, u_[..], p[..], kstar[..], tau, norming, x, y)
  {
    var us, ps, ks := u_[..], p[..], kstar[..];
    Launch(u, nx, ny, (x, y) => UStep(nx, ny, us, ps, ks, tau, norming, x, y));
  }

  /** `update_w`: every pixel takes the primal step WStep. */
  method UpdateW(w: array<V2>, w_: array<V2>, p: array<V2>, q: array<V3>, nx: int, ny: int, tau: real)
    requires 0 <= nx && 0 <= ny && w.Length == nx * ny && w != w_ && w != p
    modifies w
    ensures forall x, y :: 0 <= x < nx && 0 <= y < ny ==>
      0 <= Idx(nx, x, y) < w.Length
      && w[Idx(nx, x, y)] == WStep(nx, ny, w_[..], p[..], q[..], tau, x, y)
  {
    var ws, ps, qs := w_[..], p[..], q[..];
    Launch(w, nx, ny, (x, y) => WStep(nx, ny, ws, ps, qs, tau, x, y));
  }

  /** `functional_discrepancy`: the squared residual of every pixel, never negative
      and zero exactly where Ku matches f. */
  method FunctionalDiscrepancy(accum: array<real>, ku: array<real>, f: array<real>, nx: int, ny: int)
    requires 0 <= nx && 0 <= ny && accum.Length == nx * ny && accum != ku && accum != f
    modifies accum
    ensures forall x, y :: 0 <= x < nx && 0 <= y < ny ==>
      0 <= Idx(nx, x, y) < accum.Length
      && accum[Idx(nx, x, y)] == Discrepancy(Pixel(nx, ku[..], x, y), Pixel(nx, f[..], x, y))
    ensures forall i :: 0 <= i < accum.Length ==> 0.0 <= accum[i]
  {
    var ks, fs := ku[..], f[..];
    Launch(accum, nx, ny, (x, y) => Discrepancy(Pixel(nx, ks, x, y), Pixel(nx, fs, x, y)));
    forall i | 0 <= i < accum.Length
      ensures 0.0 <= accum[i]
    {
      var x, y := PixelOf(nx, ny, i);
      DiscrepancyFacts(Pixel(nx, ks, x, y), Pixel(nx, fs, x, y));
    }
  }

  /** `functional_tgv` as written: every pixel holds the kernel's density, which reads
      dx w0, dx w1 and dy w0, and is never negative for non-negative weights. */
  method FunctionalTgv(accum: array<real>, u: array<real>, w: array<V2>, nx: int, ny: int,
                       alpha0: real, alpha1: real, sqrt: real -> real)
    requires 0 <= nx && 0 <= ny && accum.Length == nx * ny && accum != u
    modifies accum
    ensures forall x, y :: 0 <= x < nx && 0 <= y < ny ==>
      0 <= Idx(nx, x, y) < accum.Length
      && accum[Idx(nx, x, y)] == TgvAtAsWritten(sqrt, nx, ny, u[..], w[..], alpha0, alpha1, x, y)
    ensures IsSqrt(sqrt) && 0.0 <= alpha0 && 0.0 <= alpha1 ==>
      forall i :: 0 <= i < accum.Length ==> 0.0 <= accum[i]
  {
    var us, ws := u[..], w[..];
    Launch(accum, nx, ny, (x, y) => TgvAtAsWritten(sqrt, nx, ny, us, ws, alpha0, alpha1, x, y));
    if IsSqrt(sqrt) && 0.0 <= alpha0 && 0.0 <= alpha1 {
      forall i | 0 <= i < accum.Length
        ensures 0.0 <= accum[i]
      {
        var x, y := PixelOf(nx, ny, i);
        TgvDensityFacts(sqrt, Grad(nx, ny, us, x, y), Pixel2(nx, ws, x, y), Val2Read(nx, ws, x, y), alpha0, alpha1);
      }
    }
  }
}
