/** The symmetrised gradient on complex input, as the unit test feeds it (complex64
    arrays), and the adjointness it checks with `np.vdot`, which conjugates its first
    argument. The weights and the slice spacing are real, so the gradient and the
    divergence act on the real and the imaginary part separately. */
module SymGradComplex {
  import opened Sums
  import opened Complex
  import opened SymGrad3D

  /** A complex array indexed (u, z, y, x, c). */
  type CTensor = (int, int, int, int, int) -> C

  /** A complex array indexed (u, z, y, x). */
  type CGrid4 = (int, int, int, int) -> C

  function ReT(v: CTensor): Tensor
  {
    (u, z, y, x, c) => v(u, z, y, x, c).re
  }

  function ImT(v: CTensor): Tensor
  {
    (u, z, y, x, c) => v(u, z, y, x, c).im
  }

  function ReG(f: CGrid4): Grid4
  {
    (u, z, y, x) => f(u, z, y, x).re
  }

  function ImG(f: CGrid4): Grid4
  {
    (u, z, y, x) => f(u, z, y, x).im
  }

  /** Component c of the weighted symmetrised gradient of a complex input. */
  function SymGradC(w: int -> real, dz: real, v: CTensor, u: int, z: int, y: int, x: int, c: int): C
  {
    C(SymGrad(w, dz, ReT(v), u, z, y, x, c), SymGrad(w, dz, ImT(v), u, z, y, x, c))
  }

  /** Component c of the weighted divergence of a complex tensor. */
  function SymDivC(nz: int, ny: int, nx: int, w: int -> real, dz: real, q: CTensor,
                   u: int, z: int, y: int, x: int, c: int): C
  {
    C(SymDiv(nz, ny, nx, w, dz, ReT(q), u, z, y, x, c), SymDiv(nz, ny, nx, w, dz, ImT(q), u, z, y, x, c))
  }

  /** The complex sum over the box, taken lane by lane. */
  function CVol4(nu: int, nz: int, ny: int, nx: int, f: CGrid4): C
  {
    C(Vol4(nu, nz, ny, nx, ReG(f)), Vol4(nu, nz, ny, nx, ImG(f)))
  }

  /** The vdot terms conj(a) * b of three component pairs, added. */
  function ConjDot3(a0: C, a1: C, a2: C, b0: C, b1: C, b2: C): C
  {
    Add(Add(Mul(Conj(a0), b0), Mul(Conj(a1), b1)), Mul(Conj(a2), b2))
  }

  /** The vdot terms of components c0, c1 and c2 of two complex arrays at each point. */
  function CDot3(a: CTensor, b: CTensor, c0: int, c1: int, c2: int): CGrid4
  {
    (u, z, y, x) => ConjDot3(a(u, z, y, x, c0), a(u, z, y, x, c1), a(u, z, y, x, c2),
                             b(u, z, y, x, c0), b(u, z, y, x, c1), b(u, z, y, x, c2))
  }

  /** The gradient of a complex input as an array. */
  function CGradOf(w: int -> real, dz: real, v: CTensor): CTensor
  {
    (u, z, y, x, c) => SymGradC(w, dz, v, u, z, y, x, c)
  }

  /** The negated divergence of a complex tensor as an array. */
  function CNegDivOf(nz: int, ny: int, nx: int, w: int -> real, dz: real, q: CTensor): CTensor
  {
    (u, z, y, x, c) => Neg(SymDivC(nz, ny, nx, w, dz, q, u, z, y, x, c))
  }

  /** Terms of vdot(gradient[..., :3], q[..., :3]). */
  function CDiagDot(w: int -> real, dz: real, v: CTensor, q: CTensor): CGrid4
  {
    CDot3(CGradOf(w, dz, v), q, 0, 1, 2)
  }

  /** Terms of vdot(gradient[..., 3:6], q[..., 3:6]). */
  function COffDot(w: int -> real, dz: real, v: CTensor, q: CTensor): CGrid4
  {
    CDot3(CGradOf(w, dz, v), q, 3, 4, 5)
  }

  /** Terms of vdot(v[..., :3], -divergence[..., :3]). */
  function CNegDivDot(nz: int, ny: int, nx: int, w: int -> real, dz: real, v: CTensor, q: CTensor): CGrid4
  {
    CDot3(v, CNegDivOf(nz, ny, nx, w, dz, q), 0, 1, 2)
  }

  /** The lanes of conj(a) * b: the real part pairs equal lanes, the imaginary part
      crosses them with opposite signs. */
  lemma ConjDot3Lanes(a0: C, a1: C, a2: C, b0: C, b1: C, b2: C)
    ensures ConjDot3(a0, a1, a2, b0, b1, b2).re
         == (a0.re * b0.re + a1.re * b1.re + a2.re * b2.re) + (a0.im * b0.im + a1.im * b1.im + a2.im * b2.im)
    ensures ConjDot3(a0, a1, a2, b0, b1, b2).im
         == (a0.re * b0.im + a1.re * b1.im + a2.re * b2.im) - (a0.im * b0.re + a1.im * b1.re + a2.im * b2.re)
  {
  }

  /** A real Dot3 at one point, in terms of its six factors. */
  lemma Dot3At(a: Tensor, b: Tensor, c0: int, c1: int, c2: int, u: int, z: int, y: int, x: int,
               a0: real, a1: real, a2: real, b0: real, b1: real, b2: real)
    requires a0 == a(u, z, y, x, c0) && a1 == a(u, z, y, x, c1) && a2 == a(u, z, y, x, c2)
    requires b0 == b(u, z, y, x, c0) && b1 == b(u, z, y, x, c1) && b2 == b(u, z, y, x, c2)
    ensures Dot3(a, b, c0, c1, c2)(u, z, y, x) == a0 * b0 + a1 * b1 + a2 * b2
  {
  }

  /** The real lane of complex vdot terms is the sum of the real products of equal lanes. */
  lemma CDot3Re(a: CTensor, b: CTensor, c0: int, c1: int, c2: int, u: int, z: int, y: int, x: int)
    ensures ReG(CDot3(a, b, c0, c1, c2))(u, z, y, x)
         == 1.0 * Dot3(ReT(a), ReT(b), c0, c1, c2)(u, z, y, x) + 1.0 * Dot3(ImT(a), ImT(b), c0, c1, c2)(u, z, y, x)
  {
    var a0, a1, a2 := a(u, z, y, x, c0), a(u, z, y, x, c1), a(u, z, y, x, c2);
    var b0, b1, b2 := b(u, z, y, x, c0), b(u, z, y, x, c1), b(u, z, y, x, c2);
    ConjDot3Lanes(a0, a1, a2, b0, b1, b2);
    Dot3At(ReT(a), ReT(b), c0, c1, c2, u, z, y, x, a0.re, a1.re, a2.re, b0.re, b1.re, b2.re);
    Dot3At(ImT(a), ImT(b), c0, c1, c2, u, z, y, x, a0.im, a1.im, a2.im, b0.im, b1.im, b2.im);
  }

  /** The imaginary lane of complex vdot terms crosses the lanes with opposite signs. */
  lemma CDot3Im(a: CTensor, b: CTensor, c0: int, c1: int, c2: int, u: int, z: int, y: int, x: int)
    ensures ImG(CDot3(a, b, c0, c1, c2))(u, z, y, x)
         == 1.0 * Dot3(ReT(a), ImT(b), c0, c1, c2)(u, z, y, x) + -1.0 * Dot3(ImT(a), ReT(b), c0, c1, c2)(u, z, y, x)
  {
    var a0, a1, a2 := a(u, z, y, x, c0), a(u, z, y, x, c1), a(u, z, y, x, c2);
    var b0, b1, b2 := b(u, z, y, x, c0), b(u, z, y, x, c1), b(u, z, y, x, c2);
    ConjDot3Lanes(a0, a1, a2, b0, b1, b2);
    Dot3At(ReT(a), ImT(b), c0, c1, c2, u, z, y, x, a0.re, a1.re, a2.re, b0.im, b1.im, b2.im);
    Dot3At(ImT(a), ReT(b), c0, c1, c2, u, z, y, x, a0.im, a1.im, a2.im, b0.re, b1.re, b2.re);
  }

  /** Dot3 at a point reads only the three components there. */
  lemma Dot3Ext(a: Tensor, a': Tensor, b: Tensor, c0: int, c1: int, c2: int, u: int, z: int, y: int, x: int)
    requires a(u, z, y, x, c0) == a'(u, z, y, x, c0) && a(u, z, y, x, c1) == a'(u, z, y, x, c1)
    requires a(u, z, y, x, c2) == a'(u, z, y, x, c2)
    ensures Dot3(a, b, c0, c1, c2)(u, z, y, x) == Dot3(a', b, c0, c1, c2)(u, z, y, x)
  {
    Dot3At(a, b, c0, c1, c2, u, z, y, x, a(u, z, y, x, c0), a(u, z, y, x, c1), a(u, z, y, x, c2),
           b(u, z, y, x, c0), b(u, z, y, x, c1), b(u, z, y, x, c2));
    Dot3At(a', b, c0, c1, c2, u, z, y, x, a(u, z, y, x, c0), a(u, z, y, x, c1), a(u, z, y, x, c2),
           b(u, z, y, x, c0), b(u, z, y, x, c1), b(u, z, y, x, c2));
  }

  /** The gradient of a complex input is the real gradient of each lane. */
  lemma GradLanes(w: int -> real, dz: real, v: CTensor, u: int, z: int, y: int, x: int, c: int)
    ensures ReT(CGradOf(w, dz, v))(u, z, y, x, c) == GradOf(w, dz, ReT(v))(u, z, y, x, c)
    ensures ImT(CGradOf(w, dz, v))(u, z, y, x, c) == GradOf(w, dz, ImT(v))(u, z, y, x, c)
  {
  }

  /** The real lane of the gradient's vdot terms: equal lanes of gradient and q paired. */
  lemma GradDotRe(w: int -> real, dz: real, v: CTensor, q: CTensor, c0: int, c1: int, c2: int,
                  u: int, z: int, y: int, x: int)
    ensures ReG(CDot3(CGradOf(w, dz, v), q, c0, c1, c2))(u, z, y, x)
         == 1.0 * Dot3(GradOf(w, dz, ReT(v)), ReT(q), c0, c1, c2)(u, z, y, x)
          + 1.0 * Dot3(GradOf(w, dz, ImT(v)), ImT(q), c0, c1, c2)(u, z, y, x)
  {
    var g := CGradOf(w, dz, v);
    CDot3Re(g, q, c0, c1, c2, u, z, y, x);
    GradLanes(w, dz, v, u, z, y, x, c0);
    GradLanes(w, dz, v, u, z, y, x, c1);
    GradLanes(w, dz, v, u, z, y, x, c2);
    Dot3Ext(ReT(g), GradOf(w, dz, ReT(v)), ReT(q), c0, c1, c2, u, z, y, x);
    Dot3Ext(ImT(g), GradOf(w, dz, ImT(v)), ImT(q), c0, c1, c2, u, z, y, x);
  }

  /** The imaginary lane of the gradient's vdot terms: lanes crossed. */
  lemma GradDotIm(w: int -> real, dz: real, v: CTensor, q: CTensor, c0: int, c1: int, c2: int,
                  u: int, z: int, y: int, x: int)
    ensures ImG(CDot3(CGradOf(w, dz, v), q, c0, c1, c2))(u, z, y, x)
         == 1.0 * Dot3(GradOf(w, dz, ReT(v)), ImT(q), c0, c1, c2)(u, z, y, x)
          + -1.0 * Dot3(GradOf(w, dz, ImT(v)), ReT(q), c0, c1, c2)(u, z, y, x)
  {
    var g := CGradOf(w, dz, v);
    CDot3Im(g, q, c0, c1, c2, u, z, y, x);
    GradLanes(w, dz, v, u, z, y, x, c0);
    GradLanes(w, dz, v, u, z, y, x, c1);
    GradLanes(w, dz, v, u, z, y, x, c2);
    Dot3Ext(ReT(g), GradOf(w, dz, ReT(v)), ImT(q), c0, c1, c2, u, z, y, x);
    Dot3Ext(ImT(g), GradOf(w, dz, ImT(v)), ReT(q), c0, c1, c2, u, z, y, x);
  }

  /** The negated divergence of a complex tensor is the real one of each lane. */
  lemma NegDivLanes(nz: int, ny: int, nx: int, w: int -> real, dz: real, q: CTensor,
                    u: int, z: int, y: int, x: int, c: int)
    ensures ReT(CNegDivOf(nz, ny, nx, w, dz, q))(u, z, y, x, c) == 0.0 - SymDiv(nz, ny, nx, w, dz, ReT(q), u, z, y, x, c)
    ensures ImT(CNegDivOf(nz, ny, nx, w, dz, q))(u, z, y, x, c) == 0.0 - SymDiv(nz, ny, nx, w, dz, ImT(q), u, z, y, x, c)
  {
  }

  lemma NegAlgebra(a0: real, a1: real, a2: real, n0: real, n1: real, n2: real, d0: real, d1: real, d2: real)
    requires n0 == 0.0 - d0 && n1 == 0.0 - d1 && n2 == 0.0 - d2
    ensures a0 * n0 + a1 * n1 + a2 * n2 == a0 * (0.0 - d0) + a1 * (0.0 - d1) + a2 * (0.0 - d2)
  {
  }

  /** A real array against any array holding the negated divergence of qr gives the
      real products NegDivDot. */
  lemma NegDivAsDot(nz: int, ny: int, nx: int, w: int -> real, dz: real, vr: Tensor, qr: Tensor, n: Tensor,
                    u: int, z: int, y: int, x: int)
    requires n(u, z, y, x, 0) == 0.0 - SymDiv(nz, ny, nx, w, dz, qr, u, z, y, x, 0)
    requires n(u, z, y, x, 1) == 0.0 - SymDiv(nz, ny, nx, w, dz, qr, u, z, y, x, 1)
    requires n(u, z, y, x, 2) == 0.0 - SymDiv(nz, ny, nx, w, dz, qr, u, z, y, x, 2)
    ensures Dot3(vr, n, 0, 1, 2)(u, z, y, x) == NegDivDot(nz, ny, nx, w, dz, vr, qr)(u, z, y, x)
  {
    var a0, a1, a2 := vr(u, z, y, x, 0), vr(u, z, y, x, 1), vr(u, z, y, x, 2);
    var n0, n1, n2 := n(u, z, y, x, 0), n(u, z, y, x, 1), n(u, z, y, x, 2);
    var d0, d1, d2 := SymDiv(nz, ny, nx, w, dz, qr, u, z, y, x, 0), SymDiv(nz, ny, nx, w, dz, qr, u, z, y, x, 1),
                      SymDiv(nz, ny, nx, w, dz, qr, u, z, y, x, 2);
    Dot3At(vr, n, 0, 1, 2, u, z, y, x, a0, a1, a2, n0, n1, n2);
    NegDivCompAt(nz, ny, nx, w, dz, vr, qr, u, 0, z, y, x, a0, d0, NegDivComp(nz, ny, nx, w, dz, vr, qr, u, 0)(z, y, x));
    NegDivCompAt(nz, ny, nx, w, dz, vr, qr, u, 1, z, y, x, a1, d1, NegDivComp(nz, ny, nx, w, dz, vr, qr, u, 1)(z, y, x));
    NegDivCompAt(nz, ny, nx, w, dz, vr, qr, u, 2, z, y, x, a2, d2, NegDivComp(nz, ny, nx, w, dz, vr, qr, u, 2)(z, y, x));
    NegAlgebra(a0, a1, a2, n0, n1, n2, d0, d1, d2);
  }

  /** The real lane of the divergence side's vdot terms. */
  lemma NegDivDotRe(nz: int, ny: int, nx: int, w: int -> real, dz: real, v: CTensor, q: CTensor,
                    u: int, z: int, y: int, x: int)
    ensures ReG(CNegDivDot(nz, ny, nx, w, dz, v, q))(u, z, y, x)
         == 1.0 * NegDivDot(nz, ny, nx, w, dz, ReT(v), ReT(q))(u, z, y, x)
          + 1.0 * NegDivDot(nz, ny, nx, w, dz, ImT(v), ImT(q))(u, z, y, x)
  {
    var n := CNegDivOf(nz, ny, nx, w, dz, q);
    CDot3Re(v, n, 0, 1, 2, u, z, y, x);
    NegDivLanes(nz, ny, nx, w, dz, q, u, z, y, x, 0);
    NegDivLanes(nz, ny, nx, w, dz, q, u, z, y, x, 1);
    NegDivLanes(nz, ny, nx, w, dz, q, u, z, y, x, 2);
    NegDivAsDot(nz, ny, nx, w, dz, ReT(v), ReT(q), ReT(n), u, z, y, x);
    NegDivAsDot(nz, ny, nx, w, dz, ImT(v), ImT(q), ImT(n), u, z, y, x);
  }

  /** The imaginary lane of the divergence side's vdot terms. */
  lemma NegDivDotIm(nz: int, ny: int, nx: int, w: int -> real, dz: real, v: CTensor, q: CTensor,
                    u: int, z: int, y: int, x: int)
    ensures ImG(CNegDivDot(nz, ny, nx, w, dz, v, q))(u, z, y, x)
         == 1.0 * NegDivDot(nz, ny, nx, w, dz, ReT(v), ImT(q))(u, z, y, x)
          + -1.0 * NegDivDot(nz, ny, nx, w, dz, ImT(v), ReT(q))(u, z, y, x)
  {
    var n := CNegDivOf(nz, ny, nx, w, dz, q);
    CDot3Im(v, n, 0, 1, 2, u, z, y, x);
    NegDivLanes(nz, ny, nx, w, dz, q, u, z, y, x, 0);
    NegDivLanes(nz, ny, nx, w, dz, q, u, z, y, x, 1);
    NegDivLanes(nz, ny, nx, w, dz, q, u, z, y, x, 2);
    NegDivAsDot(nz, ny, nx, w, dz, ReT(v), ImT(q), ImT(n), u, z, y, x);
    NegDivAsDot(nz, ny, nx, w, dz, ImT(v), ReT(q), ReT(n), u, z, y, x);
  }

  /** At every point of the box, the real lane of the diagonal vdot terms. */
  lemma DiagCombRe(nu: int, nz: int, ny: int, nx: int, w: int -> real, dz: real, v: CTensor, q: CTensor)
    ensures Comb4(nu, nz, ny, nx, 1.0, DiagDot(w, dz, ReT(v), ReT(q)), 1.0, DiagDot(w, dz, ImT(v), ImT(q)), ReG(CDiagDot(w, dz, v, q)))
  {
    forall u, z, y, x | 0 <= u < nu && 0 <= z < nz && 0 <= y < ny && 0 <= x < nx
      ensures ReG(CDiagDot(w, dz, v, q))(u, z, y, x)
           == 1.0 * DiagDot(w, dz, ReT(v), ReT(q))(u, z, y, x) + 1.0 * DiagDot(w, dz, ImT(v), ImT(q))(u, z, y, x)
    {
      GradDotRe(w, dz, v, q, 0, 1, 2, u, z, y, x);
    }
  }

  /** At every point of the box, the imaginary lane of the diagonal vdot terms. */
  lemma DiagCombIm(nu: int, nz: int, ny: int, nx: int, w: int -> real, dz: real, v: CTensor, q: CTensor)
    ensures Comb4(nu, nz, ny, nx, 1.0, DiagDot(w, dz, ReT(v), ImT(q)), -1.0, DiagDot(w, dz, ImT(v), ReT(q)), ImG(CDiagDot(w, dz, v, q)))
  {
    forall u, z, y, x | 0 <= u < nu && 0 <= z < nz && 0 <= y < ny && 0 <= x < nx
      ensures ImG(CDiagDot(w, dz, v, q))(u, z, y, x)
           == 1.0 * DiagDot(w, dz, ReT(v), ImT(q))(u, z, y, x) + -1.0 * DiagDot(w, dz, ImT(v), ReT(q))(u, z, y, x)
    {
      GradDotIm(w, dz, v, q, 0, 1, 2, u, z, y, x);
    }
  }



  /** At every point of the box, the real lane of the off-diagonal vdot terms. */
  lemma OffCombRe(nu: int, nz: int, ny: int, nx: int, w: int -> real, dz: real, v: CTensor, q: CTensor)
    ensures Comb4(nu, nz, ny, nx, 1.0, OffDot(w, dz, ReT(v), ReT(q)), 1.0, OffDot(w, dz, ImT(v), ImT(q)), ReG(COffDot(w, dz, v, q)))
  {
    forall u, z, y, x | 0 <= u < nu && 0 <= z < nz && 0 <= y < ny && 0 <= x < nx
      ensures ReG(COffDot(w, dz, v, q))(u, z, y, x)
           == 1.0 * OffDot(w, dz, ReT(v), ReT(q))(u, z, y, x) + 1.0 * OffDot(w, dz, ImT(v), ImT(q))(u, z, y, x)
    {
      GradDotRe(w, dz, v, q, 3, 4, 5, u, z, y, x);
    }
  }

  /** At every point of the box, the imaginary lane of the off-diagonal vdot terms. */
  lemma OffCombIm(nu: int, nz: int, ny: int, nx: int, w: int -> real, dz: real, v: CTensor, q: CTensor)
    ensures Comb4(nu, nz, ny, nx, 1.0, OffDot(w, dz, ReT(v), ImT(q)), -1.0, OffDot(w, dz, ImT(v), ReT(q)), ImG(COffDot(w, dz, v, q)))
  {
    forall u, z, y, x | 0 <= u < nu && 0 <= z < nz && 0 <= y < ny && 0 <= x < nx
      ensures ImG(COffDot(w, dz, v, q))(u, z, y, x)
           == 1.0 * OffDot(w, dz, ReT(v), ImT(q))(u, z, y, x) + -1.0 * OffDot(w, dz, ImT(v), ReT(q))(u, z, y, x)
    {
      GradDotIm(w, dz, v, q, 3, 4, 5, u, z, y, x);
    }
  }



  /** At every point of the box, the real lane of the divergence-side vdot terms. */
  lemma NegDivCombRe(nu: int, nz: int, ny: int, nx: int, w: int -> real, dz: real, v: CTensor, q: CTensor)
    ensures Comb4(nu, nz, ny, nx, 1.0, NegDivDot(nz, ny, nx, w, dz, ReT(v), ReT(q)), 1.0, NegDivDot(nz, ny, nx, w, dz, ImT(v), ImT(q)), ReG(CNegDivDot(nz, ny, nx, w, dz, v, q)))
  {
    forall u, z, y, x | 0 <= u < nu && 0 <= z < nz && 0 <= y < ny && 0 <= x < nx
      ensures ReG(CNegDivDot(nz, ny, nx, w, dz, v, q))(u, z, y, x)
           == 1.0 * NegDivDot(nz, ny, nx, w, dz, ReT(v), ReT(q))(u, z, y, x) + 1.0 * NegDivDot(nz, ny, nx, w, dz, ImT(v), ImT(q))(u, z, y, x)
    {
      NegDivDotRe(nz, ny, nx, w, dz, v, q, u, z, y, x);
    }
  }

  /** At every point of the box, the imaginary lane of the divergence-side vdot terms. */
  lemma NegDivCombIm(nu: int, nz: int, ny: int, nx: int, w: int -> real, dz: real, v: CTensor, q: CTensor)
    ensures Comb4(nu, nz, ny, nx, 1.0, NegDivDot(nz, ny, nx, w, dz, ReT(v), ImT(q)), -1.0, NegDivDot(nz, ny, nx, w, dz, ImT(v), ReT(q)), ImG(CNegDivDot(nz, ny, nx, w, dz, v, q)))
  {
    forall u, z, y, x | 0 <= u < nu && 0 <= z < nz && 0 <= y < ny && 0 <= x < nx
      ensures ImG(CNegDivDot(nz, ny, nx, w, dz, v, q))(u, z, y, x)
           == 1.0 * NegDivDot(nz, ny, nx, w, dz, ReT(v), ImT(q))(u, z, y, x) + -1.0 * NegDivDot(nz, ny, nx, w, dz, ImT(v), ReT(q))(u, z, y, x)
    {
      NegDivDotIm(nz, ny, nx, w, dz, v, q, u, z, y, x);
    }
  }



  /** The lane arithmetic of the complex adjointness: grids that are the same
      combination of two real adjoint pairs form an adjoint pair themselves. */
  lemma LaneGlue(nu: int, nz: int, ny: int, nx: int, k: real, d: Grid4, o: Grid4, n: Grid4,
                 d1: Grid4, d2: Grid4, o1: Grid4, o2: Grid4, n1: Grid4, n2: Grid4)
    requires Comb4(nu, nz, ny, nx, 1.0, d1, k, d2, d)
    requires Comb4(nu, nz, ny, nx, 1.0, o1, k, o2, o)
    requires Comb4(nu, nz, ny, nx, 1.0, n1, k, n2, n)
    requires Vol4(nu, nz, ny, nx, d1) + 2.0 * Vol4(nu, nz, ny, nx, o1) == Vol4(nu, nz, ny, nx, n1)
    requires Vol4(nu, nz, ny, nx, d2) + 2.0 * Vol4(nu, nz, ny, nx, o2) == Vol4(nu, nz, ny, nx, n2)
    ensures Vol4(nu, nz, ny, nx, d) + 2.0 * Vol4(nu, nz, ny, nx, o) == Vol4(nu, nz, ny, nx, n)
  {
    Vol4Lin(nu, nz, ny, nx, 1.0, d1, k, d2, d);
    Vol4Lin(nu, nz, ny, nx, 1.0, o1, k, o2, o);
    Vol4Lin(nu, nz, ny, nx, 1.0, n1, k, n2, n);
  }

  /** Two lane equations give the complex one. */
  lemma LanesGive(a: C, b: C, c: C)
    requires a.re + 2.0 * b.re == c.re && a.im + 2.0 * b.im == c.im
    ensures Add(a, Scale(2.0, b)) == c
  {
  }

  /** The adjointness the test checks on complex input: with vdot conjugating its first
      argument, vdot(G v, q) over the diagonal plus twice vdot(G v, q) over the
      off-diagonal equals vdot(v, -div q). */
  lemma SymGradAdjointC(nu: nat, nz: nat, ny: nat, nx: nat, w: int -> real, dz: real, v: CTensor, q: CTensor)
    ensures Add(CVol4(nu, nz, ny, nx, CDiagDot(w, dz, v, q)), Scale(2.0, CVol4(nu, nz, ny, nx, COffDot(w, dz, v, q))))
         == CVol4(nu, nz, ny, nx, CNegDivDot(nz, ny, nx, w, dz, v, q))
  {
    var vr, vi, qr, qi := ReT(v), ImT(v), ReT(q), ImT(q);
    DiagCombRe(nu, nz, ny, nx, w, dz, v, q);
    DiagCombIm(nu, nz, ny, nx, w, dz, v, q);
    OffCombRe(nu, nz, ny, nx, w, dz, v, q);
    OffCombIm(nu, nz, ny, nx, w, dz, v, q);
    NegDivCombRe(nu, nz, ny, nx, w, dz, v, q);
    NegDivCombIm(nu, nz, ny, nx, w, dz, v, q);
    SymGradAdjoint(nu, nz, ny, nx, w, dz, vr, qr);
    SymGradAdjoint(nu, nz, ny, nx, w, dz, vi, qi);
    SymGradAdjoint(nu, nz, ny, nx, w, dz, vr, qi);
    SymGradAdjoint(nu, nz, ny, nx, w, dz, vi, qr);
    LaneGlue(nu, nz, ny, nx, 1.0, ReG(CDiagDot(w, dz, v, q)), ReG(COffDot(w, dz, v, q)),
             ReG(CNegDivDot(nz, ny, nx, w, dz, v, q)),
             DiagDot(w, dz, vr, qr), DiagDot(w, dz, vi, qi), OffDot(w, dz, vr, qr), OffDot(w, dz, vi, qi),
             NegDivDot(nz, ny, nx, w, dz, vr, qr), NegDivDot(nz, ny, nx, w, dz, vi, qi));
    LaneGlue(nu, nz, ny, nx, -1.0, ImG(CDiagDot(w, dz, v, q)), ImG(COffDot(w, dz, v, q)),
             ImG(CNegDivDot(nz, ny, nx, w, dz, v, q)),
             DiagDot(w, dz, vr, qi), DiagDot(w, dz, vi, qr), OffDot(w, dz, vr, qi), OffDot(w, dz, vi, qr),
             NegDivDot(nz, ny, nx, w, dz, vr, qi), NegDivDot(nz, ny, nx, w, dz, vi, qr));
    LanesGive(CVol4(nu, nz, ny, nx, CDiagDot(w, dz, v, q)), CVol4(nu, nz, ny, nx, COffDot(w, dz, v, q)),
              CVol4(nu, nz, ny, nx, CNegDivDot(nz, ny, nx, w, dz, v, q)));
  }
}
