/** The arithmetic of the primal-dual iteration `tgv_solve_2D`, as functions of its
    vectors: the proximal steps of the primal and the dual variables, the scaling of
    the TGV duals back into their balls, the step-size rule, one trial of the
    backtracking search, the primal and dual energies and the stopping decision.

    Vectors are the solver's arrays flattened in C order: x is [unknowns, X, Y], v and
    z1 are [unknowns_TGV, 2, X, Y], z2 is [unknowns_TGV, 3, X, Y], z3 is
    [unknowns_H1, 2, X, Y]. With P = X*Y pixels, image k of such a stack holds pixel p
    at Idx(P, p, k) = P*k + p. Reals stand for the single-precision floats. */
module SolverMath {
  import opened Sums
  import opened Images
  import opened Complex
  import opened Roots

  /** Constants of the line search: initial theta and beta, the shrink factor mu_line
      and the acceptance factor delta_line. */
  const Theta0 := 1.0
  const BetaLine0 := 400.0
  const MuLine := 0.5
  const DeltaLine := 1.0

  // ---------------------------------------------------------------- vectors

  /** a*u + b*w entry by entry over the entries of u; w reads as zero past its end. */
  function VLin(a: real, u: seq<C>, b: real, w: seq<C>): (r: seq<C>)
    ensures |r| == |u|
    ensures forall i {:trigger r[i]} :: 0 <= i < |u| ==> r[i] == Add(Scale(a, u[i]), Scale(b, CAt(w, i)))
  {
    seq(|u|, i requires 0 <= i < |u| => Add(Scale(a, u[i]), Scale(b, CAt(w, i))))
  }

  /** u - w. */
  function VSub(u: seq<C>, w: seq<C>): (r: seq<C>)
    ensures |r| == |u|
    ensures forall i {:trigger r[i]} :: 0 <= i < |u| ==> r[i] == Sub(u[i], CAt(w, i))
  {
    VLin(1.0, u, -1.0, w)
  }

  /** u[:n] of the flattened array. */
  function Head(u: seq<C>, n: nat): (r: seq<C>)
    ensures |r| == if n <= |u| then n else |u|
    ensures forall i {:trigger r[i]} :: 0 <= i < |r| ==> r[i] == u[i]
  {
    if n <= |u| then u[..n] else u
  }

  /** u[-n:] of the flattened array, n > 0: its last n entries. */
  function Tail(u: seq<C>, n: nat): (r: seq<C>)
    ensures |r| == if n <= |u| then n else |u|
    ensures forall i {:trigger r[i]} :: 0 <= i < |r| ==> r[i] == u[|u| - |r| + i]
  {
    if n <= |u| then u[|u| - n..] else u
  }

  function SqAt(u: seq<C>): int -> real
  {
    i => AbsSq(CAt(u, i))
  }

  /** The squared Euclidean norm, the real part of vdot(u, u). */
  function NormSq(u: seq<C>): (r: real)
    ensures 0.0 <= r
  {
    SumNonneg(|u|, SqAt(u));
    Sum(|u|, SqAt(u))
  }

  /** The norm of a concatenation squares to the sum of the squared norms. */
  lemma {:induction false} NormSqConcat(a: seq<C>, b: seq<C>)
    ensures NormSq(a + b) == NormSq(a) + NormSq(b)
    decreases |b|
  {
    if b == [] {
      assert a + b == a;
    } else {
      var b', e := b[..|b| - 1], b[|b| - 1];
      assert a + b == (a + b') + [e];
      NormSqConcat(a, b');
      SumExt(|a + b'|, SqAt(a + b), SqAt(a + b'));
      SumExt(|b'|, SqAt(b), SqAt(b'));
      assert SqAt(a + b)(|a + b'|) == AbsSq(e) == SqAt(b)(|b'|);
    }
  }

  function ModAt(sqrt: real -> real, u: seq<C>): int -> real
  {
    i => Hypot(sqrt, CAt(u, i).re, CAt(u, i).im)
  }

  /** sum(abs(u)): the sum of the moduli of the entries. */
  function AbsSum(sqrt: real -> real, u: seq<C>): real
  {
    Sum(|u|, ModAt(sqrt, u))
  }

  function ReAt(u: seq<C>): int -> real
  {
    i => CAt(u, i).re
  }

  /** The real part of sum(u). */
  function ReSum(u: seq<C>): real
  {
    Sum(|u|, ReAt(u))
  }

  function DotAt(a: seq<C>, b: seq<C>): int -> real
  {
    i => CAt(a, i).re * CAt(b, i).re + CAt(a, i).im * CAt(b, i).im
  }

  /** The real part of vdot(a, b), the sum of conj(a[i]) * b[i]. */
  function ReDot(a: seq<C>, b: seq<C>): real
  {
    Sum(|a|, DotAt(a, b))
  }

  /** vdot(u, u) is real and is the squared norm. */
  lemma ReDotSelf(u: seq<C>)
    ensures ReDot(u, u) == NormSq(u)
  {
    SumExt(|u|, DotAt(u, u), SqAt(u));
  }

  // ---------------------------------------------------------------- proximal steps

  // Every proximal step below is the same formula on the real and on the imaginary
  // lane; each is stated on one lane and lifted to complex values.

  /** Dividing by a non-zero k is multiplying back by k. */
  lemma DivInverse(n: real, k: real, r: real)
    requires k != 0.0
    ensures r == Div(n, k) <==> k * r == n
  {
    var t := 1.0 / k;
    assert k * t == 1.0;
    assert n / k == n * t;
    if r == n / k {
      assert k * r == (k * t) * n;
    }
    if k * r == n {
      assert r == (t * k) * r == t * n;
    }
  }

  /** One lane of the primal step: ((x - tau*g) + (tau/delta)*xk) / (1 + tau/delta). */
  function PrimalLane(x: real, g: real, xk: real, tau: real, delta: real): real
  {
    Div((x - tau * g) + Div(tau, delta) * xk, 1.0 + Div(tau, delta))
  }

  /** r - x + tau*(g + (r - xk)/delta) == 0: r minimises
      (r - (x - tau*g))^2/2 + tau/(2*delta)*(r - xk)^2, the proximal step of the
      distance to the Gauss-Newton iterate xk. */
  predicate PrimalLaneOptimal(r: real, x: real, g: real, xk: real, tau: real, delta: real)
  {
    (r - x) + tau * (g + Div(1.0, delta) * (r - xk)) == 0.0
  }

  lemma PrimalLaneIff(x: real, g: real, xk: real, tau: real, delta: real, r: real)
    requires 0.0 < tau && 0.0 < delta
    ensures r == PrimalLane(x, g, xk, tau, delta) <==> PrimalLaneOptimal(r, x, g, xk, tau, delta)
  {
    var d, q := Div(1.0, delta), Div(tau, delta);
    assert q == tau * d && 0.0 < q;
    DivInverse((x - tau * g) + q * xk, 1.0 + q, r);
    assert tau * (g + d * (r - xk)) == tau * g + q * r - q * xk;
  }

  /** The primal step on a complex entry. */
  function PrimalAt(x: C, g: C, xk: C, tau: real, delta: real): C
  {
    C(PrimalLane(x.re, g.re, xk.re, tau, delta), PrimalLane(x.im, g.im, xk.im, tau, delta))
  }

  predicate PrimalOptimal(r: C, x: C, g: C, xk: C, tau: real, delta: real)
  {
    PrimalLaneOptimal(r.re, x.re, g.re, xk.re, tau, delta) && PrimalLaneOptimal(r.im, x.im, g.im, xk.im, tau, delta)
  }

  /** The primal step is exactly the point that satisfies the optimality condition. */
  lemma PrimalAtOptimal(x: C, g: C, xk: C, tau: real, delta: real, r: C)
    requires 0.0 < tau && 0.0 < delta
    ensures r == PrimalAt(x, g, xk, tau, delta) <==> PrimalOptimal(r, x, g, xk, tau, delta)
  {
    PrimalLaneIff(x.re, g.re, xk.re, tau, delta, r.re);
    PrimalLaneIff(x.im, g.im, xk.im, tau, delta, r.im);
  }

  /** One lane of the step on the trailing H1 unknowns:
      (xn*(1 + tau/delta) + tau*omega*fa) / (1 + tau/delta + tau*omega). */
  function H1Lane(xn: real, tau: real, delta: real, omega: real, fa: real): real
  {
    Div(xn * (1.0 + Div(tau, delta)) + tau * omega * fa, 1.0 + Div(tau, delta) + tau * omega)
  }

  /** r - x + tau*(g + (r - xk)/delta + omega*(r - fa)) == 0: the proximal step with the
      additional H1 fidelity omega/2*(r - fa)^2. */
  predicate H1LaneOptimal(r: real, x: real, g: real, xk: real, tau: real, delta: real, omega: real, fa: real)
  {
    (r - x) + tau * ((g + Div(1.0, delta) * (r - xk)) + omega * (r - fa)) == 0.0
  }

  lemma H1LaneIff(x: real, g: real, xk: real, tau: real, delta: real, omega: real, fa: real, r: real)
    requires 0.0 < tau && 0.0 < delta && 0.0 <= omega
    ensures r == H1Lane(PrimalLane(x, g, xk, tau, delta), tau, delta, omega, fa)
            <==> H1LaneOptimal(r, x, g, xk, tau, delta, omega, fa)
  {
    var d, q, w := Div(1.0, delta), Div(tau, delta), tau * omega;
    assert q == tau * d && 0.0 < q && 0.0 <= w;
    var xn := PrimalLane(x, g, xk, tau, delta);
    DivInverse((x - tau * g) + q * xk, 1.0 + q, xn);
    DivInverse(xn * (1.0 + q) + w * fa, 1.0 + q + w, r);
    assert xn * (1.0 + q) == (1.0 + q) * xn;
    assert tau * ((g + d * (r - xk)) + omega * (r - fa)) == tau * g + q * r - q * xk + w * r - w * fa;
  }

  function H1At(xn: C, tau: real, delta: real, omega: real, fa: C): C
  {
    C(H1Lane(xn.re, tau, delta, omega, fa.re), H1Lane(xn.im, tau, delta, omega, fa.im))
  }

  predicate H1Optimal(r: C, x: C, g: C, xk: C, tau: real, delta: real, omega: real, fa: C)
  {
    H1LaneOptimal(r.re, x.re, g.re, xk.re, tau, delta, omega, fa.re)
    && H1LaneOptimal(r.im, x.im, g.im, xk.im, tau, delta, omega, fa.im)
  }

  /** The H1 step after the primal step is exactly the point that satisfies the
      optimality condition with the H1 fidelity. */
  lemma H1AtOptimal(x: C, g: C, xk: C, tau: real, delta: real, omega: real, fa: C, r: C)
    requires 0.0 < tau && 0.0 < delta && 0.0 <= omega
    ensures r == H1At(PrimalAt(x, g, xk, tau, delta), tau, delta, omega, fa)
            <==> H1Optimal(r, x, g, xk, tau, delta, omega, fa)
  {
    H1LaneIff(x.re, g.re, xk.re, tau, delta, omega, fa.re, r.re);
    H1LaneIff(x.im, g.im, xk.im, tau, delta, omega, fa.im, r.im);
  }

  /** One lane of the update of r: ((r + sigma*t) - sigma*res) / (1 + sigma/lambd). */
  function DualRLane(r: real, t: real, res: real, sigma: real, lambd: real): real
  {
    Div((r + sigma * t) - sigma * res, 1.0 + Div(sigma, lambd))
  }

  /** rn - (r + sigma*t) + sigma*(rn/lambd + res) == 0: rn is the proximal point of
      sigma times the conjugate of the data term lambd/2*(A x - res)^2. */
  predicate DualRLaneOptimal(rn: real, r: real, t: real, res: real, sigma: real, lambd: real)
  {
    (rn - (r + sigma * t)) + sigma * (Div(1.0, lambd) * rn + res) == 0.0
  }

  lemma DualRLaneIff(r: real, t: real, res: real, sigma: real, lambd: real, rn: real)
    requires 0.0 <= sigma && 0.0 < lambd
    ensures rn == DualRLane(r, t, res, sigma, lambd) <==> DualRLaneOptimal(rn, r, t, res, sigma, lambd)
  {
    var e, q := Div(1.0, lambd), Div(sigma, lambd);
    assert q == sigma * e && 0.0 <= q;
    DivInverse((r + sigma * t) - sigma * res, 1.0 + q, rn);
    assert sigma * (e * rn + res) == q * rn + sigma * res;
  }

  function DualRAt(r: C, t: C, res: C, sigma: real, lambd: real): C
  {
    C(DualRLane(r.re, t.re, res.re, sigma, lambd), DualRLane(r.im, t.im, res.im, sigma, lambd))
  }

  predicate DualROptimal(rn: C, r: C, t: C, res: C, sigma: real, lambd: real)
  {
    DualRLaneOptimal(rn.re, r.re, t.re, res.re, sigma, lambd)
    && DualRLaneOptimal(rn.im, r.im, t.im, res.im, sigma, lambd)
  }

  /** The update of r is exactly the proximal point of the conjugate data term. */
  lemma DualRAtOptimal(r: C, t: C, res: C, sigma: real, lambd: real, rn: C)
    requires 0.0 <= sigma && 0.0 < lambd
    ensures rn == DualRAt(r, t, res, sigma, lambd) <==> DualROptimal(rn, r, t, res, sigma, lambd)
  {
    DualRLaneIff(r.re, t.re, res.re, sigma, lambd, rn.re);
    DualRLaneIff(r.im, t.im, res.im, sigma, lambd, rn.im);
  }

  /** One lane of the update of z3: (z + sigma*g) / (1 + sigma/omega). */
  function Z3Lane(z: real, g: real, sigma: real, omega: real): real
  {
    Div(z + sigma * g, 1.0 + Div(sigma, omega))
  }

  /** zn - (z + sigma*g) + (sigma/omega)*zn == 0: the proximal point of sigma times the
      conjugate of omega/2*(.)^2. */
  predicate Z3LaneOptimal(zn: real, z: real, g: real, sigma: real, omega: real)
  {
    (zn - (z + sigma * g)) + Div(sigma, omega) * zn == 0.0
  }

  lemma Z3LaneIff(z: real, g: real, sigma: real, omega: real, zn: real)
    requires 0.0 <= sigma && 0.0 < omega
    ensures zn == Z3Lane(z, g, sigma, omega) <==> Z3LaneOptimal(zn, z, g, sigma, omega)
  {
    assert 0.0 <= Div(sigma, omega);
    DivInverse(z + sigma * g, 1.0 + Div(sigma, omega), zn);
  }

  function Z3At(z: C, g: C, sigma: real, omega: real): C
  {
    C(Z3Lane(z.re, g.re, sigma, omega), Z3Lane(z.im, g.im, sigma, omega))
  }

  predicate Z3Optimal(zn: C, z: C, g: C, sigma: real, omega: real)
  {
    Z3LaneOptimal(zn.re, z.re, g.re, sigma, omega) && Z3LaneOptimal(zn.im, z.im, g.im, sigma, omega)
  }

  /** The update of z3 is exactly the proximal point of its conjugate term. */
  lemma Z3AtOptimal(z: C, g: C, sigma: real, omega: real, zn: C)
    requires 0.0 <= sigma && 0.0 < omega
    ensures zn == Z3At(z, g, sigma, omega) <==> Z3Optimal(zn, z, g, sigma, omega)
  {
    Z3LaneIff(z.re, g.re, sigma, omega, zn.re);
    Z3LaneIff(z.im, g.im, sigma, omega, zn.im);
  }

  /** Pixel counts and the split of the unknowns into TGV and H1 unknowns. */
  datatype Sizes = Sizes(P: nat, NTGV: nat, NH1: nat)

  /** First entry of the trailing H1 unknowns in a vector of n entries: x[-NH1:]. */
  function H1Start(n: int, sz: Sizes): int
  {
    if sz.NH1 * sz.P <= n then n - sz.NH1 * sz.P else 0
  }

  /** The X-by-Y image fa broadcast over a stack of images: its pixel of entry j. */
  function FaAt(fa: seq<C>, P: int, j: int): C
  {
    if 0 < P then CAt(fa, j % P) else Zero
  }

  function PrimalEntry(sz: Sizes, x: seq<C>, kyk1: seq<C>, xk: seq<C>, tau: real, delta: real,
                       omega: real, fa: seq<C>, i: int): C
    requires 0 <= i < |x|
  {
    var xn := PrimalAt(x[i], CAt(kyk1, i), CAt(xk, i), tau, delta);
    if 0 < sz.NH1 && H1Start(|x|, sz) <= i then H1At(xn, tau, delta, omega, FaAt(fa, sz.P, i - H1Start(|x|, sz)))
    else xn
  }

  /** x_new: the primal step on every entry, the H1 step on the trailing unknowns. */
  function PrimalUpdate(sz: Sizes, x: seq<C>, kyk1: seq<C>, xk: seq<C>, tau: real, delta: real,
                        omega: real, fa: seq<C>): (r: seq<C>)
    ensures |r| == |x|
  {
    seq(|x|, i requires 0 <= i < |x| => PrimalEntry(sz, x, kyk1, xk, tau, delta, omega, fa, i))
  }

  /** Every entry of x_new satisfies the optimality condition of its proximal step. */
  lemma PrimalUpdateOptimal(sz: Sizes, x: seq<C>, kyk1: seq<C>, xk: seq<C>, tau: real, delta: real,
                            omega: real, fa: seq<C>, i: int)
    requires 0.0 < tau && 0.0 < delta && 0.0 <= omega && 0 <= i < |x|
    ensures var r := PrimalUpdate(sz, x, kyk1, xk, tau, delta, omega, fa);
            if 0 < sz.NH1 && H1Start(|x|, sz) <= i
            then H1Optimal(r[i], x[i], CAt(kyk1, i), CAt(xk, i), tau, delta, omega, FaAt(fa, sz.P, i - H1Start(|x|, sz)))
            else PrimalOptimal(r[i], x[i], CAt(kyk1, i), CAt(xk, i), tau, delta)
  {
    var r := PrimalUpdate(sz, x, kyk1, xk, tau, delta, omega, fa);
    if 0 < sz.NH1 && H1Start(|x|, sz) <= i {
      H1AtOptimal(x[i], CAt(kyk1, i), CAt(xk, i), tau, delta, omega, FaAt(fa, sz.P, i - H1Start(|x|, sz)), r[i]);
    } else {
      PrimalAtOptimal(x[i], CAt(kyk1, i), CAt(xk, i), tau, delta, r[i]);
    }
  }

  /** r_new over the whole residual. */
  function DualRUpdate(r: seq<C>, t: seq<C>, res: seq<C>, sigma: real, lambd: real): (rn: seq<C>)
    ensures |rn| == |r|
  {
    seq(|r|, i requires 0 <= i < |r| => DualRAt(r[i], CAt(t, i), CAt(res, i), sigma, lambd))
  }

  /** z3_new over the whole H1 dual. */
  function Z3Update(z: seq<C>, g: seq<C>, sigma: real, omega: real): (zn: seq<C>)
    ensures |zn| == |z|
  {
    seq(|z|, i requires 0 <= i < |z| => Z3At(z[i], CAt(g, i), sigma, omega))
  }

  // ---------------------------------------------------------------- the TGV balls

  /** z1 is scaled by its plain per-pixel norm. */
  function Z1Weight(k: int): real
  {
    1.0
  }

  /** z2 counts its third (off-diagonal) component twice. */
  function Z2Weight(k: int): real
  {
    if k % 3 == 2 then 2.0 else 1.0
  }

  function GroupTerm(z: seq<C>, P: int, wt: int -> real, p: int): int -> real
  {
    k => wt(k) * AbsSq(CAt(z, Idx(P, p, k)))
  }

  /** The weighted squared norm of the G entries of pixel p. */
  function GroupNormSq(z: seq<C>, P: int, G: int, wt: int -> real, p: int): real
  {
    Sum(G, GroupTerm(z, P, wt, p))
  }

  /** max(1, norm/bound): what every entry of a pixel is divided by. */
  function Divisor(sqrt: real -> real, n: real, bound: real): real
  {
    Max(1.0, Div(sqrt(n), bound))
  }

  /** The pixel of entry q. */
  function PixelOfEntry(q: int, P: int): int
  {
    if 0 < P then q % P else 0
  }

  function ProjectEntry(sqrt: real -> real, z: seq<C>, P: int, G: int, wt: int -> real, bound: real, q: int): C
    requires 0 <= q < |z|
  {
    Scale(Div(1.0, Divisor(sqrt, GroupNormSq(z, P, G, wt, PixelOfEntry(q, P)), bound)), z[q])
  }

  /** Every entry divided by max(1, |z at its pixel| / bound). */
  function Project(sqrt: real -> real, z: seq<C>, P: int, G: int, wt: int -> real, bound: real): (r: seq<C>)
    ensures |r| == |z|
  {
    seq(|z|, q requires 0 <= q < |z| => ProjectEntry(sqrt, z, P, G, wt, bound, q))
  }

  /** A non-negative n with root s <= m*bound, m >= 1, divided by m^2 is at most
      bound^2. */
  lemma ShrinkBound(n: real, s: real, m: real, bound: real)
    requires 0.0 <= n && 0.0 <= s && s * s == n && 0.0 < bound && 1.0 <= m && s <= m * bound
    ensures Div(1.0, m) * Div(1.0, m) * n <= bound * bound
  {
    MulLeft(s, s, m * bound);
    MulLeft(m * bound, s, m * bound);
    assert n <= (m * bound) * (m * bound);
    var t := 1.0 / m;
    assert t * m == 1.0;
    MulLeft(t * t, n, (m * bound) * (m * bound));
    assert (t * t) * ((m * bound) * (m * bound)) == (t * m) * (t * m) * (bound * bound);
  }

  /** The divisor is at least one and at least norm/bound. */
  lemma DivisorBounds(sqrt: real -> real, n: real, bound: real)
    requires 0.0 < bound
    ensures 1.0 <= Divisor(sqrt, n, bound)
    ensures sqrt(n) <= Divisor(sqrt, n, bound) * bound
    ensures sqrt(n) <= bound ==> Divisor(sqrt, n, bound) == 1.0
  {
    var m := Divisor(sqrt, n, bound);
    assert sqrt(n) / bound <= m;
    assert sqrt(n) == (sqrt(n) / bound) * bound;
    MulLeft(bound, sqrt(n) / bound, m);
    if sqrt(n) <= bound {
      assert sqrt(n) / bound <= bound / bound;
    }
  }

  /** Entry k of pixel p after the scaling is entry k of pixel p divided by the
      divisor of that pixel. */
  lemma ProjectAt(sqrt: real -> real, z: seq<C>, P: nat, G: nat, wt: int -> real, bound: real, p: int, k: int)
    requires 0 < P && |z| == P * G && 0 <= p < P && 0 <= k < G
    ensures 0 <= Idx(P, p, k) < |z|
    ensures Project(sqrt, z, P, G, wt, bound)[Idx(P, p, k)]
            == Scale(Div(1.0, Divisor(sqrt, GroupNormSq(z, P, G, wt, p), bound)), z[Idx(P, p, k)])
  {
    IdxInRange(P, G, p, k);
    IdxDivMod(P, p, k);
  }

  lemma GroupNonneg(z: seq<C>, P: int, G: int, wt: int -> real, p: int)
    requires forall k :: 0 <= k < G ==> 0.0 <= wt(k)
    ensures 0.0 <= GroupNormSq(z, P, G, wt, p)
  {
    forall k | 0 <= k < G
      ensures 0.0 <= GroupTerm(z, P, wt, p)(k)
    {
      MulLeft(wt(k), 0.0, AbsSq(CAt(z, Idx(P, p, k))));
    }
    SumNonneg(G, GroupTerm(z, P, wt, p));
  }

  /** The weighted squared norm of a pixel whose entries are all scaled by t. */
  lemma GroupScaled(z: seq<C>, r: seq<C>, P: int, G: int, wt: int -> real, p: int, t: real)
    requires forall k :: 0 <= k < G ==> CAt(r, Idx(P, p, k)) == Scale(t, CAt(z, Idx(P, p, k)))
    ensures GroupNormSq(r, P, G, wt, p) == t * t * GroupNormSq(z, P, G, wt, p)
  {
    forall k | 0 <= k < G
      ensures GroupTerm(r, P, wt, p)(k) == t * t * GroupTerm(z, P, wt, p)(k)
    {
      AbsSqScale(t, CAt(z, Idx(P, p, k)));
    }
    SumScale(G, t * t, GroupTerm(z, P, wt, p), GroupTerm(r, P, wt, p));
  }

  /** All entries of pixel p are divided by the same divisor. */
  lemma ProjectPixel(sqrt: real -> real, z: seq<C>, P: nat, G: nat, wt: int -> real, bound: real, p: int)
    requires 0 < P && |z| == P * G && 0 <= p < P
    ensures var t := Div(1.0, Divisor(sqrt, GroupNormSq(z, P, G, wt, p), bound));
            forall k :: 0 <= k < G ==> CAt(Project(sqrt, z, P, G, wt, bound), Idx(P, p, k)) == Scale(t, CAt(z, Idx(P, p, k)))
  {
    forall k | 0 <= k < G
      ensures CAt(Project(sqrt, z, P, G, wt, bound), Idx(P, p, k))
              == Scale(Div(1.0, Divisor(sqrt, GroupNormSq(z, P, G, wt, p), bound)), CAt(z, Idx(P, p, k)))
    {
      ProjectAt(sqrt, z, P, G, wt, bound, p, k);
    }
  }

  /** The scaled pixel's weighted squared norm. */
  lemma ProjectNormSq(sqrt: real -> real, z: seq<C>, P: nat, G: nat, wt: int -> real, bound: real, p: int)
    requires 0 < P && |z| == P * G && 0 <= p < P
    ensures var t := Div(1.0, Divisor(sqrt, GroupNormSq(z, P, G, wt, p), bound));
            GroupNormSq(Project(sqrt, z, P, G, wt, bound), P, G, wt, p) == t * t * GroupNormSq(z, P, G, wt, p)
  {
    var t := Div(1.0, Divisor(sqrt, GroupNormSq(z, P, G, wt, p), bound));
    var r := Project(sqrt, z, P, G, wt, bound);
    ProjectPixel(sqrt, z, P, G, wt, bound, p);
    assert forall k :: 0 <= k < G ==> CAt(r, Idx(P, p, k)) == Scale(t, CAt(z, Idx(P, p, k)));
    GroupScaled(z, r, P, G, wt, p, t);
  }

  /** After the scaling, every pixel lies in the ball of radius bound. */
  lemma ProjectBall(sqrt: real -> real, z: seq<C>, P: nat, G: nat, wt: int -> real, bound: real, p: int)
    requires IsSqrt(sqrt) && 0 < P && |z| == P * G && 0.0 < bound && 0 <= p < P
    requires forall k :: 0 <= k < G ==> 0.0 <= wt(k)
    ensures GroupNormSq(Project(sqrt, z, P, G, wt, bound), P, G, wt, p) <= bound * bound
  {
    var n := GroupNormSq(z, P, G, wt, p);
    var m := Divisor(sqrt, n, bound);
    ProjectNormSq(sqrt, z, P, G, wt, bound, p);
    GroupNonneg(z, P, G, wt, p);
    DivisorBounds(sqrt, n, bound);
    SqrtSquare(sqrt, n);
    ShrinkBound(n, sqrt(n), m, bound);
  }

  /** A pixel already inside the ball is left as it was. */
  lemma ProjectKeeps(sqrt: real -> real, z: seq<C>, P: nat, G: nat, wt: int -> real, bound: real, p: int)
    requires 0 < P && |z| == P * G && 0.0 < bound && 0 <= p < P
    requires sqrt(GroupNormSq(z, P, G, wt, p)) <= bound
    ensures forall k :: 0 <= k < G ==> CAt(Project(sqrt, z, P, G, wt, bound), Idx(P, p, k)) == CAt(z, Idx(P, p, k))
  {
    DivisorBounds(sqrt, GroupNormSq(z, P, G, wt, p), bound);
    ProjectPixel(sqrt, z, P, G, wt, bound, p);
    forall k | 0 <= k < G
      ensures CAt(Project(sqrt, z, P, G, wt, bound), Idx(P, p, k)) == CAt(z, Idx(P, p, k))
    {
      ScaleOne(CAt(z, Idx(P, p, k)));
    }
  }

  // ---------------------------------------------------------------- step sizes

  /** beta_new = beta_line*(1 + mu*tau). */
  function NextBeta(betaLine: real, mu: real, tau: real): real
  {
    betaLine * (1.0 + mu * tau)
  }

  /** tau_new = tau*sqrt(beta_line/beta_new*(1 + theta_line)). */
  function NextTau(sqrt: real -> real, tau: real, betaLine: real, betaNew: real, theta: real): real
  {
    tau * sqrt(Div(betaLine, betaNew) * (1.0 + theta))
  }

  /** The step-size rule: beta grows, and the new step squares to
      tau^2*(1 + theta)/(1 + mu*tau), positive. */
  lemma StepSizeRule(sqrt: real -> real, tau: real, betaLine: real, mu: real, theta: real)
    requires IsSqrt(sqrt) && 0.0 < tau && 0.0 < betaLine && 0.0 < mu && 0.0 <= theta
    ensures NextBeta(betaLine, mu, tau) > betaLine
    ensures var t := NextTau(sqrt, tau, betaLine, NextBeta(betaLine, mu, tau), theta);
            0.0 < t && t * t == tau * tau * ((1.0 + theta) / (1.0 + mu * tau))
  {
    var bn := NextBeta(betaLine, mu, tau);
    MulLeftStrict(betaLine, 1.0, 1.0 + mu * tau);
    var u := betaLine / bn * (1.0 + theta);
    assert betaLine / bn == 1.0 / (1.0 + mu * tau);
    assert u == (1.0 + theta) / (1.0 + mu * tau);
    assert 0.0 < u;
    SqrtZero(sqrt, u);
    var s := sqrt(u);
    assert s * s == u;
    assert (tau * s) * (tau * s) == tau * tau * (s * s);
  }

  /** The candidate after k halvings of the first trial step. */
  function Candidate(t0: real, k: nat): real
  {
    if k == 0 then t0 else Candidate(t0, k - 1) * MuLine
  }

  /** Candidates are positive and strictly decreasing. */
  lemma {:induction false} CandidateDecreasing(t0: real, k: nat)
    requires 0.0 < t0
    ensures 0.0 < Candidate(t0, k + 1) < Candidate(t0, k) <= t0
  {
    if k > 0 {
      CandidateDecreasing(t0, k - 1);
    }
  }

  // ---------------------------------------------------------------- one trial

  /** The linear operators the solver applies to flattened arrays: the model and its
      adjoint, the gradient and the divergence of the first TGV stage, the symmetrised
      gradient and the divergence of the second. */
  datatype Ops = Ops(A: seq<C> -> seq<C>, AH: seq<C> -> seq<C>, grad1: seq<C> -> seq<C>,
                     div1: seq<C> -> seq<C>, symgrad2: seq<C> -> seq<C>, div2: seq<C> -> seq<C>)

  /** The weights of one solve: lambd, tol, stag, the proximal weight delta, the H1
      weight omega with its image fa, and the TGV weights alpha = gamma/scale^2,
      beta = 2*gamma/scale^2. */
  datatype Params = Params(lambd: real, tol: real, stag: real, delta: real, omega: real,
                           alpha: real, beta: real, fa: seq<C>)

  /** Positive weights, as the regularisation schedule keeps them. */
  predicate ValidParams(pr: Params)
  {
    0.0 < pr.lambd && 0.0 < pr.delta && 0.0 < pr.omega && 0.0 < pr.alpha && 0.0 < pr.beta
  }

  /** The dual variables. */
  datatype Duals = Duals(r: seq<C>, z1: seq<C>, z2: seq<C>, z3: seq<C>)

  /** What stays fixed during the backtracking search of one iteration. */
  datatype Ctx = Ctx(tau: real, betaLine: real, y: Duals, kyk1: seq<C>, kyk2: seq<C>,
                     gradx: seq<C>, gradxXold: seq<C>, vNew: seq<C>, vVold: seq<C>,
                     symgradV: seq<C>, symgradVVold: seq<C>, ax: seq<C>, axAxold: seq<C>, res: seq<C>)

  /** The outcome of one trial step: the new duals, the new K^* y, and both sides of
      the acceptance test. */
  datatype Trial = Trial(y: Duals, kyk1: seq<C>, kyk2: seq<C>, lhs: real, ynorm: real)

  /** Entries of the head of gradx that belong to the TGV unknowns. */
  function TgvLen(sz: Sizes): nat
  {
    sz.P * (2 * sz.NTGV)
  }

  /** Entries of the tail of gradx that belong to the H1 unknowns. */
  function H1Len(sz: Sizes): nat
  {
    sz.P * (2 * sz.NH1)
  }

  /** theta = tau_new/tau, the extrapolation weight of a trial. */
  function Theta(c: Ctx, tauNew: real): real
  {
    Div(tauNew, c.tau)
  }

  /** sigma = beta_line*tau_new, the dual step of a trial. */
  function Sigma(c: Ctx, tauNew: real): real
  {
    c.betaLine * tauNew
  }

  /** The ascent direction of z1 before scaling, with extrapolation theta. */
  function Z1Dir(sz: Sizes, c: Ctx, theta: real): seq<C>
  {
    VSub(VLin(1.0, Head(c.gradx, TgvLen(sz)), theta, Head(c.gradxXold, TgvLen(sz))),
         VLin(1.0, c.vNew, theta, c.vVold))
  }

  /** z1 + sigma*direction, before the projection. */
  function Z1Pre(sz: Sizes, c: Ctx, tauNew: real): seq<C>
  {
    VLin(1.0, c.y.z1, Sigma(c, tauNew), Z1Dir(sz, c, Theta(c, tauNew)))
  }

  /** z1 + sigma*direction, scaled back into the alpha ball pixel by pixel. */
  function Z1Trial(sqrt: real -> real, sz: Sizes, alpha: real, c: Ctx, tauNew: real): seq<C>
  {
    Project(sqrt, Z1Pre(sz, c, tauNew), sz.P, 2 * sz.NTGV, Z1Weight, alpha)
  }

  /** z2 + sigma*direction, before the projection. */
  function Z2Pre(c: Ctx, tauNew: real): seq<C>
  {
    VLin(1.0, c.y.z2, Sigma(c, tauNew), VLin(1.0, c.symgradV, Theta(c, tauNew), c.symgradVVold))
  }

  /** z2 + sigma*direction, scaled back into the beta ball pixel by pixel. */
  function Z2Trial(sqrt: real -> real, sz: Sizes, beta: real, c: Ctx, tauNew: real): seq<C>
  {
    Project(sqrt, Z2Pre(c, tauNew), sz.P, 3 * sz.NTGV, Z2Weight, beta)
  }

  /** The extrapolated A x of the trial. */
  function ATrial(c: Ctx, tauNew: real): seq<C>
  {
    VLin(1.0, c.ax, Theta(c, tauNew), c.axAxold)
  }

  function RTrial(pr: Params, c: Ctx, tauNew: real): seq<C>
  {
    DualRUpdate(c.y.r, ATrial(c, tauNew), c.res, Sigma(c, tauNew), pr.lambd)
  }

  /** The extrapolated H1 gradient of the trial. */
  function H1Dir(sz: Sizes, c: Ctx, tauNew: real): seq<C>
  {
    VLin(1.0, Tail(c.gradx, H1Len(sz)), Theta(c, tauNew), Tail(c.gradxXold, H1Len(sz)))
  }

  function Z3Trial(sz: Sizes, pr: Params, c: Ctx, tauNew: real): seq<C>
  {
    if 0 < sz.NH1 then Z3Update(c.y.z3, H1Dir(sz, c, tauNew), Sigma(c, tauNew), pr.omega)
    else c.y.z3
  }

  /** K^* y in the primal unknowns: A^H r minus the divergence of z1, with the
      divergence of z3 appended for the H1 unknowns. */
  function KStar1(ops: Ops, sz: Sizes, r: seq<C>, z1: seq<C>, z3: seq<C>): seq<C>
  {
    if 0 < sz.NH1 then VSub(ops.AH(r), ops.div1(z1) + ops.div1(z3)) else VSub(ops.AH(r), ops.div1(z1))
  }

  /** K^* y in v: -z1 minus the divergence of z2. */
  function KStar2(ops: Ops, z1: seq<C>, z2: seq<C>): seq<C>
  {
    VLin(-1.0, z1, -1.0, ops.div2(z2))
  }

  /** One pass of the body of the backtracking loop with step tauNew. */
  function TrialAt(ops: Ops, sqrt: real -> real, sz: Sizes, pr: Params, c: Ctx, tauNew: real): Trial
  {
    TrialFrom(ops, sqrt, sz, c, tauNew, TrialDuals(sqrt, sz, pr, c, tauNew))
  }

  /** The new duals of a trial. */
  function TrialDuals(sqrt: real -> real, sz: Sizes, pr: Params, c: Ctx, tauNew: real): Duals
  {
    Duals(RTrial(pr, c, tauNew), Z1Trial(sqrt, sz, pr.alpha, c, tauNew), Z2Trial(sqrt, sz, pr.beta, c, tauNew),
          Z3Trial(sz, pr, c, tauNew))
  }

  /** A trial with new duals y: K^* y and both sides of the acceptance test. */
  function TrialFrom(ops: Ops, sqrt: real -> real, sz: Sizes, c: Ctx, tauNew: real, y: Duals): Trial
  {
    var kyk1n := KStar1(ops, sz, y.r, y.z1, y.z3);
    var kyk2n := KStar2(ops, y.z1, y.z2);
    Trial(y, kyk1n, kyk2n, StepNorm(sqrt, c, tauNew, kyk1n, kyk2n), DualChange(sqrt, sz, c, y))
  }

  /** sqrt(beta_line)*tau_new*|K^* y_new - K^* y|, the left side of the test. */
  function StepNorm(sqrt: real -> real, c: Ctx, tauNew: real, kyk1n: seq<C>, kyk2n: seq<C>): real
  {
    sqrt(c.betaLine) * tauNew * sqrt(NormSq(VSub(kyk1n, c.kyk1)) + NormSq(VSub(kyk2n, c.kyk2)))
  }

  /** |y_new - y|: the norm of the concatenated differences with H1 unknowns, the root
      of the summed squared norms without. */
  function DualChange(sqrt: real -> real, sz: Sizes, c: Ctx, y: Duals): real
  {
    if 0 < sz.NH1
    then sqrt(NormSq(VSub(y.r, c.y.r) + VSub(y.z1, c.y.z1) + VSub(y.z2, c.y.z2) + VSub(y.z3, c.y.z3)))
    else sqrt(NormSq(VSub(y.r, c.y.r)) + NormSq(VSub(y.z1, c.y.z1)) + NormSq(VSub(y.z2, c.y.z2)))
  }

  /** The test that ends the backtracking loop. */
  predicate Accepts(t: Trial)
  {
    t.lhs <= t.ynorm * DeltaLine
  }

  /** The two ways the loop measures the change of the duals agree: without H1
      unknowns the norm of the concatenation is the root of the summed squares. */
  lemma YNormForms(rd: seq<C>, z1d: seq<C>, z2d: seq<C>)
    ensures NormSq(rd + z1d + z2d) == NormSq(rd) + NormSq(z1d) + NormSq(z2d)
  {
    NormSqConcat(rd + z1d, z2d);
    NormSqConcat(rd, z1d);
  }

  /** Every trial keeps z1 in the alpha ball and z2 in the beta ball at every pixel. */
  lemma TrialBalls(sqrt: real -> real, sz: Sizes, alpha: real, beta: real, c: Ctx, tauNew: real, p: int)
    requires IsSqrt(sqrt) && 0.0 < alpha && 0.0 < beta && 0 < sz.P && 0 <= p < sz.P
    requires |c.y.z1| == sz.P * (2 * sz.NTGV) && |c.y.z2| == sz.P * (3 * sz.NTGV)
    ensures GroupNormSq(Z1Trial(sqrt, sz, alpha, c, tauNew), sz.P, 2 * sz.NTGV, Z1Weight, p) <= alpha * alpha
    ensures GroupNormSq(Z2Trial(sqrt, sz, beta, c, tauNew), sz.P, 3 * sz.NTGV, Z2Weight, p) <= beta * beta
  {
    ProjectBall(sqrt, Z1Pre(sz, c, tauNew), sz.P, 2 * sz.NTGV, Z1Weight, alpha, p);
    ProjectBall(sqrt, Z2Pre(c, tauNew), sz.P, 3 * sz.NTGV, Z2Weight, beta, p);
  }

  /** Every trial's r satisfies the optimality condition of its proximal step. */
  lemma TrialR(pr: Params, c: Ctx, tauNew: real, i: int)
    requires ValidParams(pr) && 0.0 <= Sigma(c, tauNew) && 0 <= i < |c.y.r|
    ensures |RTrial(pr, c, tauNew)| == |c.y.r|
    ensures DualROptimal(RTrial(pr, c, tauNew)[i], c.y.r[i], CAt(ATrial(c, tauNew), i), CAt(c.res, i),
                         Sigma(c, tauNew), pr.lambd)
  {
    DualRAtOptimal(c.y.r[i], CAt(ATrial(c, tauNew), i), CAt(c.res, i), Sigma(c, tauNew), pr.lambd,
                   RTrial(pr, c, tauNew)[i]);
  }

  /** Every trial's z3 satisfies the optimality condition of its proximal step, and
      without H1 unknowns z3 is left as it was. */
  lemma TrialZ3(sz: Sizes, pr: Params, c: Ctx, tauNew: real, i: int)
    requires ValidParams(pr) && 0.0 <= Sigma(c, tauNew) && 0 <= i < |c.y.z3|
    ensures |Z3Trial(sz, pr, c, tauNew)| == |c.y.z3|
    ensures sz.NH1 == 0 ==> Z3Trial(sz, pr, c, tauNew) == c.y.z3
    ensures 0 < sz.NH1 ==> Z3Optimal(Z3Trial(sz, pr, c, tauNew)[i], c.y.z3[i], CAt(H1Dir(sz, c, tauNew), i),
                                     Sigma(c, tauNew), pr.omega)
  {
    if 0 < sz.NH1 {
      var g := H1Dir(sz, c, tauNew);
      var zn := Z3Update(c.y.z3, g, Sigma(c, tauNew), pr.omega);
      assert zn[i] == Z3At(c.y.z3[i], CAt(g, i), Sigma(c, tauNew), pr.omega);
      Z3AtOptimal(c.y.z3[i], CAt(g, i), Sigma(c, tauNew), pr.omega, zn[i]);
    }
  }

  // ---------------------------------------------------------------- energies

  /** The image minus fa, fa broadcast over the stack. */
  function FaSub(u: seq<C>, fa: seq<C>, P: int): (r: seq<C>)
    ensures |r| == |u|
  {
    seq(|u|, i requires 0 <= i < |u| => Sub(u[i], FaAt(fa, P, i)))
  }

  /** A weighted energy term; non-negative weights of non-negative quantities give
      non-negative terms. */
  function Weighted(w: real, t: real): (r: real)
    ensures 0.0 <= w && 0.0 <= t ==> 0.0 <= r
  {
    w * t
  }

  /** 1/(2*d), the weight of the proximal term. */
  function HalfRecip(d: real): (r: real)
    ensures 0.0 < d ==> 0.0 < r && 2.0 * d * r == 1.0
  {
    Div(1.0, 2.0 * d)
  }

  /** The primal energy at a checkpoint, from A x_new, grad x_new, the v of the
      iteration's start, sym-grad v_new and x_new. */
  function PrimalEnergy(sqrt: real -> real, sz: Sizes, pr: Params, ax: seq<C>, res: seq<C>, gradx: seq<C>,
                        v: seq<C>, symgradV: seq<C>, xNew: seq<C>, xk: seq<C>): real
  {
    Weighted(pr.lambd / 2.0, NormSq(VSub(ax, res)))
    + Weighted(pr.alpha, AbsSum(sqrt, VSub(Head(gradx, TgvLen(sz)), v)))
    + Weighted(pr.beta, AbsSum(sqrt, symgradV))
    + Weighted(HalfRecip(pr.delta), NormSq(VSub(xNew, xk)))
    + (if 0 < sz.NH1 then Weighted(pr.omega / 2.0, NormSq(FaSub(Tail(gradx, H1Len(sz)), pr.fa, sz.P))) else 0.0)
  }

  /** The dual energy, evaluated only when there are H1 unknowns. */
  function DualEnergy(pr: Params, kyk1New: seq<C>, kyk2New: seq<C>, xk: seq<C>, r: seq<C>, res: seq<C>,
                      z3: seq<C>): real
  {
    var minusKyk1 := VLin(-1.0, kyk1New, 0.0, []);
    - pr.delta / 2.0 * NormSq(minusKyk1) - ReDot(xk, minusKyk1) + ReSum(kyk2New)
    - HalfRecip(pr.lambd) * NormSq(r) - ReDot(res, r) - HalfRecip(pr.omega) * NormSq(z3)
  }

  lemma AbsSumNonneg(sqrt: real -> real, u: seq<C>)
    requires IsSqrt(sqrt)
    ensures 0.0 <= AbsSum(sqrt, u)
  {
    forall k | 0 <= k < |u|
      ensures 0.0 <= ModAt(sqrt, u)(k)
    {
      SquareNonneg(CAt(u, k).re);
      SquareNonneg(CAt(u, k).im);
    }
    SumNonneg(|u|, ModAt(sqrt, u));
  }

  /** With positive weights the primal energy is never negative. */
  lemma PrimalNonneg(sqrt: real -> real, sz: Sizes, pr: Params, ax: seq<C>, res: seq<C>, gradx: seq<C>,
                     v: seq<C>, symgradV: seq<C>, xNew: seq<C>, xk: seq<C>)
    requires IsSqrt(sqrt) && ValidParams(pr)
    ensures 0.0 <= PrimalEnergy(sqrt, sz, pr, ax, res, gradx, v, symgradV, xNew, xk)
  {
    AbsSumNonneg(sqrt, VSub(Head(gradx, TgvLen(sz)), v));
    AbsSumNonneg(sqrt, symgradV);
  }

  // ---------------------------------------------------------------- stopping

  /** The outcome of a checkpoint: stop with x_new because the primal energy stalled,
      stop with the previous x because the gap grew past stag times its minimum, stop
      with x_new because the gap stalled, or go on with the new primal energy and gap
      minimum. */
  datatype Decision = PrimalStalled | Stagnated | GapStalled | Continue(primal: real, gapMin: real)

  /** The tests of a checkpoint, in the order they are made; gapMin has already been
      set to gap at iteration 0. */
  function Decide(i: int, primal: real, primalNew: real, gap: real, gapMin: real, pr: Params): (d: Decision)
    ensures d.Continue? ==> d.primal == primalNew && d.gapMin <= gapMin && d.gapMin <= gap
                            && (d.gapMin == gap || d.gapMin == gapMin)
    ensures d == PrimalStalled <==> Abs(primal - primalNew) < pr.lambd * pr.tol
    ensures i <= 1 ==> d == PrimalStalled || d.Continue?
  {
    if Abs(primal - primalNew) < pr.lambd * pr.tol then PrimalStalled
    else if gap > gapMin * pr.stag && i > 1 then Stagnated
    else if Abs(gap - gapMin) < pr.lambd * pr.tol && i > 1 then GapStalled
    else Continue(primalNew, Min(gap, gapMin))
  }

  /** A checkpoint goes on exactly when none of the three stopping tests holds. */
  lemma DecideContinues(i: int, primal: real, primalNew: real, gap: real, gapMin: real, pr: Params)
    ensures Decide(i, primal, primalNew, gap, gapMin, pr).Continue? <==>
            (Abs(primal - primalNew) >= pr.lambd * pr.tol
             && (i <= 1 || (gap <= gapMin * pr.stag && Abs(gap - gapMin) >= pr.lambd * pr.tol)))
  {
  }
}
