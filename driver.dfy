/** The Gauss-Newton driver `execute_2D` of the reconstruction and its step
    `irgn_solve_2D`.

    For every slice the driver resets gamma, delta and the dual buffers, then runs up
    to max_GN_it Gauss-Newton steps. A step measures the ratio of the Jacobian's first
    two unknown blocks, rescales the constraints 1.. and the T1 block of the estimate by
    it, solves the linearised TGV problem, records the energy `fval`, stores the
    estimate, and advances the iters/gamma/delta schedule; the whole run ends once the
    energy is within lambd*tol of `fval_min`.

    The signal model's forward map, its Jacobian, the coil maps, the Fourier/Radon
    operator and the power-iteration norm estimate are not part of this model: they
    enter as the functions of an `Env`. */
module Driver {
  import opened Sums
  import opened Complex
  import opened Roots
  import opened SolverMath
  import opened Solver
  import opened DiffModel

  // ---------------------------------------------------------------- the schedule

  /** iters <- fmin(2*iters, max_iters). */
  function NextIters(iters: nat, maxIters: nat): (r: nat)
    ensures r <= maxIters && r <= 2 * iters
    ensures r == 2 * iters || r == maxIters
  {
    if 2 * iters <= maxIters then 2 * iters else maxIters
  }

  /** gamma <- max(0.1*gamma, gamma_min). */
  function NextGamma(g: real, gMin: real): (r: real)
    ensures gMin <= r && 0.1 * g <= r
    ensures r == 0.1 * g || r == gMin
  {
    Max(0.1 * g, gMin)
  }

  /** delta <- min(delta*delta_inc, delta_max). */
  function NextDelta(d: real, inc: real, dMax: real): (r: real)
    ensures r <= dMax && r <= d * inc
    ensures r == d * inc || r == dMax
  {
    Min(d * inc, dMax)
  }

  /** The schedule values after k Gauss-Newton steps of one slice. */
  function ItersAfter(i0: nat, maxIters: nat, k: nat): nat
  {
    if k == 0 then i0 else NextIters(ItersAfter(i0, maxIters, k - 1), maxIters)
  }

  function GammaAfter(g0: real, gMin: real, k: nat): real
  {
    if k == 0 then g0 else NextGamma(GammaAfter(g0, gMin, k - 1), gMin)
  }

  function DeltaAfter(d0: real, inc: real, dMax: real, k: nat): real
  {
    if k == 0 then d0 else NextDelta(DeltaAfter(d0, inc, dMax, k - 1), inc, dMax)
  }

  function Pow2(k: nat): (r: nat)
    ensures 1 <= r
  {
    if k == 0 then 1 else 2 * Pow2(k - 1)
  }

  function NatMin(a: nat, b: nat): nat
  {
    if a <= b then a else b
  }

  /** After k >= 1 steps, iters is min(iters0 * 2^k, max_iters). */
  lemma {:induction false} ItersClosedForm(i0: nat, maxIters: nat, k: nat)
    requires 0 < k
    ensures ItersAfter(i0, maxIters, k) == NatMin(i0 * Pow2(k), maxIters)
  {
    var j := k - 1;
    var i, r := ItersAfter(i0, maxIters, j), ItersAfter(i0, maxIters, k);
    assert r == NextIters(i, maxIters);
    var p := Pow2(j);
    assert Pow2(k) == 2 * p;
    assert i0 * (2 * p) == 2 * (i0 * p);
    if j == 0 {
      assert i == i0 && p == 1;
    } else {
      ItersClosedForm(i0, maxIters, j);
      var a := i0 * p;
      ItersStep(a, maxIters, i, r);
    }
  }

  lemma ItersStep(a: nat, maxIters: nat, i: nat, r: nat)
    requires i == NatMin(a, maxIters) && r == NextIters(i, maxIters)
    ensures r == NatMin(2 * a, maxIters)
  {
  }

  /** g0 * 0.1^k. */
  function Decayed(g0: real, k: nat): real
  {
    if k == 0 then g0 else 0.1 * Decayed(g0, k - 1)
  }

  /** d0 * inc^k. */
  function Grown(d0: real, inc: real, k: nat): real
  {
    if k == 0 then d0 else Grown(d0, inc, k - 1) * inc
  }

  /** After k >= 1 steps, gamma is max(gamma0 * 0.1^k, gamma_min). */
  lemma {:induction false} GammaClosedForm(g0: real, gMin: real, k: nat)
    requires 0 < k && 0.0 <= gMin
    ensures GammaAfter(g0, gMin, k) == Max(Decayed(g0, k), gMin)
  {
    var j := k - 1;
    var g, r := GammaAfter(g0, gMin, j), GammaAfter(g0, gMin, k);
    assert r == NextGamma(g, gMin);
    if j == 0 {
      assert g == g0 && Decayed(g0, j) == g0;
    } else {
      var a := Decayed(g0, j);
      assert Decayed(g0, k) == 0.1 * a;
      GammaClosedForm(g0, gMin, j);
      MaxStep(a, gMin, g, r);
    }
  }

  lemma MaxStep(a: real, gMin: real, g: real, r: real)
    requires 0.0 <= gMin && g == Max(a, gMin) && r == NextGamma(g, gMin)
    ensures r == Max(0.1 * a, gMin)
  {
  }

  lemma MinStep(a: real, inc: real, dMax: real, d: real, r: real)
    requires 1.0 <= inc && 0.0 <= dMax && d == Min(a, dMax) && r == NextDelta(d, inc, dMax)
    ensures r == Min(a * inc, dMax)
  {
    if dMax < a {
      assert dMax <= dMax * inc by { MulLeft(dMax, 1.0, inc); }
      assert dMax * inc < a * inc by { MulLeftStrict(inc, dMax, a); }
    }
  }

  /** With delta_inc >= 1 and delta_max >= 0, after k >= 1 steps delta is
      min(delta0 * delta_inc^k, delta_max). */
  lemma {:induction false} DeltaClosedForm(d0: real, inc: real, dMax: real, k: nat)
    requires 0 < k && 1.0 <= inc && 0.0 <= dMax
    ensures DeltaAfter(d0, inc, dMax, k) == Min(Grown(d0, inc, k), dMax)
  {
    var j := k - 1;
    var d, r := DeltaAfter(d0, inc, dMax, j), DeltaAfter(d0, inc, dMax, k);
    assert r == NextDelta(d, inc, dMax);
    if j == 0 {
      assert d == d0 && Grown(d0, inc, j) == d0;
    } else {
      var a := Grown(d0, inc, j);
      assert Grown(d0, inc, k) == a * inc;
      DeltaClosedForm(d0, inc, dMax, j);
      MinStep(a, inc, dMax, d, r);
    }
  }

  lemma DivUnique(a: real, b: real, y: real)
    requires y != 0.0 && a == b * y
    ensures a / y == b
  {
  }

  lemma SquarePos(x: real, sq: real)
    requires x != 0.0 && sq == x * x
    ensures 0.0 < sq
  {
    SquareNonneg(x);
    SquareZero(x);
  }

  /** The schedule's bounds and directions: iters never exceeds max_iters, gamma never
      falls below gamma_min and never grows once above it, delta never exceeds
      delta_max and never shrinks once below it, and both keep their sign. */
  lemma {:induction false} ScheduleBounds(i0: nat, maxIters: nat, g0: real, gMin: real,
                                          d0: real, inc: real, dMax: real, k: nat)
    requires 0 < k
    ensures ItersAfter(i0, maxIters, k) <= maxIters
    ensures gMin <= GammaAfter(g0, gMin, k) && DeltaAfter(d0, inc, dMax, k) <= dMax
    ensures 0.0 <= gMin <= g0 ==> GammaAfter(g0, gMin, k) <= GammaAfter(g0, gMin, k - 1)
    ensures 1.0 <= inc && 0.0 <= d0 <= dMax ==> DeltaAfter(d0, inc, dMax, k - 1) <= DeltaAfter(d0, inc, dMax, k)
  {
    if 0.0 <= gMin <= g0 {
      GammaAbove(g0, gMin, k - 1);
    }
    if 1.0 <= inc && 0.0 <= d0 <= dMax {
      DeltaBelow(d0, inc, dMax, k - 1);
      var d := DeltaAfter(d0, inc, dMax, k - 1);
      assert d <= d * inc by { MulLeft(d, 1.0, inc); }
    }
  }

  lemma {:induction false} GammaAbove(g0: real, gMin: real, k: nat)
    requires 0.0 <= gMin <= g0
    ensures gMin <= GammaAfter(g0, gMin, k)
  {
    if 0 < k {
      GammaAbove(g0, gMin, k - 1);
    }
  }

  lemma {:induction false} DeltaBelow(d0: real, inc: real, dMax: real, k: nat)
    requires 0.0 <= d0 <= dMax && 0.0 <= inc
    ensures 0.0 <= DeltaAfter(d0, inc, dMax, k) <= dMax
  {
    if 0 < k {
      DeltaBelow(d0, inc, dMax, k - 1);
      var d := DeltaAfter(d0, inc, dMax, k - 1);
      assert 0.0 <= d * inc by { MulLeft(d, 0.0, inc); }
    }
  }

  /** The signs the energy needs: gamma stays nonnegative and delta positive. */
  lemma {:induction false} ScheduleSigns(g0: real, gMin: real, d0: real, inc: real, dMax: real, k: nat)
    requires 0.0 <= g0 && 0.0 <= gMin && 0.0 < d0 && 0.0 < inc && 0.0 < dMax
    ensures 0.0 <= GammaAfter(g0, gMin, k) && 0.0 < DeltaAfter(d0, inc, dMax, k)
  {
    if 0 < k {
      ScheduleSigns(g0, gMin, d0, inc, dMax, k - 1);
      var d := DeltaAfter(d0, inc, dMax, k - 1);
      assert 0.0 < d * inc by { MulLeftStrict(inc, 0.0, d); }
    }
  }

  // ---------------------------------------------------------------- the parameters of a run

  /** The fields of `irgn_par` the driver reads. */
  datatype IrgnPar = IrgnPar(lambd: real, tol: real, stag: real, omega: real, fa: seq<C>,
                             gamma: real, delta: real, gammaMin: real, deltaMax: real,
                             deltaInc: real, startIters: nat, maxIters: nat, maxGnIt: nat)

  /** Signs under which every term of the energy is nonnegative. */
  predicate NonnegPar(p: IrgnPar)
  {
    0.0 <= p.lambd && 0.0 <= p.omega && 0.0 <= p.gamma && 0.0 <= p.gammaMin
    && 0.0 < p.delta && 0.0 < p.deltaInc && 0.0 < p.deltaMax
  }

  /** What the driver obtains from code outside this model, per slice s and at the
      slice's current estimate xs: the ratio of the norms of the Jacobian's first two
      blocks, the operators linearised there, the right-hand side `res` of the
      linearised problem, the data misfit of an estimate, and the power-iteration
      estimate of GN step i. `misfit(s, x)` is slice s's data minus the projected
      signal model evaluated at slice 0 (`execute_forward_2D(x, 0)`), whatever s is,
      as the energy at Model_Reco_OpenCL.py line 496 computes it.
      `radonScale` is `self.scale` from `radon_normest`. */
  datatype Env = Env(sqrt: real -> real, sz: Sizes, rLen: nat, radonScale: real, fuel: nat,
                     gnScale: (nat, seq<C>) -> real, ops: (nat, seq<C>) -> Ops,
                     res: (nat, seq<C>) -> seq<C>, misfit: (nat, seq<C>) -> seq<C>,
                     est: (nat, nat) -> real)

  /** The weights of one TGV solve: alpha = gamma/scale^2 and beta = gamma*2/scale^2. */
  function TgvParams(p: IrgnPar, gamma: real, delta: real, radonScale: real): Params
  {
    var s2 := radonScale * radonScale;
    Params(p.lambd, p.tol, p.stag, delta, p.omega, Div(gamma, s2), Div(gamma * 2.0, s2), p.fa)
  }

  /** The solve gets lambd, omega and delta unchanged, beta = 2*alpha, and
      alpha*scale^2 = gamma; positive lambd, omega, gamma and delta and a nonzero
      Radon scale make its weights valid. */
  lemma TgvParamsFacts(p: IrgnPar, gamma: real, delta: real, radonScale: real)
    ensures var pr := TgvParams(p, gamma, delta, radonScale);
            pr.lambd == p.lambd && pr.delta == delta && pr.omega == p.omega && pr.beta == 2.0 * pr.alpha
    ensures radonScale != 0.0 ==> TgvParams(p, gamma, delta, radonScale).alpha * (radonScale * radonScale) == gamma
    ensures 0.0 < p.lambd && 0.0 < p.omega && 0.0 < gamma && 0.0 < delta && radonScale != 0.0
            ==> ValidParams(TgvParams(p, gamma, delta, radonScale))
  {
    var s2 := radonScale * radonScale;
    if radonScale != 0.0 {
      SquarePos(radonScale, s2);
      assert Div(gamma, s2) * s2 == gamma;
      var q := gamma / s2;
      assert q * s2 == gamma;
      DivUnique(gamma * 2.0, 2.0 * q, s2);
      if 0.0 < gamma {
        assert 0.0 < gamma / s2;
      }
    }
  }

  // ---------------------------------------------------------------- the energy

  /** `x[-n:]` in Python: the last n entries, and the whole x when n is 0. */
  function PyTail(x: seq<C>, n: nat): (r: seq<C>)
    ensures n == 0 ==> r == x
    ensures 0 < n <= |x| ==> r == x[|x| - n..]
  {
    if n == 0 then x else Tail(x, n)
  }

  /** The data, TGV and proximal terms of `fval`. */
  function CoreEnergy(sqrt: real -> real, ops: Ops, sz: Sizes, lambd: real, gamma: real, delta: real,
                      misfit: seq<C>, x: seq<C>, xOld: seq<C>, v: seq<C>): real
  {
    Weighted(lambd / 2.0, NormSq(misfit))
    + Weighted(gamma, AbsSum(sqrt, VSub(ops.grad1(Head(x, sz.NTGV * sz.P)), v)))
    + Weighted(gamma * 2.0, AbsSum(sqrt, ops.symgrad2(v)))
    + Weighted(HalfRecip(delta), NormSq(VSub(x, xOld)))
  }

  /** omega/2 * ||grad xH1||^2. */
  function H1Penalty(ops: Ops, omega: real, xH1: seq<C>): real
  {
    Weighted(omega / 2.0, NormSq(ops.grad1(xH1)))
  }

  /** `self.fval` as line 496-500 computes it, with the H1 term over `x[-unknowns_H1:]`,
      which is all of x when there are no H1 unknowns. */
  function FvalAsWritten(sqrt: real -> real, ops: Ops, sz: Sizes, lambd: real, gamma: real, delta: real,
                         omega: real, misfit: seq<C>, x: seq<C>, xOld: seq<C>, v: seq<C>): real
  {
    CoreEnergy(sqrt, ops, sz, lambd, gamma, delta, misfit, x, xOld, v)
    + H1Penalty(ops, omega, PyTail(x, sz.NH1 * sz.P))
  }

  /** The energy with the H1 term over the H1 unknowns only: none when there are none. */
  function Fval(sqrt: real -> real, ops: Ops, sz: Sizes, lambd: real, gamma: real, delta: real,
                omega: real, misfit: seq<C>, x: seq<C>, xOld: seq<C>, v: seq<C>): real
  {
    CoreEnergy(sqrt, ops, sz, lambd, gamma, delta, misfit, x, xOld, v)
    + (if 0 < sz.NH1 then H1Penalty(ops, omega, Tail(x, sz.NH1 * sz.P)) else 0.0)
  }

  /** Both energies are sums of nonnegative terms when the weights are nonnegative and
      delta positive. */
  lemma FvalNonneg(sqrt: real -> real, ops: Ops, sz: Sizes, lambd: real, gamma: real, delta: real,
                   omega: real, misfit: seq<C>, x: seq<C>, xOld: seq<C>, v: seq<C>)
    requires IsSqrt(sqrt) && 0.0 <= lambd && 0.0 <= gamma && 0.0 < delta && 0.0 <= omega
    ensures 0.0 <= FvalAsWritten(sqrt, ops, sz, lambd, gamma, delta, omega, misfit, x, xOld, v)
    ensures 0.0 <= Fval(sqrt, ops, sz, lambd, gamma, delta, omega, misfit, x, xOld, v)
  {
    AbsSumNonneg(sqrt, VSub(ops.grad1(Head(x, sz.NTGV * sz.P)), v));
    AbsSumNonneg(sqrt, ops.symgrad2(v));
  }

  /** With no H1 unknowns, the energy as written still charges omega/2 times the
      gradient energy of every unknown, so it exceeds the energy without an H1 term
      whenever omega and that gradient are nonzero. */
  lemma FvalChargesAllUnknowns(sqrt: real -> real, ops: Ops, sz: Sizes, lambd: real, gamma: real,
                               delta: real, omega: real, misfit: seq<C>, x: seq<C>, xOld: seq<C>, v: seq<C>)
    requires sz.NH1 == 0 && 0.0 < omega && 0.0 < NormSq(ops.grad1(x))
    ensures FvalAsWritten(sqrt, ops, sz, lambd, gamma, delta, omega, misfit, x, xOld, v)
            == Fval(sqrt, ops, sz, lambd, gamma, delta, omega, misfit, x, xOld, v) + H1Penalty(ops, omega, x)
    ensures Fval(sqrt, ops, sz, lambd, gamma, delta, omega, misfit, x, xOld, v)
            < FvalAsWritten(sqrt, ops, sz, lambd, gamma, delta, omega, misfit, x, xOld, v)
  {
    var n := NormSq(ops.grad1(x));
    assert 0.0 < (omega / 2.0) * n by { MulLeftStrict(n, 0.0, omega / 2.0); }
  }

  /** The corrected energy has no H1 term without H1 unknowns, and otherwise charges
      exactly the last NH1 images of x. */
  lemma FvalH1Term(sqrt: real -> real, ops: Ops, sz: Sizes, lambd: real, gamma: real,
                   delta: real, omega: real, misfit: seq<C>, x: seq<C>, xOld: seq<C>, v: seq<C>)
    ensures sz.NH1 == 0 ==> Fval(sqrt, ops, sz, lambd, gamma, delta, omega, misfit, x, xOld, v)
                            == CoreEnergy(sqrt, ops, sz, lambd, gamma, delta, misfit, x, xOld, v)
    ensures 0 < sz.NH1 && sz.NH1 * sz.P <= |x| ==>
              Fval(sqrt, ops, sz, lambd, gamma, delta, omega, misfit, x, xOld, v)
              == CoreEnergy(sqrt, ops, sz, lambd, gamma, delta, misfit, x, xOld, v)
                 + H1Penalty(ops, omega, x[|x| - sz.NH1 * sz.P..])
  {
  }

  // ---------------------------------------------------------------- termination

  /** The test of line 560: |fval_min - fval| < lambd*tol. */
  predicate Converged(fvalMin: real, fval: real, lambd: real, tol: real)
  {
    Abs(fvalMin - fval) < lambd * tol
  }

  /** fval_min <- min(fval, fval_min): never increases. */
  function NextFvalMin(fval: real, fvalMin: real): (r: real)
    ensures r <= fvalMin && r <= fval && (r == fval || r == fvalMin)
  {
    Min(fval, fvalMin)
  }

  /** fval_min after the energies fs, starting from m0. */
  function FvalMinAfter(m0: real, fs: seq<real>): real
  {
    if |fs| == 0 then m0 else NextFvalMin(fs[|fs| - 1], FvalMinAfter(m0, fs[..|fs| - 1]))
  }

  /** fval_min starts at 0 and every energy is nonnegative, so it stays 0, and the test
      only asks whether the energy itself is below lambd*tol. */
  lemma {:induction false} FvalMinStuckAtZero(fs: seq<real>, fval: real, lambd: real, tol: real)
    requires forall k :: 0 <= k < |fs| ==> 0.0 <= fs[k]
    requires 0.0 <= fval
    ensures FvalMinAfter(0.0, fs) == 0.0
    ensures Converged(FvalMinAfter(0.0, fs), fval, lambd, tol) <==> fval < lambd * tol
  {
    if 0 < |fs| {
      FvalMinStuckAtZero(fs[..|fs| - 1], fval, lambd, tol);
    }
  }

  /** An energy that stalls at 5 with lambd*tol = 1: the test as written never fires. */
  lemma StallNotDetected()
    ensures !Converged(FvalMinAfter(0.0, [5.0]), 5.0, 1.0, 1.0)
    ensures StopCorrected(BestOf([5.0]), 5.0, 1.0, 1.0)
  {
    assert FvalMinAfter(0.0, [5.0]) == 0.0 by {
      assert [5.0][..0] == [];
    }
    assert BestOf([5.0]) == Some(5.0) by {
      assert [5.0][..0] == [];
    }
  }

  /** The smallest earlier energy, none before the first step. */
  function BestOf(fs: seq<real>): Option<real>
  {
    if |fs| == 0 then None
    else match BestOf(fs[..|fs| - 1])
      case None => Some(fs[|fs| - 1])
      case Some(m) => Some(NextFvalMin(fs[|fs| - 1], m))
  }

  /** The intended test: the new energy within lambd*tol of the best earlier one. */
  predicate StopCorrected(best: Option<real>, fval: real, lambd: real, tol: real)
  {
    best.Some? && Converged(best.value, fval, lambd, tol)
  }

  /** The best earlier energy is one of them and no larger than any, so the corrected
      test never fires on the first step and otherwise compares the new energy with
      the smallest energy seen so far. */
  lemma {:induction false} BestOfIsMin(fs: seq<real>)
    ensures BestOf(fs).None? <==> |fs| == 0
    ensures BestOf(fs).Some? ==> (exists k :: 0 <= k < |fs| && BestOf(fs).value == fs[k])
    ensures BestOf(fs).Some? ==> (forall k :: 0 <= k < |fs| ==> BestOf(fs).value <= fs[k])
  {
    if 0 < |fs| {
      var init := fs[..|fs| - 1];
      BestOfIsMin(init);
      assert forall k :: 0 <= k < |init| ==> init[k] == fs[k];
      if BestOf(init).Some? {
        var k0 :| 0 <= k0 < |init| && BestOf(init).value == init[k0];
        if BestOf(fs).value == fs[|fs| - 1] {
          assert 0 <= |fs| - 1 < |fs|;
        } else {
          assert BestOf(fs).value == fs[k0];
        }
      }
    }
  }

  // ---------------------------------------------------------------- the stored estimate

  /** The estimate the next GN step starts from, as line 550 leaves it: the value the
      solve returns is dropped, so the estimate is the one the solve started from. */
  function NextEstimateAsWritten(xs: seq<C>, x: seq<C>): (r: seq<C>)
    ensures |r| == |xs|
  {
    xs
  }

  /** The estimate the next GN step is meant to start from: the solve's output. */
  function NextEstimate(xs: seq<C>, x: seq<C>): (r: seq<C>)
    ensures |r| == |x|
  {
    x
  }

  /** Two solves that return different iterates leave the same estimate as written,
      so at most one of them is stored. */
  lemma SolveOutputLost(xs: seq<C>, x1: seq<C>, x2: seq<C>)
    requires x1 != x2
    ensures NextEstimateAsWritten(xs, x1) == NextEstimateAsWritten(xs, x2)
    ensures NextEstimateAsWritten(xs, x1) != x1 || NextEstimateAsWritten(xs, x2) != x2
  {
  }

  /** Corrected, the next step starts from what the solve returned, whatever the
      estimate the solve started from. */
  lemma SolveOutputKept(xs1: seq<C>, xs2: seq<C>, x: seq<C>)
    ensures NextEstimate(xs1, x) == x && NextEstimate(xs1, x) == NextEstimate(xs2, x)
  {
  }

  // ---------------------------------------------------------------- rescaling

  /** Entry k of a slice estimate after the T1 rescale: entries of unknown 1 (indices
      P..2P-1) are multiplied by the old T1 scale and divided by the new one. */
  function T1Entry(xs: seq<C>, P: nat, tOld: real, tNew: real, k: nat): C
    requires k < |xs|
  {
    if P <= k < 2 * P then Scale(Div(1.0, tNew), Scale(tOld, xs[k])) else xs[k]
  }

  function RescaleT1(xs: seq<C>, P: nat, tOld: real, tNew: real): (r: seq<C>)
    ensures |r| == |xs|
    ensures forall k :: 0 <= k < |xs| ==> r[k] == T1Entry(xs, P, tOld, tNew, k)
  {
    seq(|xs|, k requires 0 <= k < |xs| => T1Entry(xs, P, tOld, tNew, k))
  }

  /** The rescale changes only unknown 1, and keeps T1_sc * result[1] unchanged when
      the new T1 scale is nonzero. */
  lemma RescaleT1Facts(xs: seq<C>, P: nat, tOld: real, tNew: real)
    ensures forall k :: 0 <= k < |xs| && !(P <= k < 2 * P) ==> RescaleT1(xs, P, tOld, tNew)[k] == xs[k]
    ensures tNew != 0.0 ==> forall k :: P <= k < 2 * P && k < |xs| ==>
              Scale(tNew, RescaleT1(xs, P, tOld, tNew)[k]) == Scale(tOld, xs[k])
  {
    if tNew != 0.0 {
      forall k | P <= k < 2 * P && k < |xs|
        ensures Scale(tNew, RescaleT1(xs, P, tOld, tNew)[k]) == Scale(tOld, xs[k])
      {
        UndoScale(tNew, Scale(tOld, xs[k]));
      }
    }
  }

  lemma UndoScale(t: real, a: C)
    requires t != 0.0
    ensures Scale(t, Scale(Div(1.0, t), a)) == a
  {
    ScaleScale(t, Div(1.0, t), a);
    assert t * Div(1.0, t) == 1.0;
  }

  /** T1_sc after a rescale by scale. */
  function T1After(t1: real, scale: real): real
  {
    t1 * scale
  }

  /** Constraint 0 kept, every later constraint divided by scale: the bounds the loop
      of lines 538-539 leaves. */
  function RescaleTail(bs: seq<Bound>, scale: real): (r: seq<Bound>)
    ensures |r| == |bs|
    ensures forall k :: 0 <= k < |bs| ==> r[k] == if k == 0 then bs[0] else Rescaled(bs[k], scale)
  {
    seq(|bs|, k requires 0 <= k < |bs| => if k == 0 then bs[0] else Rescaled(bs[k], scale))
  }

  /** The first constraint keeps its bounds, every flag is kept, a positive scale keeps
      every ordered pair ordered, and rescaling by 1/scale afterwards restores the
      table. */
  lemma RescaleTailFacts(bs: seq<Bound>, scale: real)
    ensures 0 < |bs| ==> RescaleTail(bs, scale)[0] == bs[0]
    ensures forall k :: 0 <= k < |bs| ==> RescaleTail(bs, scale)[k].isReal == bs[k].isReal
    ensures 0.0 < scale ==> forall k :: 0 <= k < |bs| && Le(bs[k].min, bs[k].max) ==>
              Le(RescaleTail(bs, scale)[k].min, RescaleTail(bs, scale)[k].max)
    ensures 0.0 < scale ==> RescaleTail(RescaleTail(bs, scale), 1.0 / scale) == bs
  {
    if 0.0 < scale {
      forall k | 0 < k < |bs|
        ensures Le(bs[k].min, bs[k].max) ==> Le(RescaleTail(bs, scale)[k].min, RescaleTail(bs, scale)[k].max)
        ensures Rescaled(Rescaled(bs[k], scale), 1.0 / scale) == bs[k]
      {
        RescaledOrder(bs[k], scale);
      }
    }
  }

  /** A slice estimate whose entries outside unknown 1 equal those of orig, and whose
      unknown 1 times the T1 scale t equals orig's times t0 while t is nonzero. */
  ghost predicate T1Kept(cur: seq<C>, orig: seq<C>, P: nat, t: real, t0: real)
  {
    SameOutsideT1(cur, orig, P)
    && (t != 0.0 ==> forall k :: P <= k < 2 * P && k < |cur| ==> Scale(t, cur[k]) == Scale(t0, orig[k]))
  }

  /** Equal lengths, and equal entries outside unknown 1. */
  ghost predicate SameOutsideT1(cur: seq<C>, orig: seq<C>, P: nat)
  {
    |cur| == |orig| && forall k :: 0 <= k < |cur| && !(P <= k < 2 * P) ==> cur[k] == orig[k]
  }

  /** One more rescale by sc keeps T1Kept. */
  lemma T1KeptStep(cur: seq<C>, orig: seq<C>, P: nat, t: real, t0: real, sc: real)
    requires T1Kept(cur, orig, P, t, t0)
    ensures T1Kept(RescaleT1(cur, P, t, T1After(t, sc)), orig, P, T1After(t, sc), t0)
  {
    var tn := T1After(t, sc);
    var nx := RescaleT1(cur, P, t, tn);
    RescaleT1Facts(cur, P, t, tn);
    if tn != 0.0 {
      assert t != 0.0;
      forall k | P <= k < 2 * P && k < |nx|
        ensures Scale(tn, nx[k]) == Scale(t0, orig[k])
      {
        assert Scale(tn, nx[k]) == Scale(t, cur[k]);
      }
    }
  }

  // ---------------------------------------------------------------- the solve

  /** The dual buffers `self.v`, `self.r`, `self.z1`, `self.z2`, `self.z3`. */
  datatype Buffers = Buffers(v: seq<C>, r: seq<C>, z1: seq<C>, z2: seq<C>, z3: seq<C>)

  function BuffersOf(t: TgvSolver): Buffers
    reads t
  {
    Buffers(t.v, t.r, t.z1, t.z2, t.z3)
  }

  /** The zeroed buffers of the per-slice reset, in the shapes of lines 526-530. */
  function ZeroBuffers(sz: Sizes, rLen: nat): (b: Buffers)
    ensures |b.v| == TgvLen(sz) && |b.z1| == TgvLen(sz) && |b.r| == rLen
    ensures |b.z2| == sz.P * (3 * sz.NTGV) && |b.z3| == H1Len(sz)
    ensures forall k :: 0 <= k < |b.v| ==> b.v[k] == Zero
  {
    Buffers(ZeroBuf(TgvLen(sz)), ZeroBuf(rLen), ZeroBuf(TgvLen(sz)), ZeroBuf(sz.P * (3 * sz.NTGV)),
            ZeroBuf(H1Len(sz)))
  }

  function ZeroBuf(n: nat): (r: seq<C>)
    ensures |r| == n && forall k :: 0 <= k < n ==> r[k] == Zero
  {
    seq(n, k => Zero)
  }

  /** The problem the solve of GN step i on slice s works on, from the estimate xs. */
  function ProblemOf(env: Env, p: IrgnPar, s: nat, gamma: real, delta: real, xs: seq<C>): Problem
  {
    Problem(env.ops(s, xs), env.sqrt, env.sz, TgvParams(p, gamma, delta, env.radonScale), xs, env.res(s, xs))
  }

  /** What `tgv_solve_2D` returns from pb.xk and the stored buffers b. */
  function SolveOf(pb: Problem, b: Buffers, est: real, iters: nat, fuel: nat): Outcome
  {
    Run(pb, Start(pb, pb.xk, b.v, Duals(b.r, b.z1, b.z2, b.z3), est), 0, iters, fuel)
  }

  /** The buffers the solve leaves: all but z3 unless it ran out of fuel, z3 only when
      the outcome says so. */
  function Persisted(o: Outcome, b: Buffers): (r: Buffers)
    ensures o.exit != OutOfFuel ==> r.v == o.v && r.r == o.r && r.z1 == o.z1 && r.z2 == o.z2
    ensures o.exit == OutOfFuel ==> r.v == b.v && r.r == b.r && r.z1 == b.z1 && r.z2 == b.z2
    ensures r.z3 == if o.writesZ3 then o.z3 else b.z3
  {
    var z3 := if o.writesZ3 then o.z3 else b.z3;
    if o.exit == OutOfFuel then Buffers(b.v, b.r, b.z1, b.z2, z3) else Buffers(o.v, o.r, o.z1, o.z2, z3)
  }

  /** The energy `irgn_solve_2D` records after the solve returned x from xs. */
  function FvalOf(env: Env, p: IrgnPar, s: nat, gamma: real, delta: real, xs: seq<C>, x: seq<C>,
                  v: seq<C>): real
  {
    FvalAsWritten(env.sqrt, env.ops(s, xs), env.sz, p.lambd, gamma, delta, p.omega, env.misfit(s, x), x, xs, v)
  }

  // ---------------------------------------------------------------- the history

  /** The keys of h are those of h0 and the first n steps of slice s. */
  ghost predicate HistoryKeys(h: map<(nat, nat), seq<C>>, h0: map<(nat, nat), seq<C>>, s: nat, n: nat)
  {
    forall key :: key in h <==> key in h0 || (key.1 == s && key.0 < n)
  }

  /** h keeps every entry of h0 for the slices other than s. */
  ghost predicate OthersKept(h: map<(nat, nat), seq<C>>, h0: map<(nat, nat), seq<C>>, s: nat)
  {
    forall key :: key in h0 && key.1 != s ==> key in h && h[key] == h0[key]
  }

  /** The first n entries of slice s differ from orig only in unknown 1. */
  ghost predicate SliceEntries(h: map<(nat, nat), seq<C>>, orig: seq<C>, s: nat, n: nat, P: nat)
  {
    forall k :: 0 <= k < n ==> (k, s) in h && SameOutsideT1(h[(k, s)], orig, P)
  }

  /** Storing the estimate of step n of slice s. */
  lemma HistoryStep(h: map<(nat, nat), seq<C>>, h0: map<(nat, nat), seq<C>>, s: nat, n: nat,
                    xs: seq<C>, orig: seq<C>, P: nat)
    requires HistoryKeys(h, h0, s, n) && OthersKept(h, h0, s) && SliceEntries(h, orig, s, n, P)
    requires SameOutsideT1(xs, orig, P)
    ensures HistoryKeys(h[(n, s) := xs], h0, s, n + 1) && OthersKept(h[(n, s) := xs], h0, s)
    ensures SliceEntries(h[(n, s) := xs], orig, s, n + 1, P)
  {
  }

  /** The estimates of the slices other than s are those of r0. */
  ghost predicate OtherSlicesKept(r: seq<seq<C>>, r0: seq<seq<C>>, s: nat)
  {
    |r| == |r0| && forall q :: 0 <= q < |r| && q != s ==> r[q] == r0[q]
  }

  // ---------------------------------------------------------------- the driver object

  /** The reconstruction object: `irgn_par.gamma`/`delta`, `fval`, `fval_min`, the
      model's `T1_sc` and constraints, the per-slice estimates `result[:, islice]`, the
      stored history `self.result[i, :, islice]` (an absent key is a zero image), and
      the solver with its dual buffers. */
  class Reco {
    var gamma: real
    var delta: real
    var fval: real
    var fvalMin: real
    var t1Sc: real
    var result: seq<seq<C>>
    var history: map<(nat, nat), seq<C>>
    const cons: seq<Constraint>
    const solver: TgvSolver

    /** `fval_min` and `fval` start at 0. */
    constructor (cons0: seq<Constraint>, solver0: TgvSolver, t1Sc0: real, gamma0: real, delta0: real)
      ensures cons == cons0 && solver == solver0 && t1Sc == t1Sc0 && gamma == gamma0 && delta == delta0
      ensures fval == 0.0 && fvalMin == 0.0 && result == [] && history == map[]
    {
      cons, solver, t1Sc, gamma, delta := cons0, solver0, t1Sc0, gamma0, delta0;
      fval, fvalMin, result, history := 0.0, 0.0, [], map[];
    }

    /** Lines 538-539: `constraints[j+1].update(scale)` for every constraint after the
        first. */
    method RescaleConstraints(scale: real)
      requires Distinct(cons)
      modifies cons
      ensures Views(cons) == RescaleTail(old(Views(cons)), scale)
    {
      var j := 0;
      while j < |cons| - 1
        invariant 0 <= j <= |cons| || (|cons| == 0 && j == 0)
        invariant forall k :: 1 <= k <= j && k < |cons| ==> cons[k].View() == Rescaled(old(cons[k].View()), scale)
        invariant forall k :: 0 <= k < |cons| && (k == 0 || j < k) ==> cons[k].View() == old(cons[k].View())
      {
        cons[j + 1].Update(scale);
        j := j + 1;
      }
    }

    /** Lines 541-543: unknown 1 of slice s times T1_sc, T1_sc times scale, unknown 1
        divided by the new T1_sc. */
    method RescaleT1Block(s: nat, P: nat, scale: real)
      requires s < |result|
      modifies this
      ensures t1Sc == T1After(old(t1Sc), scale)
      ensures result == old(result)[s := RescaleT1(old(result[s]), P, old(t1Sc), t1Sc)]
      ensures gamma == old(gamma) && delta == old(delta) && fval == old(fval) && fvalMin == old(fvalMin)
      ensures history == old(history)
    {
      var tNew := T1After(t1Sc, scale);
      result := result[s := RescaleT1(result[s], P, t1Sc, tNew)];
      t1Sc := tNew;
    }

    /** The solve of `irgn_solve_2D`: from pb.xk and the solver's buffers; the caller
        drops the iterate it returns. */
    method SolveStep(pb: Problem, est: real, iters: nat, fuel: nat) returns (x: seq<C>)
      modifies solver
      ensures var o := SolveOf(pb, old(BuffersOf(solver)), est, iters, fuel);
              x == o.x && BuffersOf(solver) == Persisted(o, old(BuffersOf(solver)))
      ensures Views(cons) == old(Views(cons))
    {
      var exit;
      x, exit := solver.Solve(pb.ops, pb.sqrt, pb.sz, pb.pr, pb.xk, pb.res, est, iters, fuel);
    }

    /** The energy `irgn_solve_2D` stores in `self.fval` after the solve returned x. */
    method Measure(env: Env, p: IrgnPar, s: nat, xs: seq<C>, x: seq<C>)
      modifies this
      ensures fval == FvalOf(env, p, s, gamma, delta, xs, x, solver.v)
      ensures IsSqrt(env.sqrt) && 0.0 <= p.lambd && 0.0 <= p.omega && 0.0 <= gamma && 0.0 < delta ==> 0.0 <= fval
      ensures gamma == old(gamma) && delta == old(delta) && fvalMin == old(fvalMin) && t1Sc == old(t1Sc)
      ensures result == old(result) && history == old(history)
    {
      fval := FvalOf(env, p, s, gamma, delta, xs, x, solver.v);
      if IsSqrt(env.sqrt) && 0.0 <= p.lambd && 0.0 <= p.omega && 0.0 <= gamma && 0.0 < delta {
        FvalNonneg(env.sqrt, env.ops(s, xs), env.sz, p.lambd, gamma, delta, p.omega, env.misfit(s, x), x, xs, solver.v);
      }
    }

    /** Lines 553-563 after the solve: the schedule advances, then the run stops if the
        energy is within lambd*tol of fval_min, and otherwise fval_min takes the smaller
        energy. */
    method Advance(p: IrgnPar, iters: nat) returns (stop: bool, itersNext: nat)
      modifies this
      ensures itersNext == NextIters(iters, p.maxIters)
      ensures gamma == NextGamma(old(gamma), p.gammaMin) && delta == NextDelta(old(delta), p.deltaInc, p.deltaMax)
      ensures stop == Converged(old(fvalMin), fval, p.lambd, p.tol)
      ensures fvalMin == if stop then old(fvalMin) else NextFvalMin(fval, old(fvalMin))
      ensures fval == old(fval) && t1Sc == old(t1Sc) && result == old(result) && history == old(history)
    {
      itersNext := NextIters(iters, p.maxIters);
      gamma := NextGamma(gamma, p.gammaMin);
      delta := NextDelta(delta, p.deltaInc, p.deltaMax);
      stop := Converged(fvalMin, fval, p.lambd, p.tol);
      if !stop {
        fvalMin := NextFvalMin(fval, fvalMin);
      }
    }

    /** Lines 536-543: the ratio of the Jacobian's first two blocks at the slice
        estimate rescales constraints 1.. and the T1 block. */
    method Linearise(env: Env, s: nat) returns (sc: real)
      requires s < |result| && Distinct(cons)
      modifies this, cons
      ensures sc == env.gnScale(s, old(result[s]))
      ensures t1Sc == T1After(old(t1Sc), sc)
      ensures result == old(result)[s := RescaleT1(old(result[s]), env.sz.P, old(t1Sc), t1Sc)]
      ensures Views(cons) == RescaleTail(old(Views(cons)), sc)
      ensures gamma == old(gamma) && delta == old(delta) && fval == old(fval) && fvalMin == old(fvalMin)
      ensures history == old(history)
    {
      sc := env.gnScale(s, result[s]);
      RescaleConstraints(sc);
      RescaleT1Block(s, env.sz.P, sc);
    }

    /** Lines 496-563 after the solve returned x from the slice estimate xs: the
        energy, the estimate stored unchanged, and the schedule. */
    method Record(env: Env, p: IrgnPar, s: nat, i: nat, iters: nat, xs: seq<C>, x: seq<C>)
      returns (stop: bool, itersNext: nat)
      requires s < |result| && result[s] == xs
      modifies this
      ensures result == old(result) && t1Sc == old(t1Sc) && Views(cons) == old(Views(cons))
      ensures history == old(history)[(i, s) := xs]
      ensures fval == FvalOf(env, p, s, old(gamma), old(delta), xs, x, solver.v)
      ensures IsSqrt(env.sqrt) && 0.0 <= p.lambd && 0.0 <= p.omega && 0.0 <= old(gamma) && 0.0 < old(delta) ==> 0.0 <= fval
      ensures itersNext == NextIters(iters, p.maxIters)
      ensures gamma == NextGamma(old(gamma), p.gammaMin) && delta == NextDelta(old(delta), p.deltaInc, p.deltaMax)
      ensures stop == Converged(old(fvalMin), fval, p.lambd, p.tol)
      ensures fvalMin == if stop then old(fvalMin) else NextFvalMin(fval, old(fvalMin))
    {
      Measure(env, p, s, xs, x);
      result := result[s := NextEstimateAsWritten(xs, x)];
      history := history[(i, s) := result[s]];
      stop, itersNext := Advance(p, iters);
    }

    /** One Gauss-Newton step i on slice s (lines 533-563). */
    method GnStep(env: Env, p: IrgnPar, s: nat, i: nat, iters: nat) returns (stop: bool, itersNext: nat)
      requires s < |result| && Distinct(cons)
      modifies this, solver, cons
      ensures var sc := env.gnScale(s, old(result[s]));
              t1Sc == T1After(old(t1Sc), sc)
              && result == old(result)[s := RescaleT1(old(result[s]), env.sz.P, old(t1Sc), t1Sc)]
              && Views(cons) == RescaleTail(old(Views(cons)), sc)
      ensures history == old(history)[(i, s) := result[s]]
      ensures var o := SolveOf(ProblemOf(env, p, s, old(gamma), old(delta), result[s]), old(BuffersOf(solver)),
                               env.est(s, i), iters, env.fuel);
              BuffersOf(solver) == Persisted(o, old(BuffersOf(solver)))
              && fval == FvalOf(env, p, s, old(gamma), old(delta), result[s], o.x, solver.v)
      ensures IsSqrt(env.sqrt) && 0.0 <= p.lambd && 0.0 <= p.omega && 0.0 <= old(gamma) && 0.0 < old(delta) ==> 0.0 <= fval
      ensures itersNext == NextIters(iters, p.maxIters)
      ensures gamma == NextGamma(old(gamma), p.gammaMin) && delta == NextDelta(old(delta), p.deltaInc, p.deltaMax)
      ensures stop == Converged(old(fvalMin), fval, p.lambd, p.tol)
      ensures fvalMin == if stop then old(fvalMin) else NextFvalMin(fval, old(fvalMin))
    {
      var sc := Linearise(env, s);
      var xs := result[s];
      var x := SolveStep(ProblemOf(env, p, s, gamma, delta, xs), env.est(s, i), iters, env.fuel);
      stop, itersNext := Record(env, p, s, i, iters, xs, x);
    }

    /** Lines 522-531: gamma and delta back to their initial values and the dual
        buffers zeroed. */
    method ResetSlice(env: Env, p: IrgnPar)
      modifies this, solver
      ensures gamma == p.gamma && delta == p.delta && BuffersOf(solver) == ZeroBuffers(env.sz, env.rLen)
      ensures fval == old(fval) && fvalMin == old(fvalMin) && t1Sc == old(t1Sc)
      ensures result == old(result) && history == old(history)
    {
      gamma, delta := p.gamma, p.delta;
      var b := ZeroBuffers(env.sz, env.rLen);
      solver.Reset(b.v, b.r, b.z1, b.z2, b.z3);
    }

    /** Where slice s stands after i Gauss-Newton steps, against the estimates r0,
        history h0, T1 scale t0 and fval_min m0 it started from: the other slices
        untouched, slice s changed only through the T1 rescale, gamma and delta on
        their schedule, one history entry per step, and fval_min still 0 when it
        started there. */
    ghost predicate Progress(env: Env, p: IrgnPar, s: nat, i: nat, r0: seq<seq<C>>,
                             h0: map<(nat, nat), seq<C>>, t0: real, m0: real)
      reads this
    {
      s < |r0| && i <= p.maxGnIt && OtherSlicesKept(result, r0, s)
      && T1Kept(result[s], r0[s], env.sz.P, t1Sc, t0)
      && gamma == GammaAfter(p.gamma, p.gammaMin, i) && delta == DeltaAfter(p.delta, p.deltaInc, p.deltaMax, i)
      && HistoryKeys(history, h0, s, i) && OthersKept(history, h0, s) && SliceEntries(history, r0[s], s, i, env.sz.P)
      && (IsSqrt(env.sqrt) && NonnegPar(p) && m0 == 0.0 ==> fvalMin == 0.0)
    }

    /** One pass of the Gauss-Newton loop of slice s keeps Progress. */
    method SliceStep(env: Env, p: IrgnPar, s: nat, i: nat, iters: nat, ghost r0: seq<seq<C>>,
                     ghost h0: map<(nat, nat), seq<C>>, ghost t0: real, ghost m0: real)
      returns (stop: bool, itersNext: nat)
      requires Progress(env, p, s, i, r0, h0, t0, m0) && i < p.maxGnIt && Distinct(cons)
      modifies this, solver, cons
      ensures Progress(env, p, s, i + 1, r0, h0, t0, m0)
      ensures itersNext == NextIters(iters, p.maxIters)
      ensures stop ==> Converged(fvalMin, fval, p.lambd, p.tol)
    {
      if NonnegPar(p) {
        ScheduleSigns(p.gamma, p.gammaMin, p.delta, p.deltaInc, p.deltaMax, i);
      }
      ghost var t := t1Sc;
      ghost var cur := result[s];
      ghost var h := history;
      stop, itersNext := GnStep(env, p, s, i, iters);
      T1KeptStep(cur, r0[s], env.sz.P, t, t0, env.gnScale(s, cur));
      HistoryStep(h, h0, s, i, result[s], r0[s], env.sz.P);
    }

    /** The body of the slice loop (lines 522-563): reset, then up to max_GN_it
        Gauss-Newton steps, leaving the whole run as soon as one converges. The
        slice's estimate changes only through the T1 rescale, the schedule follows its
        closed forms, and fval_min stays at 0 when it starts there. */
    method Slice(env: Env, p: IrgnPar, s: nat) returns (stop: bool, ghost steps: nat)
      requires s < |result| && Distinct(cons)
      modifies this, solver, cons
      ensures steps <= p.maxGnIt && (stop ==> 0 < steps) && (!stop ==> steps == p.maxGnIt)
      ensures Progress(env, p, s, steps, old(result), old(history), old(t1Sc), old(fvalMin))
      ensures stop ==> Converged(fvalMin, fval, p.lambd, p.tol)
    {
      ResetSlice(env, p);
      var iters := p.startIters;
      var i := 0;
      stop := false;
      while i < p.maxGnIt
        invariant Progress(env, p, s, i, old(result), old(history), old(t1Sc), old(fvalMin))
        invariant iters == ItersAfter(p.startIters, p.maxIters, i)
      {
        stop, iters := SliceStep(env, p, s, i, iters, old(result), old(history), old(t1Sc), old(fvalMin));
        if stop {
          steps := i + 1;
          return;
        }
        i := i + 1;
      }
      steps := i;
    }

    /** `execute_2D` (lines 507-563) from the model's guess: the slices in order, the
        whole run ending at the first Gauss-Newton step whose energy is within
        lambd*tol of fval_min. The estimates differ from the guess only in unknown 1,
        the history holds one entry per step taken, and fval_min stays at 0 when it
        starts there. */
    method Execute(env: Env, p: IrgnPar, guess: seq<seq<C>>) returns (stopped: bool, ghost last: nat)
      requires Distinct(cons)
      modifies this, solver, cons
      ensures |result| == |guess|
      ensures forall q :: 0 <= q < |guess| ==> SameOutsideT1(result[q], guess[q], env.sz.P)
      ensures forall key :: key in history ==> key.0 < p.maxGnIt && key.1 < |guess|
      ensures forall key :: key in history ==> SameOutsideT1(history[key], guess[key.1], env.sz.P)
      ensures !stopped ==> forall i, q :: 0 <= i < p.maxGnIt && 0 <= q < |guess| ==> (i, q) in history
      ensures stopped ==> last < |guess| && Converged(fvalMin, fval, p.lambd, p.tol)
      ensures stopped ==> forall key :: key in history ==> key.1 <= last
      ensures IsSqrt(env.sqrt) && NonnegPar(p) && old(fvalMin) == 0.0 ==> fvalMin == 0.0
    {
      result := guess;
      history := map[];
      stopped, last := false, 0;
      var q := 0;
      while q < |guess|
        invariant q <= |guess| && |result| == |guess|
        invariant forall r :: 0 <= r < q ==> SameOutsideT1(result[r], guess[r], env.sz.P)
        invariant forall r :: q <= r < |guess| ==> result[r] == guess[r]
        invariant forall key :: key in history ==> key.0 < p.maxGnIt && key.1 < q
        invariant forall key :: key in history ==> SameOutsideT1(history[key], guess[key.1], env.sz.P)
        invariant forall i, r :: 0 <= i < p.maxGnIt && 0 <= r < q ==> (i, r) in history
        invariant IsSqrt(env.sqrt) && NonnegPar(p) && old(fvalMin) == 0.0 ==> fvalMin == 0.0
      {
        var st, steps := Slice(env, p, q);
        if st {
          stopped, last := true, q;
          return;
        }
        q := q + 1;
      }
    }
  }
}
