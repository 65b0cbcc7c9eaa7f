/** The primal-dual solver `tgv_solve_2D` of one Gauss-Newton step.

    The state of the iteration is a `State` value; `Prepare`, `Search`, `Check` and
    `StepAt` say what one pass of the `for` loop does to it, and `Run` what the whole
    loop returns and persists. The class `TgvSolver` holds the dual buffers the solver
    keeps between Gauss-Newton steps (`self.v`, `self.r`, `self.z1`, `self.z2`,
    `self.z3`); its method `Solve` performs the loop step by step and is proved to
    agree with `Run`. The unbounded backtracking loop is cut after `fuel` trials. */
module Solver {
  import opened Sums
  import opened Complex
  import opened Roots
  import opened SolverMath

  /** What one solve works on: the operators, the square root, the sizes, the
      weights, the starting iterate xk and the linearised data res. */
  datatype Problem = Problem(ops: Ops, sqrt: real -> real, sz: Sizes, pr: Params, xk: seq<C>, res: seq<C>)

  /** The variables the loop carries from one pass to the next. */
  datatype State = State(x: seq<C>, v: seq<C>, y: Duals, kyk1: seq<C>, kyk2: seq<C>, axold: seq<C>,
                         tau: real, betaLine: real, thetaLine: real, primal: real, gapMin: real)

  /** How a solve ends: one of the three checkpoint tests, the last iteration, or a
      backtracking search that found no step within its fuel. */
  datatype Exit = PrimalStop | StagnationStop | GapStop | Finished | OutOfFuel

  /** What a solve returns and the duals it leaves behind; z3 is written back only
      when `writesZ3` holds. */
  datatype Outcome = Outcome(exit: Exit, x: seq<C>, v: seq<C>, r: seq<C>, z1: seq<C>, z2: seq<C>,
                             z3: seq<C>, writesZ3: bool)

  datatype Option<T> = None | Some(value: T)

  /** L = estimate + 8^2 + 16^2, the bound on the squared operator norm. */
  function Lipschitz(est: real): real
  {
    est + 8.0 * 8.0 + 16.0 * 16.0
  }

  /** The state before the first pass: tau = 1/sqrt(L), beta_line = 400, theta_line = 1,
      primal = gap_min = 0, Axold = A x, and K^* y of the given duals. */
  function Start(pb: Problem, x: seq<C>, v: seq<C>, y: Duals, est: real): State
  {
    State(x, v, y, KStar1(pb.ops, pb.sz, y.r, y.z1, y.z3), KStar2(pb.ops, y.z1, y.z2), pb.ops.A(x),
          Div(1.0, pb.sqrt(Lipschitz(est))), BetaLine0, Theta0, 0.0, 0.0)
  }

  /** The work of a pass before the backtracking loop: x_new, the first trial step, and
      what the loop reads. */
  datatype Pre = Pre(xNew: seq<C>, t0: real, c: Ctx)

  function Prepare(pb: Problem, s: State): Pre
  {
    var xNew := PrimalUpdate(pb.sz, s.x, s.kyk1, pb.xk, s.tau, pb.pr.delta, pb.pr.omega, pb.pr.fa);
    var vNew := VLin(1.0, s.v, -s.tau, s.kyk2);
    var betaNew := NextBeta(s.betaLine, Div(1.0, pb.pr.delta), s.tau);
    var gradx := pb.ops.grad1(xNew);
    var symgradV := pb.ops.symgrad2(vNew);
    var ax := pb.ops.A(xNew);
    Pre(xNew, NextTau(pb.sqrt, s.tau, s.betaLine, betaNew, s.thetaLine),
        Ctx(s.tau, betaNew, s.y, s.kyk1, s.kyk2, gradx, VSub(gradx, pb.ops.grad1(s.x)), vNew, VSub(vNew, s.v),
            symgradV, VSub(symgradV, pb.ops.symgrad2(s.v)), ax, VSub(ax, s.axold), pb.res))
  }

  /** The trial of the backtracking loop with step tauNew. */
  function TrialOf(pb: Problem, c: Ctx, tauNew: real): Trial
  {
    TrialAt(pb.ops, pb.sqrt, pb.sz, pb.pr, c, tauNew)
  }

  /** The trial of the backtracking loop as a map from step to trial. */
  function TrialFn(pb: Problem, c: Ctx): real -> Trial
  {
    tauNew => TrialOf(pb, c, tauNew)
  }

  /** Whether the trial of the k-th candidate step from t0 passes the test. */
  function AcceptBy(tr: real -> Trial, t0: real): nat -> bool
  {
    (k: nat) => Accepts(tr(Candidate(t0, k)))
  }

  /** The acceptance test of the backtracking loop, candidate by candidate. */
  function AcceptTest(pb: Problem, c: Ctx, t0: real): nat -> bool
  {
    AcceptBy(TrialFn(pb, c), t0)
  }

  /** A loop that tries candidates k, k+1, ... until one passes acc, with fuel trials
      left: the index of the first candidate it accepts. */
  function Search(acc: nat -> bool, k: nat, fuel: nat): Option<nat>
    decreases fuel
  {
    if fuel == 0 then None
    else if acc(k) then Some(k)
    else Search(acc, k + 1, fuel - 1)
  }

  /** The outcome of one pass: the next state, or the end of the solve. */
  datatype Step = Next(s: State) | Halt(o: Outcome)

  /** The primal energy at a checkpoint; it uses the v of the start of the pass. */
  function PrimalOf(pb: Problem, s: State, pre: Pre): real
  {
    PrimalEnergy(pb.sqrt, pb.sz, pb.pr, pre.c.ax, pb.res, pre.c.gradx, s.v, pre.c.symgradV, pre.xNew, pb.xk)
  }

  /** The dual energy at a checkpoint: evaluated only with H1 unknowns, 0 otherwise. */
  function DualOf(pb: Problem, t: Trial): real
  {
    if 0 < pb.sz.NH1 then DualEnergy(pb.pr, t.kyk1, t.kyk2, pb.xk, t.y.r, pb.res, t.y.z3) else 0.0
  }

  /** The primal-dual gap at a checkpoint. */
  function GapOf(pb: Problem, s: State, pre: Pre, t: Trial): real
  {
    Abs(PrimalOf(pb, s, pre) - DualOf(pb, t))
  }

  /** The rest of pass i once tauNew is accepted, given its trial t and, for the
      checkpoint of every twentieth pass, the new primal energy and the gap. */
  function Check(s: State, pre: Pre, tauNew: real, t: Trial, primalNew: real, gap: real, pr: Params, i: int): Step
  {
    var next := State(pre.xNew, pre.c.vNew, t.y, t.kyk1, t.kyk2, pre.c.ax, tauNew, pre.c.betaLine,
                      Theta(pre.c, tauNew), s.primal, s.gapMin);
    if i % 20 != 0 then Next(next)
    else
      match Decide(i, s.primal, primalNew, gap, if i == 0 then gap else s.gapMin, pr)
      case PrimalStalled => Halt(Outcome(PrimalStop, pre.xNew, pre.c.vNew, t.y.r, t.y.z1, t.y.z2, t.y.z3, false))
      case Stagnated => Halt(Outcome(StagnationStop, s.x, s.v, t.y.r, t.y.z1, t.y.z2, t.y.z3, false))
      case GapStalled => Halt(Outcome(GapStop, pre.xNew, pre.c.vNew, t.y.r, t.y.z1, t.y.z2, t.y.z3, false))
      case Continue(p, g) => Next(next.(primal := p, gapMin := g))
  }

  /** Pass i of the loop. */
  function StepAt(pb: Problem, s: State, i: int, fuel: nat): Step
  {
    var pre := Prepare(pb, s);
    match Search(AcceptTest(pb, pre.c, pre.t0), 0, fuel)
    case None => Halt(Outcome(OutOfFuel, s.x, s.v, s.y.r, s.y.z1, s.y.z2, s.y.z3, false))
    case Some(k) =>
      var tauNew := Candidate(pre.t0, k);
      var t := TrialOf(pb, pre.c, tauNew);
      Check(s, pre, tauNew, t, PrimalOf(pb, s, pre), GapOf(pb, s, pre, t), pb.pr, i)
  }

  /** The passes i, i+1, ... < iters from state s. */
  function Run(pb: Problem, s: State, i: nat, iters: nat, fuel: nat): Outcome
    decreases iters - i
  {
    if iters <= i then Outcome(Finished, s.x, s.v, s.y.r, s.y.z1, s.y.z2, s.y.z3, 0 < pb.sz.NH1)
    else match StepAt(pb, s, i, fuel)
      case Next(s2) => Run(pb, s2, i + 1, iters, fuel)
      case Halt(o) => o
  }

  // ---------------------------------------------------------------- backtracking

  /** The search returns the first accepted candidate within its fuel, and reports
      none only when every candidate it tried was rejected. */
  lemma {:induction false} SearchFirst(acc: nat -> bool, k: nat, fuel: nat)
    ensures match Search(acc, k, fuel)
            case Some(j) => k <= j < k + fuel && acc(j) && forall m :: k <= m < j ==> !acc(m)
            case None => forall m :: k <= m < k + fuel ==> !acc(m)
    decreases fuel
  {
    if fuel > 0 && !acc(k) {
      SearchFirst(acc, k + 1, fuel - 1);
    }
  }

  // ---------------------------------------------------------------- step sizes

  /** Positive steps, a positive beta_line and a non-negative extrapolation weight. */
  predicate Good(s: State)
  {
    0.0 < s.tau && 0.0 < s.betaLine && 0.0 <= s.thetaLine
  }

  /** The first step is 1/sqrt(L): positive, and its square times L is 1. */
  lemma StartGood(pb: Problem, x: seq<C>, v: seq<C>, y: Duals, est: real)
    requires IsSqrt(pb.sqrt) && 0.0 <= est
    ensures Good(Start(pb, x, v, y, est))
    ensures Start(pb, x, v, y, est).tau * Start(pb, x, v, y, est).tau * Lipschitz(est) == 1.0
  {
    var l := Lipschitz(est);
    SqrtSquare(pb.sqrt, l);
    SqrtZero(pb.sqrt, l);
    var q := pb.sqrt(l);
    assert 0.0 < q;
    var t := Div(1.0, q);
    assert t * q == 1.0;
    assert t * t * l == (t * q) * (t * q);
  }

  /** What a pass that goes on carries forward from its accepted step. */
  lemma CheckNext(s: State, pre: Pre, tauNew: real, t: Trial, primalNew: real, gap: real, pr: Params, i: int)
    requires Check(s, pre, tauNew, t, primalNew, gap, pr, i).Next?
    ensures var s2 := Check(s, pre, tauNew, t, primalNew, gap, pr, i).s;
            s2.x == pre.xNew && s2.v == pre.c.vNew && s2.y == t.y && s2.kyk1 == t.kyk1 && s2.kyk2 == t.kyk2
            && s2.axold == pre.c.ax && s2.tau == tauNew && s2.betaLine == pre.c.betaLine
            && s2.thetaLine == Theta(pre.c, tauNew)
  {
  }

  /** The first trial step of a pass follows the step-size rule: beta grows to
      beta_line*(1 + tau/delta) and tau_0^2 = tau^2*(1 + theta)/(1 + tau/delta). */
  lemma PrepareStep(pb: Problem, s: State)
    requires IsSqrt(pb.sqrt) && 0.0 < pb.pr.delta && Good(s)
    ensures var pre := Prepare(pb, s);
            var mu := 1.0 / pb.pr.delta;
            s.betaLine < pre.c.betaLine && pre.c.tau == s.tau && 0.0 < pre.t0
            && pre.t0 * pre.t0 == s.tau * s.tau * ((1.0 + s.thetaLine) / (1.0 + mu * s.tau))
  {
    StepSizeRule(pb.sqrt, s.tau, s.betaLine, 1.0 / pb.pr.delta, s.thetaLine);
  }

  /** The accepted step tauNew after a first trial that grew beta_line gives a good
      state with theta_line = tauNew/tau. */
  lemma CheckGood(s: State, pre: Pre, tauNew: real, t: Trial, primalNew: real, gap: real, pr: Params, i: int)
    requires Check(s, pre, tauNew, t, primalNew, gap, pr, i).Next?
    requires 0.0 < tauNew && 0.0 < pre.c.tau && s.betaLine < pre.c.betaLine && 0.0 < s.betaLine
    ensures var s2 := Check(s, pre, tauNew, t, primalNew, gap, pr, i).s;
            Good(s2) && s.betaLine < s2.betaLine && s2.tau == tauNew && s2.thetaLine == Div(tauNew, pre.c.tau)
  {
    CheckNext(s, pre, tauNew, t, primalNew, gap, pr, i);
  }

  /** A pass that goes on keeps the steps positive, increases beta_line, and takes a
      step no longer than its first trial; the new theta_line is tau_new/tau. */
  lemma StepGood(pb: Problem, s: State, i: int, fuel: nat)
    requires IsSqrt(pb.sqrt) && 0.0 < pb.pr.delta && Good(s) && StepAt(pb, s, i, fuel).Next?
    ensures var s2 := StepAt(pb, s, i, fuel).s;
            Good(s2) && s.betaLine < s2.betaLine && s2.tau <= Prepare(pb, s).t0
            && s2.thetaLine == Div(s2.tau, s.tau)
  {
    var pre := Prepare(pb, s);
    var acc := AcceptTest(pb, pre.c, pre.t0);
    SearchFirst(acc, 0, fuel);
    var k := Search(acc, 0, fuel).value;
    var tauNew := Candidate(pre.t0, k);
    PrepareStep(pb, s);
    CandidateDecreasing(pre.t0, k);
    var t := TrialOf(pb, pre.c, tauNew);
    CheckGood(s, pre, tauNew, t, PrimalOf(pb, s, pre), GapOf(pb, s, pre, t), pb.pr, i);
  }

  // ---------------------------------------------------------------- checkpoints

  /** A pass ends the solve only at a checkpoint (i % 20 == 0), with the duals of its
      accepted trial and without writing z3: with x_new and v_new when the primal energy
      moved less than lambd*tol, with the x and v of the start of the pass when the gap
      grew past stag times its minimum, and with x_new and v_new when the gap moved less
      than lambd*tol; the last two only after pass 1. */
  lemma CheckHalt(s: State, pre: Pre, tauNew: real, t: Trial, primalNew: real, gap: real, pr: Params, i: int)
    requires Check(s, pre, tauNew, t, primalNew, gap, pr, i).Halt?
    ensures var o := Check(s, pre, tauNew, t, primalNew, gap, pr, i).o;
            i % 20 == 0 && o.r == t.y.r && o.z1 == t.y.z1 && o.z2 == t.y.z2 && o.z3 == t.y.z3 && !o.writesZ3
            && (o.exit == PrimalStop || o.exit == StagnationStop || o.exit == GapStop)
            && (o.exit == PrimalStop <==> Abs(s.primal - primalNew) < pr.lambd * pr.tol)
            && (o.exit == StagnationStop ==> 1 < i && o.x == s.x && o.v == s.v)
            && (o.exit != StagnationStop ==> o.x == pre.xNew && o.v == pre.c.vNew)
            && (o.exit == GapStop ==> 1 < i)
  {
  }

  /** A pass that goes on keeps primal and gap_min between checkpoints; at a checkpoint
      it records the new primal energy and lowers gap_min to at most the gap, and after
      the first checkpoint gap_min never increases. */
  lemma CheckContinue(s: State, pre: Pre, tauNew: real, t: Trial, primalNew: real, gap: real, pr: Params, i: int)
    requires Check(s, pre, tauNew, t, primalNew, gap, pr, i).Next?
    ensures var s2 := Check(s, pre, tauNew, t, primalNew, gap, pr, i).s;
            (i % 20 != 0 ==> s2.primal == s.primal && s2.gapMin == s.gapMin)
            && (i % 20 == 0 ==> s2.primal == primalNew && s2.gapMin <= gap
                                && pr.lambd * pr.tol <= Abs(s.primal - primalNew))
            && (i != 0 ==> s2.gapMin <= s.gapMin)
  {
  }

  // ---------------------------------------------------------------- the TGV balls

  /** z1 holds 2 and z2 holds 3 entries per TGV unknown and pixel. */
  predicate Shaped(sz: Sizes, y: Duals)
  {
    |y.z1| == sz.P * (2 * sz.NTGV) && |y.z2| == sz.P * (3 * sz.NTGV)
  }

  /** At every pixel z1 lies in the alpha ball and z2 in the beta ball. */
  predicate InBalls(sz: Sizes, alpha: real, beta: real, z1: seq<C>, z2: seq<C>)
  {
    forall p :: 0 <= p < sz.P ==>
      GroupNormSq(z1, sz.P, 2 * sz.NTGV, Z1Weight, p) <= alpha * alpha
      && GroupNormSq(z2, sz.P, 3 * sz.NTGV, Z2Weight, p) <= beta * beta
  }

  /** One pixel of a trial lies in both balls. */
  lemma TrialBallsAt(pb: Problem, c: Ctx, tauNew: real, p: int)
    requires IsSqrt(pb.sqrt) && ValidParams(pb.pr) && 0 < pb.sz.P && Shaped(pb.sz, c.y) && 0 <= p < pb.sz.P
    ensures GroupNormSq(TrialOf(pb, c, tauNew).y.z1, pb.sz.P, 2 * pb.sz.NTGV, Z1Weight, p) <= pb.pr.alpha * pb.pr.alpha
    ensures GroupNormSq(TrialOf(pb, c, tauNew).y.z2, pb.sz.P, 3 * pb.sz.NTGV, Z2Weight, p) <= pb.pr.beta * pb.pr.beta
  {
    TrialBalls(pb.sqrt, pb.sz, pb.pr.alpha, pb.pr.beta, c, tauNew, p);
  }

  /** Every trial keeps the shape of the duals and puts z1 and z2 in their balls. */
  lemma TrialInBalls(pb: Problem, c: Ctx, tauNew: real)
    requires IsSqrt(pb.sqrt) && ValidParams(pb.pr) && 0 < pb.sz.P && Shaped(pb.sz, c.y)
    ensures var t := TrialOf(pb, c, tauNew);
            Shaped(pb.sz, t.y) && InBalls(pb.sz, pb.pr.alpha, pb.pr.beta, t.y.z1, t.y.z2)
  {
    forall p | 0 <= p < pb.sz.P
      ensures GroupNormSq(TrialOf(pb, c, tauNew).y.z1, pb.sz.P, 2 * pb.sz.NTGV, Z1Weight, p) <= pb.pr.alpha * pb.pr.alpha
      ensures GroupNormSq(TrialOf(pb, c, tauNew).y.z2, pb.sz.P, 3 * pb.sz.NTGV, Z2Weight, p) <= pb.pr.beta * pb.pr.beta
    {
      TrialBallsAt(pb, c, tauNew, p);
    }
  }

  /** After any pass the duals have their shape, and every pass that goes on or ends
      at a checkpoint leaves z1 and z2 in their balls. */
  lemma StepBalls(pb: Problem, s: State, i: int, fuel: nat)
    requires IsSqrt(pb.sqrt) && ValidParams(pb.pr) && 0 < pb.sz.P && Shaped(pb.sz, s.y)
    ensures match StepAt(pb, s, i, fuel)
            case Next(s2) => Shaped(pb.sz, s2.y) && InBalls(pb.sz, pb.pr.alpha, pb.pr.beta, s2.y.z1, s2.y.z2)
            case Halt(o) => o.exit != OutOfFuel ==> InBalls(pb.sz, pb.pr.alpha, pb.pr.beta, o.z1, o.z2)
  {
    var pre := Prepare(pb, s);
    var acc := AcceptTest(pb, pre.c, pre.t0);
    if Search(acc, 0, fuel).Some? {
      var tauNew := Candidate(pre.t0, Search(acc, 0, fuel).value);
      var t := TrialOf(pb, pre.c, tauNew);
      TrialInBalls(pb, pre.c, tauNew);
      var primalNew, gap := PrimalOf(pb, s, pre), GapOf(pb, s, pre, t);
      if Check(s, pre, tauNew, t, primalNew, gap, pb.pr, i).Next? {
        CheckNext(s, pre, tauNew, t, primalNew, gap, pb.pr, i);
      } else {
        CheckHalt(s, pre, tauNew, t, primalNew, gap, pb.pr, i);
      }
    }
  }

  /** A solve that makes at least one pass and does not run out of fuel leaves z1 and
      z2 in their balls at every pixel. */
  lemma {:induction false} RunBalls(pb: Problem, s: State, i: nat, iters: nat, fuel: nat)
    requires IsSqrt(pb.sqrt) && ValidParams(pb.pr) && 0 < pb.sz.P && Shaped(pb.sz, s.y) && i < iters
    ensures var o := Run(pb, s, i, iters, fuel);
            o.exit != OutOfFuel ==> InBalls(pb.sz, pb.pr.alpha, pb.pr.beta, o.z1, o.z2)
    decreases iters - i
  {
    StepBalls(pb, s, i, fuel);
    match StepAt(pb, s, i, fuel)
    case Next(s2) =>
      if i + 1 < iters {
        RunBalls(pb, s2, i + 1, iters, fuel);
      }
    case Halt(o) =>
  }

  // ---------------------------------------------------------------- without H1 unknowns

  /** Without H1 unknowns the dual energy is 0, so the gap is the primal energy. */
  lemma GapWithoutH1(pb: Problem, s: State, pre: Pre, t: Trial)
    requires IsSqrt(pb.sqrt) && ValidParams(pb.pr) && pb.sz.NH1 == 0
    ensures GapOf(pb, s, pre, t) == PrimalOf(pb, s, pre)
  {
    PrimalNonneg(pb.sqrt, pb.sz, pb.pr, pre.c.ax, pb.res, pre.c.gradx, s.v, pre.c.symgradV, pre.xNew, pb.xk);
  }

  /** Without H1 unknowns no pass changes z3. */
  lemma StepKeepsZ3(pb: Problem, s: State, i: int, fuel: nat)
    requires pb.sz.NH1 == 0
    ensures match StepAt(pb, s, i, fuel)
            case Next(s2) => s2.y.z3 == s.y.z3
            case Halt(o) => o.z3 == s.y.z3 && !o.writesZ3
  {
    var pre := Prepare(pb, s);
    var acc := AcceptTest(pb, pre.c, pre.t0);
    if Search(acc, 0, fuel).Some? {
      var tauNew := Candidate(pre.t0, Search(acc, 0, fuel).value);
      var t := TrialOf(pb, pre.c, tauNew);
      assert t.y.z3 == Z3Trial(pb.sz, pb.pr, pre.c, tauNew) == s.y.z3;
      var primalNew, gap := PrimalOf(pb, s, pre), GapOf(pb, s, pre, t);
      if Check(s, pre, tauNew, t, primalNew, gap, pb.pr, i).Next? {
        CheckNext(s, pre, tauNew, t, primalNew, gap, pb.pr, i);
      } else {
        CheckHalt(s, pre, tauNew, t, primalNew, gap, pb.pr, i);
      }
    }
  }

  /** Without H1 unknowns a solve never writes z3 back, and the z3 it carries is the one
      it started with; with H1 unknowns a solve that runs to the end writes it back. */
  lemma {:induction false} RunZ3(pb: Problem, s: State, i: nat, iters: nat, fuel: nat)
    ensures var o := Run(pb, s, i, iters, fuel);
            (pb.sz.NH1 == 0 ==> !o.writesZ3 && o.z3 == s.y.z3)
            && (0 < pb.sz.NH1 && o.exit == Finished ==> o.writesZ3)
    decreases iters - i
  {
    if i < iters {
      if pb.sz.NH1 == 0 {
        StepKeepsZ3(pb, s, i, fuel);
      }
      match StepAt(pb, s, i, fuel)
      case Next(s2) =>
        RunZ3(pb, s2, i + 1, iters, fuel);
      case Halt(o) =>
        StepHaltKeepsZ3(pb, s, i, fuel);
    }
  }

  /** A pass that ends the solve never writes z3 back. */
  lemma StepHaltKeepsZ3(pb: Problem, s: State, i: int, fuel: nat)
    ensures StepAt(pb, s, i, fuel).Halt? ==>
              !StepAt(pb, s, i, fuel).o.writesZ3 && StepAt(pb, s, i, fuel).o.exit != Finished
  {
    var pre := Prepare(pb, s);
    var acc := AcceptTest(pb, pre.c, pre.t0);
    if Search(acc, 0, fuel).Some? {
      var tauNew := Candidate(pre.t0, Search(acc, 0, fuel).value);
      var t := TrialOf(pb, pre.c, tauNew);
      var primalNew, gap := PrimalOf(pb, s, pre), GapOf(pb, s, pre, t);
      if Check(s, pre, tauNew, t, primalNew, gap, pb.pr, i).Halt? {
        CheckHalt(s, pre, tauNew, t, primalNew, gap, pb.pr, i);
      }
    }
  }

  /** Every pass that goes on records, at a checkpoint, the new primal energy, which is
      never negative; after pass 0 gap_min never increases. */
  lemma StepGapMin(pb: Problem, s: State, i: int, fuel: nat)
    requires IsSqrt(pb.sqrt) && ValidParams(pb.pr) && StepAt(pb, s, i, fuel).Next?
    ensures var s2 := StepAt(pb, s, i, fuel).s;
            (i != 0 ==> s2.gapMin <= s.gapMin)
            && (i % 20 == 0 ==> s2.primal == PrimalOf(pb, s, Prepare(pb, s)) && 0.0 <= s2.primal)
            && (i % 20 != 0 ==> s2.primal == s.primal && s2.gapMin == s.gapMin)
  {
    var pre := Prepare(pb, s);
    var acc := AcceptTest(pb, pre.c, pre.t0);
    var tauNew := Candidate(pre.t0, Search(acc, 0, fuel).value);
    var t := TrialOf(pb, pre.c, tauNew);
    CheckContinue(s, pre, tauNew, t, PrimalOf(pb, s, pre), GapOf(pb, s, pre, t), pb.pr, i);
    PrimalNonneg(pb.sqrt, pb.sz, pb.pr, pre.c.ax, pb.res, pre.c.gradx, s.v, pre.c.symgradV, pre.xNew, pb.xk);
  }

  // ---------------------------------------------------------------- the solver

  /** A candidate that fails the test is skipped at the cost of one trial. */
  lemma SearchSkip(acc: nat -> bool, k: nat, fuel: nat)
    requires 0 < fuel && !acc(k)
    ensures Search(acc, k, fuel) == Search(acc, k + 1, fuel - 1)
  {
  }

  /** The backtracking loop: halve the step from t0 until the trial tr of the step
      passes the test, trying at most fuel steps. */
  method Backtrack(tr: real -> Trial, t0: real, fuel: nat) returns (tauNew: real, t: Trial, ok: bool)
    ensures ok <==> Search(AcceptBy(tr, t0), 0, fuel).Some?
    ensures ok ==> tauNew == Candidate(t0, Search(AcceptBy(tr, t0), 0, fuel).value)
                   && t == tr(tauNew) && Accepts(t)
  {
    ghost var acc := AcceptBy(tr, t0);
    tauNew, ok := t0, false;
    t := tr(t0);
    var k: nat := 0;
    while k < fuel
      invariant k <= fuel && tauNew == Candidate(t0, k)
      invariant Search(acc, 0, fuel) == Search(acc, k, fuel - k)
    {
      t := tr(tauNew);
      if Accepts(t) {
        assert acc(k);
        ok := true;
        return;
      }
      SearchSkip(acc, k, fuel - k);
      tauNew := tauNew * MuLine;
      k := k + 1;
    }
  }

  /** The duals `tgv_solve_2D` keeps between Gauss-Newton steps. */
  class TgvSolver {
    var v: seq<C>
    var r: seq<C>
    var z1: seq<C>
    var z2: seq<C>
    var z3: seq<C>

    constructor (v0: seq<C>, r0: seq<C>, z10: seq<C>, z20: seq<C>, z30: seq<C>)
      ensures v == v0 && r == r0 && z1 == z10 && z2 == z20 && z3 == z30
    {
      v, r, z1, z2, z3 := v0, r0, z10, z20, z30;
    }

    /** The per-slice reset of the driver: every dual set to the given zero buffers. */
    method Reset(v0: seq<C>, r0: seq<C>, z10: seq<C>, z20: seq<C>, z30: seq<C>)
      modifies this
      ensures v == v0 && r == r0 && z1 == z10 && z2 == z20 && z3 == z30
    {
      v, r, z1, z2, z3 := v0, r0, z10, z20, z30;
    }

    /** `tgv_solve_2D(x0, res, iters)`: the loop from x0 and the stored duals, with the
        operator-norm estimate est; returns the iterate the loop returns and how it
        ended, and writes back the duals the exit path persists. */
    method Solve(ops: Ops, sqrt: real -> real, sz: Sizes, pr: Params, x0: seq<C>, res: seq<C>, est: real,
                 iters: nat, fuel: nat) returns (x: seq<C>, exit: Exit)
      modifies this
      ensures var pb := Problem(ops, sqrt, sz, pr, x0, res);
              var o := Run(pb, Start(pb, x0, old(v), Duals(old(r), old(z1), old(z2), old(z3)), est), 0, iters, fuel);
              exit == o.exit && x == o.x
              && (if o.exit == OutOfFuel then v == old(v) && r == old(r) && z1 == old(z1) && z2 == old(z2)
                  else v == o.v && r == o.r && z1 == o.z1 && z2 == o.z2)
              && z3 == (if o.writesZ3 then o.z3 else old(z3))
    {
      var pb := Problem(ops, sqrt, sz, pr, x0, res);
      var o := Loop(pb, Start(pb, x0, v, Duals(r, z1, z2, z3), est), iters, fuel);
      Persist(o);
      x, exit := o.x, o.exit;
    }

    /** The write-back of the duals on the way out of the solve: every exit but running
        out of fuel stores v, r, z1 and z2; z3 is stored only when the outcome says so. */
    method Persist(o: Outcome)
      modifies this
      ensures if o.exit == OutOfFuel then v == old(v) && r == old(r) && z1 == old(z1) && z2 == old(z2)
              else v == o.v && r == o.r && z1 == o.z1 && z2 == o.z2
      ensures z3 == (if o.writesZ3 then o.z3 else old(z3))
    {
      if o.exit != OutOfFuel {
        v, r, z1, z2 := o.v, o.r, o.z1, o.z2;
      }
      if o.writesZ3 {
        z3 := o.z3;
      }
    }
  }

  /** The iteration loop of `tgv_solve_2D` from state s0: pass after pass until a
      stopping test fires or iters passes are done. */
  method Loop(pb: Problem, s0: State, iters: nat, fuel: nat) returns (o: Outcome)
    ensures o == Run(pb, s0, 0, iters, fuel)
  {
    var st := s0;
    var i := 0;
    while i < iters
      invariant 0 <= i <= iters
      invariant Run(pb, s0, 0, iters, fuel) == Run(pb, st, i, iters, fuel)
    {
      var step := Pass(pb, st, i, fuel);
      match step
      case Halt(h) =>
        return h;
      case Next(s2) =>
        st := s2;
      i := i + 1;
    }
    o := Outcome(Finished, st.x, st.v, st.y.r, st.y.z1, st.y.z2, st.y.z3, 0 < pb.sz.NH1);
  }

  /** One pass of the loop of `tgv_solve_2D`, from the extrapolation to the checkpoint:
      the state of the next pass, or how the solve ends. */
  method Pass(pb: Problem, s: State, i: int, fuel: nat) returns (step: Step)
    ensures step == StepAt(pb, s, i, fuel)
  {
    var xNew, t0, c := Extrapolate(pb, s);
    var pre := Pre(xNew, t0, c);
    var tauNew, t, ok := Backtrack(TrialFn(pb, c), t0, fuel);
    if !ok {
      StepNotFound(pb, s, i, fuel, pre);
      return Halt(Outcome(OutOfFuel, s.x, s.v, s.y.r, s.y.z1, s.y.z2, s.y.z3, false));
    }
    StepFound(pb, s, i, fuel, pre, tauNew, t);
    var primalNew, gap := 0.0, 0.0;
    if i % 20 == 0 {
      primalNew, gap := Energies(pb, s, pre, t);
    } else {
      CheckOffCheckpoint(s, pre, tauNew, t, primalNew, gap, PrimalOf(pb, s, pre), GapOf(pb, s, pre, t), pb.pr, i);
    }
    step := Checkpoint(s, pre, tauNew, t, primalNew, gap, pb.pr, i);
  }

  /** Off the checkpoints a pass does not look at the energies. */
  lemma CheckOffCheckpoint(s: State, pre: Pre, tauNew: real, t: Trial, p1: real, g1: real, p2: real, g2: real,
                           pr: Params, i: int)
    requires i % 20 != 0
    ensures Check(s, pre, tauNew, t, p1, g1, pr, i) == Check(s, pre, tauNew, t, p2, g2, pr, i)
  {
  }

  /** The tail of a pass once tauNew is accepted with trial t: the new iterate, and at
      every twentieth pass the three stopping tests on the energies it was given. */
  method Checkpoint(s: State, pre: Pre, tauNew: real, t: Trial, primalNew: real, gap: real, pr: Params, i: int)
    returns (step: Step)
    ensures step == Check(s, pre, tauNew, t, primalNew, gap, pr, i)
  {
    var c := pre.c;
    var next := State(pre.xNew, c.vNew, t.y, t.kyk1, t.kyk2, c.ax, tauNew, c.betaLine, Theta(c, tauNew),
                      s.primal, s.gapMin);
    if i % 20 == 0 {
      var gapMin := if i == 0 then gap else s.gapMin;
      ghost var d := Decide(i, s.primal, primalNew, gap, gapMin, pr);
      if Abs(s.primal - primalNew) < pr.lambd * pr.tol {
        assert d == PrimalStalled;
        return Halt(Outcome(PrimalStop, pre.xNew, c.vNew, t.y.r, t.y.z1, t.y.z2, t.y.z3, false));
      }
      if gap > gapMin * pr.stag && i > 1 {
        assert d == Stagnated;
        return Halt(Outcome(StagnationStop, s.x, s.v, t.y.r, t.y.z1, t.y.z2, t.y.z3, false));
      }
      if Abs(gap - gapMin) < pr.lambd * pr.tol && i > 1 {
        assert d == GapStalled;
        return Halt(Outcome(GapStop, pre.xNew, c.vNew, t.y.r, t.y.z1, t.y.z2, t.y.z3, false));
      }
      assert d == Continue(primalNew, Min(gap, gapMin));
      next := next.(primal := primalNew, gapMin := Min(gap, gapMin));
    }
    step := Next(next);
  }

  /** The extrapolation at the head of a pass: the primal and v updates, the new
      beta, the first trial step and the quantities the trials share. */
  method Extrapolate(pb: Problem, s: State) returns (xNew: seq<C>, t0: real, c: Ctx)
    ensures Pre(xNew, t0, c) == Prepare(pb, s)
  {
    xNew := PrimalUpdate(pb.sz, s.x, s.kyk1, pb.xk, s.tau, pb.pr.delta, pb.pr.omega, pb.pr.fa);
    var vNew := VLin(1.0, s.v, -s.tau, s.kyk2);
    var betaNew := NextBeta(s.betaLine, Div(1.0, pb.pr.delta), s.tau);
    t0 := NextTau(pb.sqrt, s.tau, s.betaLine, betaNew, s.thetaLine);
    var gradx := pb.ops.grad1(xNew);
    var symgradV := pb.ops.symgrad2(vNew);
    var ax := pb.ops.A(xNew);
    c := Ctx(s.tau, betaNew, s.y, s.kyk1, s.kyk2, gradx, VSub(gradx, pb.ops.grad1(s.x)), vNew, VSub(vNew, s.v),
             symgradV, VSub(symgradV, pb.ops.symgrad2(s.v)), ax, VSub(ax, s.axold), pb.res);
  }

  /** The energies of a checkpoint: the primal energy and the gap to the dual energy,
      which stays zero without H1 unknowns. */
  method Energies(pb: Problem, s: State, pre: Pre, t: Trial) returns (primalNew: real, gap: real)
    ensures primalNew == PrimalOf(pb, s, pre) && gap == GapOf(pb, s, pre, t)
  {
    primalNew := PrimalEnergy(pb.sqrt, pb.sz, pb.pr, pre.c.ax, pb.res, pre.c.gradx, s.v, pre.c.symgradV,
                              pre.xNew, pb.xk);
    var dual := 0.0;
    if 0 < pb.sz.NH1 {
      dual := DualEnergy(pb.pr, t.kyk1, t.kyk2, pb.xk, t.y.r, pb.res, t.y.z3);
    }
    gap := Abs(primalNew - dual);
  }

  /** Pass i once the backtracking loop has accepted the step tauNew with trial t. */
  lemma StepFound(pb: Problem, s: State, i: int, fuel: nat, pre: Pre, tauNew: real, t: Trial)
    requires pre == Prepare(pb, s)
    requires Search(AcceptBy(TrialFn(pb, pre.c), pre.t0), 0, fuel).Some?
    requires tauNew == Candidate(pre.t0, Search(AcceptBy(TrialFn(pb, pre.c), pre.t0), 0, fuel).value)
    requires t == TrialFn(pb, pre.c)(tauNew)
    ensures StepAt(pb, s, i, fuel) == Check(s, pre, tauNew, t, PrimalOf(pb, s, pre), GapOf(pb, s, pre, t), pb.pr, i)
  {
  }

  /** Pass i when the backtracking loop runs out of fuel. */
  lemma StepNotFound(pb: Problem, s: State, i: int, fuel: nat, pre: Pre)
    requires pre == Prepare(pb, s)
    requires Search(AcceptBy(TrialFn(pb, pre.c), pre.t0), 0, fuel).None?
    ensures StepAt(pb, s, i, fuel) == Halt(Outcome(OutOfFuel, s.x, s.v, s.y.r, s.y.z1, s.y.z2, s.y.z3, false))
  {
  }

  /** Without H1 unknowns a trial leaves z3 as it was. */
  lemma TrialZ3Kept(pb: Problem, c: Ctx, tauNew: real)
    requires pb.sz.NH1 == 0
    ensures TrialOf(pb, c, tauNew).y.z3 == c.y.z3
  {
    assert TrialOf(pb, c, tauNew).y == TrialDuals(pb.sqrt, pb.sz, pb.pr, c, tauNew);
  }
}
