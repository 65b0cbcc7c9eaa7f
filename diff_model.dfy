/** The two-unknown diffusion model (M0, ADC) of Diff_model.py and the `constraint`
    class every signal model hands to the reconstruction: a pair of float bounds and a
    real-valued flag, rescaled in place by `update`. The model's constraint table, its
    `rescale` and the algebra of its 3-D forward model and Jacobian follow, with `exp`
    a function parameter. */
module DiffModel {
  import opened Complex

  /** A float64 bound: a finite value, an infinity, or not-a-number. */
  datatype Ext = Fin(v: real) | PosInf | NegInf | NaN

  /** a <= b as IEEE comparison answers it: false as soon as one side is NaN. */
  predicate Le(a: Ext, b: Ext)
  {
    match (a, b)
    case (NaN, _) => false
    case (_, NaN) => false
    case (NegInf, _) => true
    case (_, PosInf) => true
    case (Fin(x), Fin(y)) => x <= y
    case _ => false
  }

  /** a / s for a finite divisor s, as IEEE division computes it; a zero divisor is
      taken as +0. */
  function DivBy(a: Ext, s: real): (r: Ext)
    ensures a.NaN? ==> r.NaN?
    ensures s != 0.0 ==> (r.Fin? <==> a.Fin?)
    ensures 0.0 < s && a.Fin? ==> r == Fin(a.v / s)
    ensures 0.0 < s && !a.Fin? ==> r == a
  {
    match a
    case Fin(x) =>
      if s != 0.0 then Fin(x / s)
      else if 0.0 < x then PosInf
      else if x < 0.0 then NegInf
      else NaN
    case PosInf => if s < 0.0 then NegInf else PosInf
    case NegInf => if s < 0.0 then PosInf else NegInf
    case NaN => NaN
  }

  /** x / s <= y / s for a positive divisor. */
  lemma DivMono(x: real, y: real, s: real)
    requires 0.0 < s && x <= y
    ensures x / s <= y / s
  {
    assert y / s - x / s == (y - x) / s;
  }

  /** Dividing both bounds by a positive scale keeps them in order. */
  lemma {:induction false} DivByMonotone(a: Ext, b: Ext, s: real)
    requires 0.0 < s && Le(a, b)
    ensures Le(DivBy(a, s), DivBy(b, s))
  {
    if a.Fin? && b.Fin? {
      DivMono(a.v, b.v, s);
    }
  }

  /** Dividing both bounds by a negative scale swaps their order. */
  lemma {:induction false} DivByReverses(a: Ext, b: Ext, s: real)
    requires s < 0.0 && Le(a, b)
    ensures Le(DivBy(b, s), DivBy(a, s))
  {
    if a.Fin? && b.Fin? {
      DivMono(a.v, b.v, -s);
      assert b.v / s == -(b.v / -s) && a.v / s == -(a.v / -s);
    }
  }

  /** Dividing by s and then by 1/s gives the bound back, for any non-zero s. */
  lemma DivByUndo(a: Ext, s: real)
    requires s != 0.0
    ensures DivBy(DivBy(a, s), 1.0 / s) == a
  {
    if a.Fin? {
      assert a.v / s / (1.0 / s) == a.v;
    }
  }

  /** What a constraint holds, as a value. */
  datatype Bound = Bound(min: Ext, max: Ext, isReal: bool)

  /** Both bounds divided by scale, the flag kept. */
  function Rescaled(b: Bound, scale: real): (r: Bound)
    ensures r.isReal == b.isReal
  {
    Bound(DivBy(b.min, scale), DivBy(b.max, scale), b.isReal)
  }

  /** A positive scale keeps an ordered pair of bounds ordered, and rescaling by
      1/scale afterwards restores the constraint. */
  lemma RescaledOrder(b: Bound, scale: real)
    requires 0.0 < scale
    ensures Le(b.min, b.max) ==> Le(Rescaled(b, scale).min, Rescaled(b, scale).max)
    ensures Rescaled(Rescaled(b, scale), 1.0 / scale) == b
  {
    if Le(b.min, b.max) {
      DivByMonotone(b.min, b.max, scale);
    }
    DivByUndo(b.min, scale);
    DivByUndo(b.max, scale);
  }

  /** The `constraint` class: lower and upper bound of one unknown and whether the
      unknown is real-valued. */
  class Constraint {
    var min: Ext
    var max: Ext
    var isReal: bool

    /** A constraint with no arguments is unbounded on both sides and complex. */
    constructor (minVal: Ext := NegInf, maxVal: Ext := PosInf, realConst: bool := false)
      ensures min == minVal && max == maxVal && isReal == realConst
    {
      min := minVal;
      max := maxVal;
      isReal := realConst;
    }

    function View(): Bound
      reads this
    {
      Bound(min, max, isReal)
    }

    /** Both bounds are divided by scale in place. */
    method Update(scale: real)
      modifies this
      ensures View() == Rescaled(old(View()), scale)
    {
      min := DivBy(min, scale);
      max := DivBy(max, scale);
    }
  }

  /** A constraint built without arguments. */
  method Unbounded() returns (c: Constraint)
    ensures fresh(c) && c.min == NegInf && c.max == PosInf && !c.isReal
  {
    c := new Constraint();
  }

  /** Every value, and every bound short of NaN, lies within the unbounded constraint,
      and no positive rescaling bounds it. */
  lemma UnboundedStays(b: Ext, s: real)
    requires 0.0 < s && !b.NaN?
    ensures Le(NegInf, b) && Le(b, PosInf)
    ensures Rescaled(Bound(NegInf, PosInf, false), s) == Bound(NegInf, PosInf, false)
  {
  }

  /** The bounds held by a list of constraints, in order. */
  function Views(cs: seq<Constraint>): (r: seq<Bound>)
    reads cs
    ensures |r| == |cs|
    ensures forall j :: 0 <= j < |cs| ==> r[j] == cs[j].View()
  {
    seq(|cs|, j reads cs requires 0 <= j < |cs| => cs[j].View())
  }

  /** Distinct constraint objects, so that updating one leaves the others. */
  ghost predicate Distinct(cs: seq<Constraint>)
  {
    forall a, b :: 0 <= a < b < |cs| ==> cs[a] != cs[b]
  }

  /** One fresh constraint per row of a table, appended in order. */
  method Build(bs: seq<Bound>) returns (cs: seq<Constraint>)
    ensures Views(cs) == bs && Distinct(cs)
    ensures forall c :: c in cs ==> fresh(c)
  {
    cs := [];
    var j := 0;
    while j < |bs|
      invariant 0 <= j <= |bs| && |cs| == j
      invariant forall i :: 0 <= i < j ==> cs[i].View() == bs[i]
      invariant Distinct(cs)
      invariant forall c :: c in cs ==> fresh(c)
    {
      var c := new Constraint(bs[j].min, bs[j].max, bs[j].isReal);
      cs := cs + [c];
      j := j + 1;
    }
  }

  /** A finite bound num / uk, as the model writes its table entries. */
  function Frac(num: real, uk: real): Ext
  {
    DivBy(Fin(num), uk)
  }

  /** The model's table: M0 in [-1/uk0, 1/uk0], complex, then ADC in
      [5e-4/uk1, 1/uk1], real-valued. */
  function Table(uk0: real, uk1: real): (r: seq<Bound>)
    ensures |r| == 2 && !r[0].isReal && r[1].isReal
  {
    [Bound(Frac(-1.0, uk0), Frac(1.0, uk0), false), Bound(Frac(5e-4, uk1), Frac(1.0, uk1), true)]
  }

  /** With positive scales both entries are finite intervals in order, the first one
      symmetric about zero. */
  lemma TableOrdered(uk0: real, uk1: real)
    requires 0.0 < uk0 && 0.0 < uk1
    ensures forall j :: 0 <= j < 2 ==> Table(uk0, uk1)[j].min.Fin? && Table(uk0, uk1)[j].max.Fin?
    ensures forall j :: 0 <= j < 2 ==> Le(Table(uk0, uk1)[j].min, Table(uk0, uk1)[j].max)
    ensures Table(uk0, uk1)[0].min.v == -Table(uk0, uk1)[0].max.v
  {
    DivMono(-1.0, 1.0, uk0);
    DivMono(5e-4, 1.0, uk1);
  }

  /** The last step of the model's constructor: its constraint list. */
  method MakeConstraints(uk0: real, uk1: real) returns (cs: seq<Constraint>)
    ensures Views(cs) == Table(uk0, uk1) && Distinct(cs)
    ensures forall c :: c in cs ==> fresh(c)
  {
    cs := Build(Table(uk0, uk1));
  }

  /** An image multiplied by a real scale, sample by sample. */
  function ScaleImage(t: real, img: seq<C>): (r: seq<C>)
    ensures |r| == |img|
    ensures forall p :: 0 <= p < |img| ==> r[p] == Scale(t, img[p])
  {
    seq(|img|, p requires 0 <= p < |img| => Scale(t, img[p]))
  }

  /** Scaling by t and then by 1/t gives the image back. */
  lemma ScaleImageUndo(t: real, img: seq<C>)
    requires t != 0.0
    ensures ScaleImage(1.0 / t, ScaleImage(t, img)) == img
  {
    forall p | 0 <= p < |img|
      ensures ScaleImage(1.0 / t, ScaleImage(t, img))[p] == img[p]
    {
      assert (1.0 / t) * (t * img[p].re) == img[p].re;
      assert (1.0 / t) * (t * img[p].im) == img[p].im;
    }
  }

  /** `rescale`: M0 and ADC in physical units. */
  function Rescale(x: seq<seq<C>>, uk: seq<real>): (r: seq<seq<C>>)
    requires 2 <= |x| && 2 <= |uk|
    ensures |r| == 2
    ensures forall u :: 0 <= u < 2 ==> |r[u]| == |x[u]|
    ensures forall u, p :: 0 <= u < 2 && 0 <= p < |x[u]| ==> r[u][p] == Scale(uk[u], x[u][p])
  {
    [ScaleImage(uk[0], x[0]), ScaleImage(uk[1], x[1])]
  }

  /** Rescaling with the reciprocal scales undoes a rescale of the two unknowns. */
  lemma RescaleUndo(x: seq<seq<C>>, uk: seq<real>)
    requires |x| == 2 && |uk| == 2 && uk[0] != 0.0 && uk[1] != 0.0
    ensures Rescale(Rescale(x, uk), [1.0 / uk[0], 1.0 / uk[1]]) == x
  {
    ScaleImageUndo(uk[0], x[0]);
    ScaleImageUndo(uk[1], x[1]);
  }

  /** The exponent -TE * (adc * uk1) of the mono-exponential decay. */
  function Decay(te: real, uk1: real, adc: C): C
  {
    Scale(-te, Scale(uk1, adc))
  }

  /** One sample of `execute_forward_3D`: x0 * uk0 * exp(-TE * (x1 * uk1)). */
  function Signal(exp: C -> C, te: real, uk0: real, uk1: real, m0: C, adc: C): C
  {
    Mul(Scale(uk0, m0), exp(Decay(te, uk1, adc)))
  }

  /** The M0 entry of `execute_gradient_3D`: exp(-TE * (x1 * uk1)) * uk0. */
  function GradM0(exp: C -> C, te: real, uk0: real, uk1: real, adc: C): C
  {
    Scale(uk0, exp(Decay(te, uk1, adc)))
  }

  /** The ADC entry: -x0 * TE * uk1 * exp(-TE * (x1 * uk1)) * uk0. */
  function GradAdc(exp: C -> C, te: real, uk0: real, uk1: real, m0: C, adc: C): C
  {
    Scale(uk0, Mul(Scale(uk1, Scale(te, Neg(m0))), exp(Decay(te, uk1, adc))))
  }

  /** The decay rate -TE * uk1 of the signal in the scaled ADC unknown. */
  function Rate(te: real, uk1: real): real
  {
    -(te * uk1)
  }

  /** uk0 * (uk1 * -TE) is the rate times uk0. */
  lemma RateProduct(te: real, uk0: real, uk1: real, l: real, k: real, d: real, p1: real, p2: real)
    requires l == -te && k == uk1 * l && d == Rate(te, uk1) && p1 == uk0 * k && p2 == d * uk0
    ensures p1 == p2
  {
  }

  /** Equal real factors give equal multiples. */
  lemma ScaleEq(k: real, l: real, a: C)
    requires k == l
    ensures Scale(k, a) == Scale(l, a)
  {
  }

  /** The signal is x0 times its M0 derivative, so it is linear in x0 with that
      derivative; the ADC derivative is -TE * uk1 times the signal, the chain rule for
      exp(-TE * uk1 * x1). */
  lemma SignalFactors(exp: C -> C, te: real, uk0: real, uk1: real, m0: C, adc: C, h: C)
    ensures Signal(exp, te, uk0, uk1, m0, adc) == Mul(m0, GradM0(exp, te, uk0, uk1, adc))
    ensures Sub(Signal(exp, te, uk0, uk1, Add(m0, h), adc), Signal(exp, te, uk0, uk1, m0, adc))
            == Mul(h, GradM0(exp, te, uk0, uk1, adc))
    ensures GradAdc(exp, te, uk0, uk1, m0, adc) == Scale(Rate(te, uk1), Signal(exp, te, uk0, uk1, m0, adc))
  {
    var e := exp(Decay(te, uk1, adc));
    ScaleMul(uk0, m0, e);
    ScaleMul(uk0, Add(m0, h), e);
    ScaleMul(uk0, h, e);
    MulAddLeft(Scale(uk0, m0), Scale(uk0, h), e);
    ScaleAdd(uk0, m0, h);
    var l := -te;
    var k := uk1 * l;
    var d := Rate(te, uk1);
    ScaleNeg(te, m0);
    ScaleScale(uk1, l, m0);
    ScaleMul(k, m0, e);
    ScaleScale(uk0, k, Mul(m0, e));
    ScaleScale(d, uk0, Mul(m0, e));
    var p1 := uk0 * k;
    var p2 := d * uk0;
    RateProduct(te, uk0, uk1, l, k, d, p1, p2);
    ScaleEq(p1, p2, Mul(m0, e));
  }

  /** `execute_forward_3D` over images: one image per scan, TE broadcast over the
      pixels of both unknowns. */
  function Forward3D(exp: C -> C, te: seq<real>, uk: seq<real>, x: seq<seq<C>>): (r: seq<seq<C>>)
    requires 2 <= |x| && 2 <= |uk| && |x[0]| == |x[1]|
    ensures |r| == |te|
    ensures forall s :: 0 <= s < |te| ==> |r[s]| == |x[0]|
  {
    seq(|te|, s requires 0 <= s < |te| =>
      seq(|x[0]|, p requires 0 <= p < |x[0]| => Signal(exp, te[s], uk[0], uk[1], x[0][p], x[1][p])))
  }

  /** `execute_gradient_3D` over images: the M0 and the ADC derivative, one image per
      scan each. */
  function Gradient3D(exp: C -> C, te: seq<real>, uk: seq<real>, x: seq<seq<C>>): (r: seq<seq<seq<C>>>)
    requires 2 <= |x| && 2 <= |uk| && |x[0]| == |x[1]|
    ensures |r| == 2 && |r[0]| == |te| && |r[1]| == |te|
    ensures forall u, s :: 0 <= u < 2 && 0 <= s < |te| ==> |r[u][s]| == |x[0]|
  {
    [seq(|te|, s requires 0 <= s < |te| =>
       seq(|x[0]|, p requires 0 <= p < |x[0]| => GradM0(exp, te[s], uk[0], uk[1], x[1][p]))),
     seq(|te|, s requires 0 <= s < |te| =>
       seq(|x[0]|, p requires 0 <= p < |x[0]| => GradAdc(exp, te[s], uk[0], uk[1], x[0][p], x[1][p])))]
  }

  /** Sample by sample, the forward model is x0 times the M0 image of the Jacobian and
      the ADC image is -TE * uk1 times the forward model. */
  lemma ForwardMatchesGradient(exp: C -> C, te: seq<real>, uk: seq<real>, x: seq<seq<C>>)
    requires 2 <= |x| && 2 <= |uk| && |x[0]| == |x[1]|
    ensures forall s, p :: 0 <= s < |te| && 0 <= p < |x[0]| ==>
      Forward3D(exp, te, uk, x)[s][p] == Mul(x[0][p], Gradient3D(exp, te, uk, x)[0][s][p])
    ensures forall s, p :: 0 <= s < |te| && 0 <= p < |x[0]| ==>
      Gradient3D(exp, te, uk, x)[1][s][p] == Scale(Rate(te[s], uk[1]), Forward3D(exp, te, uk, x)[s][p])
  {
    forall s, p | 0 <= s < |te| && 0 <= p < |x[0]|
      ensures Forward3D(exp, te, uk, x)[s][p] == Mul(x[0][p], Gradient3D(exp, te, uk, x)[0][s][p])
      ensures Gradient3D(exp, te, uk, x)[1][s][p] == Scale(Rate(te[s], uk[1]), Forward3D(exp, te, uk, x)[s][p])
    {
      SignalFactors(exp, te[s], uk[0], uk[1], x[0][p], x[1][p], Zero);
    }
  }
}
