/** The IVIM signal model of pyqmri/models/Ivim.py: four TGV unknowns (M0, ADC, the
    perfusion fraction f and the pseudo-diffusion coefficient ADC_ivim), b-values per
    scan, and a bi-exponential signal with `exp` a function parameter. */
module Ivim {
  import opened Complex
  import opened DiffModel

  const One := C(1.0, 0.0)

  /** The largest entry of a non-empty list (np.max). */
  function MaxOf(s: seq<real>): (r: real)
    requires 0 < |s|
    ensures exists i :: 0 <= i < |s| && s[i] == r
    ensures forall i :: 0 <= i < |s| ==> s[i] <= r
  {
    if |s| == 1 then s[0]
    else if s[|s| - 1] >= MaxOf(s[..|s| - 1]) then s[|s| - 1]
    else MaxOf(s[..|s| - 1])
  }

  /** Every b-value divided by 1000. */
  function PerThousand(s: seq<real>): (r: seq<real>)
    ensures |r| == |s|
    ensures forall i :: 0 <= i < |s| ==> r[i] == s[i] / 1000.0
  {
    seq(|s|, i requires 0 <= i < |s| => s[i] / 1000.0)
  }

  /** b-values given in s/mm^2 (largest above 100) are converted to ms/um^2 by
      dividing by 1000; smaller ones are kept. */
  function NormaliseB(s: seq<real>): seq<real>
    requires 0 < |s|
  {
    if MaxOf(s) > 100.0 then PerThousand(s) else s
  }

  /** The conversion keeps the number and the order of the b-values, divides the
      largest one by 1000 exactly when it is above 100, and brings any list whose
      largest value lies in (100, 100000] to at most 100. */
  lemma {:induction false} NormaliseBFacts(s: seq<real>)
    requires 0 < |s|
    ensures |NormaliseB(s)| == |s|
    ensures forall i, j :: 0 <= i < |s| && 0 <= j < |s| ==> (s[i] <= s[j] <==> NormaliseB(s)[i] <= NormaliseB(s)[j])
    ensures MaxOf(NormaliseB(s)) == (if MaxOf(s) > 100.0 then MaxOf(s) / 1000.0 else MaxOf(s))
    ensures MaxOf(s) <= 100000.0 ==> MaxOf(NormaliseB(s)) <= 100.0
  {
    var r := NormaliseB(s);
    if MaxOf(s) > 100.0 {
      forall i, j | 0 <= i < |s| && 0 <= j < |s|
        ensures s[i] <= s[j] <==> r[i] <= r[j]
      {
        assert r[i] == s[i] / 1000.0 && r[j] == s[j] / 1000.0;
      }
      var m := MaxOf(r);
      var k :| 0 <= k < |s| && s[k] == MaxOf(s);
      var l :| 0 <= l < |s| && r[l] == m;
      assert r[k] <= m && s[l] <= s[k];
      assert r[k] == s[k] / 1000.0 && r[l] == s[l] / 1000.0;
    }
  }

  /** The b-value set-up of the constructor: a buffer of ones is filled with the first
      nScan given b-values, then divided in place by 1000 if its largest entry is
      above 100. */
  method LoadB(bValue: seq<real>, nScan: nat) returns (b: seq<real>)
    requires 0 < nScan <= |bValue|
    ensures b == NormaliseB(bValue[..nScan])
  {
    var buf := new real[nScan](_ => 1.0);
    FillB(buf, bValue);
    if MaxOf(buf[..]) > 100.0 {
      DivideB(buf);
    }
    b := buf[..];
  }

  /** b[i] = b_value[i] for every scan i, in place. */
  method FillB(buf: array<real>, bValue: seq<real>)
    requires buf.Length <= |bValue|
    modifies buf
    ensures buf[..] == bValue[..buf.Length]
  {
    var i := 0;
    while i < buf.Length
      invariant 0 <= i <= buf.Length
      invariant buf[..i] == bValue[..i]
    {
      buf[i] := bValue[i];
      i := i + 1;
    }
  }

  /** b /= 1000, in place. */
  method DivideB(buf: array<real>)
    modifies buf
    ensures buf[..] == PerThousand(old(buf[..]))
  {
    var j := 0;
    while j < buf.Length
      invariant 0 <= j <= buf.Length
      invariant forall i :: 0 <= i < j ==> buf[i] == old(buf[i]) / 1000.0
      invariant forall i :: j <= i < buf.Length ==> buf[i] == old(buf[i])
    {
      buf[j] := buf[j] / 1000.0;
      j := j + 1;
    }
  }

  const UnknownsTgv: nat := 4
  const UnknownsH1: nat := 0

  /** The constraint table, each bound divided by its unknown's scale: M0 in [0, 10]
      complex; ADC in [0, 10], f in [0, 1] and ADC_ivim in [0, 150], real-valued. */
  function IvimTable(uk: seq<real>): (r: seq<Bound>)
    requires 4 <= |uk|
    ensures |r| == 4 && !r[0].isReal && r[1].isReal && r[2].isReal && r[3].isReal
  {
    [Bound(Frac(0.0, uk[0]), Frac(10.0, uk[0]), false),
     Bound(Frac(-0.0, uk[1]), Frac(10.0, uk[1]), true),
     Bound(Frac(0.0, uk[2]), Frac(1.0, uk[2]), true),
     Bound(Frac(0.0, uk[3]), Frac(150.0, uk[3]), true)]
  }

  /** With the unit scales the constructor sets, the table holds the physical bounds,
      each interval non-empty. */
  lemma IvimTableUnit()
    ensures IvimTable([1.0, 1.0, 1.0, 1.0]) ==
      [Bound(Fin(0.0), Fin(10.0), false), Bound(Fin(0.0), Fin(10.0), true),
       Bound(Fin(0.0), Fin(1.0), true), Bound(Fin(0.0), Fin(150.0), true)]
    ensures forall j :: 0 <= j < 4 ==> Le(IvimTable([1.0, 1.0, 1.0, 1.0])[j].min, IvimTable([1.0, 1.0, 1.0, 1.0])[j].max)
  {
  }

  /** For any positive scales every interval of the table is finite and ordered. */
  lemma {:induction false} IvimTableOrdered(uk: seq<real>)
    requires 4 <= |uk| && 0.0 < uk[0] && 0.0 < uk[1] && 0.0 < uk[2] && 0.0 < uk[3]
    ensures forall j :: 0 <= j < 4 ==> IvimTable(uk)[j].min.Fin? && IvimTable(uk)[j].max.Fin?
    ensures forall j :: 0 <= j < 4 ==> Le(IvimTable(uk)[j].min, IvimTable(uk)[j].max)
  {
    DivMono(0.0, 10.0, uk[0]);
    DivMono(-0.0, 10.0, uk[1]);
    DivMono(0.0, 1.0, uk[2]);
    DivMono(0.0, 150.0, uk[3]);
  }

  /** `rescale`: the four unknowns in physical units, in their order. */
  function Rescale4(x: seq<seq<C>>, uk: seq<real>): (r: seq<seq<C>>)
    requires 4 <= |x| && 4 <= |uk|
    ensures |r| == 4
  {
    [ScaleImage(uk[0], x[0]), ScaleImage(uk[1], x[1]), ScaleImage(uk[2], x[2]), ScaleImage(uk[3], x[3])]
  }

  /** Each unknown is scaled by its own scale only, and rescaling with the reciprocal
      scales gives the unknowns back. */
  lemma Rescale4Facts(x: seq<seq<C>>, uk: seq<real>)
    requires |x| == 4 && |uk| == 4
    ensures forall u, p :: 0 <= u < 4 && 0 <= p < |x[u]| ==> Rescale4(x, uk)[u][p] == Scale(uk[u], x[u][p])
    ensures uk[0] != 0.0 && uk[1] != 0.0 && uk[2] != 0.0 && uk[3] != 0.0 ==>
      Rescale4(Rescale4(x, uk), [1.0 / uk[0], 1.0 / uk[1], 1.0 / uk[2], 1.0 / uk[3]]) == x
  {
    if uk[0] != 0.0 && uk[1] != 0.0 && uk[2] != 0.0 && uk[3] != 0.0 {
      ScaleImageUndo(uk[0], x[0]);
      ScaleImageUndo(uk[1], x[1]);
      ScaleImageUndo(uk[2], x[2]);
      ScaleImageUndo(uk[3], x[3]);
    }
  }

  /** The exponent -(k * uk) * b of one decay, k a scaled unknown. */
  function Expo(b: real, uk: real, k: C): C
  {
    Scale(b, Neg(Scale(uk, k)))
  }

  /** The two compartments mixed by the fraction f: f * Ei + (1 - f) * Ea. */
  function Mix(f: C, ei: C, ea: C): C
  {
    Add(Mul(f, ei), Mul(Sub(One, f), ea))
  }

  /** The mixture is affine in f: Ea plus f times the difference of the two decays. */
  lemma MixAffine(f: C, ei: C, ea: C)
    ensures Mix(f, ei, ea) == Add(ea, Mul(f, Sub(ei, ea)))
  {
    assert f.re * ei.re - f.im * ei.im + ((1.0 - f.re) * ea.re - (0.0 - f.im) * ea.im)
        == ea.re + (f.re * (ei.re - ea.re) - f.im * (ei.im - ea.im));
    assert f.re * ei.im + f.im * ei.re + ((1.0 - f.re) * ea.im + (0.0 - f.im) * ea.re)
        == ea.im + (f.re * (ei.im - ea.im) + f.im * (ei.re - ea.re));
  }

  /** Moving the fraction by g moves the mixture by g times the difference of the
      decays. */
  lemma MixShift(f: C, g: C, ei: C, ea: C)
    ensures Mix(Add(f, g), ei, ea) == Add(Mix(f, ei, ea), Mul(g, Sub(ei, ea)))
  {
    MixAffine(f, ei, ea);
    MixAffine(Add(f, g), ei, ea);
    MulAddLeft(f, g, Sub(ei, ea));
  }

  /** The pixel's four unknowns (scaled values) and the scan's b-value. */
  datatype Sample = Sample(x0: C, x1: C, x2: C, x3: C)

  function Ei(exp: C -> C, b: real, uk: seq<real>, x: Sample): C
    requires 4 <= |uk|
  {
    exp(Expo(b, uk[3], x.x3))
  }

  function Ea(exp: C -> C, b: real, uk: seq<real>, x: Sample): C
    requires 4 <= |uk|
  {
    exp(Expo(b, uk[1], x.x1))
  }

  /** One sample of `_execute_forward_3D` before the phase factor:
      x0 * s0 * (x2 * s2 * Ei + (1 - x2 * s2) * Ea). */
  function Signal(exp: C -> C, b: real, uk: seq<real>, x: Sample): C
    requires 4 <= |uk|
  {
    Mul(Scale(uk[0], x.x0), Mix(Scale(uk[2], x.x2), Ei(exp, b, uk, x), Ea(exp, b, uk, x)))
  }

  /** The M0 entry of `_execute_gradient_3D` before the phase factor. */
  function GradM0(exp: C -> C, b: real, uk: seq<real>, x: Sample): C
    requires 4 <= |uk|
  {
    Scale(uk[0], Mix(Scale(uk[2], x.x2), Ei(exp, b, uk, x), Ea(exp, b, uk, x)))
  }

  /** The f entry before the phase factor: x0 * s0 * s2 * (Ei - Ea). */
  function GradF(exp: C -> C, b: real, uk: seq<real>, x: Sample): C
    requires 4 <= |uk|
  {
    Mul(Scale(uk[2], Scale(uk[0], x.x0)), Sub(Ei(exp, b, uk, x), Ea(exp, b, uk, x)))
  }

  /** The signal is x0 times the M0 entry of the Jacobian. */
  lemma SignalIsM0TimesGrad(exp: C -> C, b: real, uk: seq<real>, x: Sample)
    requires 4 <= |uk|
    ensures Signal(exp, b, uk, x) == Mul(x.x0, GradM0(exp, b, uk, x))
  {
    var m := Mix(Scale(uk[2], x.x2), Ei(exp, b, uk, x), Ea(exp, b, uk, x));
    ScaleMul(uk[0], x.x0, m);
  }

  /** The signal is affine in the fraction unknown x2, with slope the f entry of the
      Jacobian: moving x2 by h moves the signal by h * grad_f exactly. */
  lemma SignalAffineInF(exp: C -> C, b: real, uk: seq<real>, x: Sample, h: C)
    requires 4 <= |uk|
    ensures Sub(Signal(exp, b, uk, x.(x2 := Add(x.x2, h))), Signal(exp, b, uk, x)) == Mul(h, GradF(exp, b, uk, x))
  {
    var ei := Ei(exp, b, uk, x);
    var ea := Ea(exp, b, uk, x);
    var y := x.(x2 := Add(x.x2, h));
    var d := Sub(ei, ea);
    var a := Scale(uk[0], x.x0);
    var f := Scale(uk[2], x.x2);
    var g := Scale(uk[2], h);
    assert Scale(uk[2], y.x2) == Add(f, g);
    assert Signal(exp, b, uk, y) == Mul(a, Mix(Add(f, g), ei, ea));
    MixShift(f, g, ei, ea);
    MulDistAdd(a, Mix(f, ei, ea), Mul(g, d));
    ScaleMul(uk[2], h, d);
    ScaleMul(uk[2], a, Mul(h, d));
    ScaleMul(uk[2], a, d);
    ScaleMul(uk[2], h, Mul(a, d));
    MulLeftSwap(a, h, d);
  }

  /** The ADC entry before the phase factor: x0 * s0 * (-b * s1 * Ea + x2 * b * s2 * s1 * Ea). */
  function GradAdc(exp: C -> C, b: real, uk: seq<real>, x: Sample): C
    requires 4 <= |uk|
  {
    Mul(Scale(uk[0], x.x0),
        Add(Scale(uk[1], Scale(-b, Ea(exp, b, uk, x))),
            Mul(Scale(uk[1], Scale(uk[2], Scale(b, x.x2))), Ea(exp, b, uk, x))))
  }

  /** The ADC_ivim entry before the phase factor: -x0 * b * s0 * s3 * (x2 * s2 * Ei). */
  function GradAdcIvim(exp: C -> C, b: real, uk: seq<real>, x: Sample): C
    requires 4 <= |uk|
  {
    Mul(Scale(uk[3], Scale(uk[0], Scale(b, Neg(x.x0)))), Mul(Scale(uk[2], x.x2), Ei(exp, b, uk, x)))
  }

  /** The rate -b * s of a decay exp(-(k * s) * b) in its unknown k. */
  function Rate(b: real, s: real): real
  {
    -(b * s)
  }

  /** The pseudo-diffusion part x0 * s0 * (f * Ei) of the signal. */
  function IvimPart(exp: C -> C, b: real, uk: seq<real>, x: Sample): C
    requires 4 <= |uk|
  {
    Mul(Scale(uk[0], x.x0), Mul(Scale(uk[2], x.x2), Ei(exp, b, uk, x)))
  }

  /** The diffusion part x0 * s0 * ((1 - f) * Ea) of the signal. */
  function AdcPart(exp: C -> C, b: real, uk: seq<real>, x: Sample): C
    requires 4 <= |uk|
  {
    Mul(Scale(uk[0], x.x0), Mul(Sub(One, Scale(uk[2], x.x2)), Ea(exp, b, uk, x)))
  }

  /** r * e + c * n is r * (e - s * n) when c = -(r * s). */
  lemma Combine(r: real, c: real, s: real, e: C, n: C)
    requires c == -(r * s)
    ensures Add(Scale(r, e), Scale(c, n)) == Scale(r, Sub(e, Scale(s, n)))
  {
    assert r * (e.re - s * n.re) == r * e.re + c * n.re;
    assert r * (e.im - s * n.im) == r * e.im + c * n.im;
  }

  /** The scale products of the ADC entry. */
  lemma AdcScales(b: real, s1: real, s2: real, nb: real, r: real, c: real, c2: real, p: real)
    requires nb == -b && r == Rate(b, s1) && c == s2 * b && c2 == s1 * c && p == s1 * nb
    ensures p == r && c2 == -(r * s2)
  {
  }

  /** The product of scales in the ADC_ivim entry. */
  lemma IvimScales(b: real, s0: real, s3: real, k: real, r: real)
    requires k == s0 * -b && r == Rate(b, s3)
    ensures s3 * k == r * s0
  {
  }

  /** The inner factor of the ADC entry is -b * s1 times (1 - f) * Ea. */
  lemma AdcInner(b: real, s1: real, s2: real, x2: C, ea: C)
    ensures Add(Scale(s1, Scale(-b, ea)), Mul(Scale(s1, Scale(s2, Scale(b, x2))), ea))
            == Scale(Rate(b, s1), Mul(Sub(One, Scale(s2, x2)), ea))
  {
    var nb := -b;
    var r := Rate(b, s1);
    var c := s2 * b;
    var c2 := s1 * c;
    var p := s1 * nb;
    AdcScales(b, s1, s2, nb, r, c, c2, p);
    ScaleScale(s1, nb, ea);
    ScaleEq(p, r, ea);
    ScaleScale(s2, b, x2);
    ScaleScale(s1, c, x2);
    ScaleMul(c2, x2, ea);
    var n := Mul(x2, ea);
    MulSubRight(One, Scale(s2, x2), ea);
    MulOne(ea);
    ScaleMul(s2, x2, ea);
    Combine(r, c2, s2, ea, n);
  }

  /** The signal is the sum of its two compartments, and each exponential's entry of
      the Jacobian is the chain rule for its decay: -b * s1 times the diffusion part
      for ADC, -b * s3 times the pseudo-diffusion part for ADC_ivim. */
  lemma DecayGradients(exp: C -> C, b: real, uk: seq<real>, x: Sample)
    requires 4 <= |uk|
    ensures Signal(exp, b, uk, x) == Add(IvimPart(exp, b, uk, x), AdcPart(exp, b, uk, x))
    ensures GradAdc(exp, b, uk, x) == Scale(Rate(b, uk[1]), AdcPart(exp, b, uk, x))
    ensures GradAdcIvim(exp, b, uk, x) == Scale(Rate(b, uk[3]), IvimPart(exp, b, uk, x))
  {
    var a := Scale(uk[0], x.x0);
    var f := Scale(uk[2], x.x2);
    var ei := Ei(exp, b, uk, x);
    var ea := Ea(exp, b, uk, x);
    MulDistAdd(a, Mul(f, ei), Mul(Sub(One, f), ea));
    AdcInner(b, uk[1], uk[2], x.x2, ea);
    ScaleMul(Rate(b, uk[1]), a, Mul(Sub(One, f), ea));
    var s0 := uk[0];
    var s3 := uk[3];
    var nb := -b;
    var k := s0 * nb;
    var r := Rate(b, s3);
    ScaleNeg(b, x.x0);
    ScaleScale(s0, nb, x.x0);
    ScaleScale(s3, k, x.x0);
    ScaleScale(r, s0, x.x0);
    IvimScales(b, s0, s3, k, r);
    var p1 := s3 * k;
    var p2 := r * s0;
    ScaleEq(p1, p2, x.x0);
    ScaleMul(r, a, Mul(f, ei));
  }

  /** The sample multiplied by the phase map, as the model returns it. */
  function Phased(v: C, phase: C): C
  {
    Mul(v, phase)
  }

  /** Both relations survive the phase factor: the phased signal is x0 times the
      phased M0 entry, and moving x2 by h moves it by h times the phased f entry. */
  lemma PhasedFactors(exp: C -> C, b: real, uk: seq<real>, x: Sample, h: C, phase: C)
    requires 4 <= |uk|
    ensures Phased(Signal(exp, b, uk, x), phase) == Mul(x.x0, Phased(GradM0(exp, b, uk, x), phase))
    ensures Sub(Phased(Signal(exp, b, uk, x.(x2 := Add(x.x2, h))), phase), Phased(Signal(exp, b, uk, x), phase))
            == Mul(h, Phased(GradF(exp, b, uk, x), phase))
  {
    SignalIsM0TimesGrad(exp, b, uk, x);
    MulAssoc(x.x0, GradM0(exp, b, uk, x), phase);
    var s1 := Signal(exp, b, uk, x.(x2 := Add(x.x2, h)));
    var s0 := Signal(exp, b, uk, x);
    SignalAffineInF(exp, b, uk, x, h);
    MulSubRight(s1, s0, phase);
    MulAssoc(h, GradF(exp, b, uk, x), phase);
  }

  /** The 2-D entry points of the model. */
  datatype Outcome<T> = Value(value: T) | NotImplemented

  /** `_execute_forward_2D`: there is no 2-D IVIM model; every call fails. */
  function Forward2D(x: seq<seq<C>>, islice: nat): (r: Outcome<seq<seq<C>>>)
    ensures r.NotImplemented?
  {
    NotImplemented
  }

  /** `_execute_gradient_2D`: every call fails as well. */
  function Gradient2D(x: seq<seq<C>>, islice: nat): (r: Outcome<seq<seq<seq<C>>>>)
    ensures r.NotImplemented?
  {
    NotImplemented
  }

  /** An image of p equal samples. */
  function Constant(p: nat, v: C): (r: seq<C>)
    ensures |r| == p && forall i :: 0 <= i < p ==> r[i] == v
  {
    seq(p, _ => v)
  }

  /** The initial guess: the b0 image if one was given, else the first scan, divided by
      the M0 scale; then ADC = 1, f = 0.2 and ADC_ivim = 50 on images of p pixels. */
  function InitialGuess(scan0: seq<C>, b0: seq<C>, hasB0: bool, uk0: real, p: nat): (r: seq<seq<C>>)
    requires uk0 != 0.0
    ensures |r| == 4
    ensures r[0] == ScaleImage(1.0 / uk0, if hasB0 then b0 else scan0)
    ensures r[1] == Constant(p, C(1.0, 0.0)) && r[2] == Constant(p, C(0.2, 0.0)) && r[3] == Constant(p, C(50.0, 0.0))
  {
    [ScaleImage(1.0 / uk0, if hasB0 then b0 else scan0),
     Constant(p, C(1.0, 0.0)), Constant(p, C(0.2, 0.0)), Constant(p, C(50.0, 0.0))]
  }

  /** Every constant map of the guess satisfies its constraint under unit scales, and a
      guess taken back to physical units has M0 equal to the image it came from. */
  lemma InitialGuessFeasible(scan0: seq<C>, b0: seq<C>, hasB0: bool, p: nat)
    ensures forall u, i :: 1 <= u < 4 && 0 <= i < p ==>
      Le(IvimTable([1.0, 1.0, 1.0, 1.0])[u].min, Fin(InitialGuess(scan0, b0, hasB0, 1.0, p)[u][i].re))
      && Le(Fin(InitialGuess(scan0, b0, hasB0, 1.0, p)[u][i].re), IvimTable([1.0, 1.0, 1.0, 1.0])[u].max)
      && InitialGuess(scan0, b0, hasB0, 1.0, p)[u][i].im == 0.0
    ensures ScaleImage(1.0, InitialGuess(scan0, b0, hasB0, 1.0, p)[0]) == (if hasB0 then b0 else scan0)
  {
    IvimTableUnit();
    var m := if hasB0 then b0 else scan0;
    ScaleImageUndo(1.0, m);
  }

  /** The model object after its constructor and `computeInitialGuess`. */
  class IvimModel {
    var b: seq<real>
    var unknowns: nat
    var ukScale: seq<real>
    var constraints: seq<Constraint>
    var guess: seq<seq<C>>

    ghost predicate Valid()
      reads this
    {
      unknowns == UnknownsTgv + UnknownsH1 && ukScale == [1.0, 1.0, 1.0, 1.0] && Distinct(constraints)
    }

    /** b-values loaded and converted, four unknowns with unit scales, the constraint
        table built in order. */
    constructor (bValue: seq<real>, nScan: nat)
      requires 0 < nScan <= |bValue|
      ensures Valid()
      ensures b == NormaliseB(bValue[..nScan])
      ensures Views(constraints) == IvimTable(ukScale)
      ensures forall c :: c in constraints ==> fresh(c)
      ensures guess == []
    {
      var bs := LoadB(bValue, nScan);
      b := bs;
      unknowns := UnknownsTgv + UnknownsH1;
      var uk: seq<real> := [];
      var j := 0;
      while j < UnknownsTgv + UnknownsH1
        invariant 0 <= j <= UnknownsTgv + UnknownsH1 && uk == seq(j, _ => 1.0)
      {
        uk := uk + [1.0];
        j := j + 1;
      }
      var cs := Build(IvimTable(uk));
      ukScale := uk;
      constraints := cs;
      guess := [];
    }

    /** `computeInitialGuess`: stores the guess; constraints and scales are kept. */
    method ComputeInitialGuess(scan0: seq<C>, b0: seq<C>, hasB0: bool, p: nat)
      requires Valid()
      modifies this
      ensures Valid() && guess == InitialGuess(scan0, b0, hasB0, ukScale[0], p)
      ensures b == old(b) && ukScale == old(ukScale) && constraints == old(constraints)
    {
      guess := InitialGuess(scan0, b0, hasB0, ukScale[0], p);
    }
  }
}
