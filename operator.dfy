/** The composite operator pair `operator_fwd` / `operator_ad`, pixel by pixel.

    At one pixel, with a(j, sl) the unknowns, grad(j, sc, sl) the Jacobian of the
    signal model and coil(co, sl) the coil sensitivities, the forward operator
    stores, for every scan sc, coil co and slice sl,

      Σ_j a(j, sl) · grad(j, sc, sl) · coil(co, sl)

    and the adjoint operator stores, for every unknown j and slice sl,

      Σ_sc Σ_co y(sc, co, sl) · conj(grad(j, sc, sl)) · conj(coil(co, sl)).

    Before it is used, the adjoint's input sample passes the test of line 318,
    `isnan(tmp_in.x) || tmp_in.y`: the second operand is the imaginary part read as
    a truth value, so every sample with a non-zero imaginary part is replaced by
    zero. `Screen` with `zeroImag` set is that test as written (no real number is
    NaN); with `zeroImag` unset the sample passes unchanged, which is the adjoint
    the forward operator calls for. */
module Operator {
  import opened Complex

  /** Launch sizes: an X-by-Y image, NCo coils, NSl slices, NSc scans and NUn
      unknowns. */
  datatype Dims = Dims(X: nat, Y: nat, NCo: nat, NSl: nat, NSc: nat, NUn: nat)

  /** The factors both kernels read at a pixel: the Jacobian grad(j, sc, sl) and the
      coil sensitivities coil(co, sl). */
  datatype Factors = Factors(grad: (int, int, int) -> C, coil: (int, int) -> C)

  /** The input sample of the adjoint after the test of line 318. */
  function Screen(zeroImag: bool, v: C): C
  {
    if zeroImag && v.im != 0.0 then Zero else v
  }

  /** Term j of forward sample (sc, co, sl): the unknown times the Jacobian, then
      times the coil, in the kernel's order. */
  function FwdTerm(f: Factors, a: (int, int) -> C, j: int, sc: int, co: int, sl: int): C
  {
    Mul(Mul(a(j, sl), f.grad(j, sc, sl)), f.coil(co, sl))
  }

  function FwdTerms(f: Factors, a: (int, int) -> C, sc: int, co: int, sl: int): int -> C
  {
    j => FwdTerm(f, a, j, sc, co, sl)
  }

  /** Forward sample (sc, co, sl): the sum over the unknowns. */
  function FwdValue(d: Dims, f: Factors, a: (int, int) -> C, sc: int, co: int, sl: int): C
  {
    CSum(d.NUn, FwdTerms(f, a, sc, co, sl))
  }

  /** The forward image of the pixel's unknowns. */
  function FwdView(d: Dims, f: Factors, a: (int, int) -> C): (int, int, int) -> C
  {
    (sc, co, sl) => FwdValue(d, f, a, sc, co, sl)
  }

  /** Term (sc, co) of adjoint entry (j, sl): the screened sample times the
      conjugate Jacobian, then times the conjugate coil. */
  function AdTerm(zeroImag: bool, f: Factors, y: (int, int, int) -> C, j: int, sc: int, co: int, sl: int): C
  {
    Mul(Mul(Screen(zeroImag, y(sc, co, sl)), Conj(f.grad(j, sc, sl))), Conj(f.coil(co, sl)))
  }

  function CoilTerms(zeroImag: bool, f: Factors, y: (int, int, int) -> C, j: int, sc: int, sl: int): int -> C
  {
    co => AdTerm(zeroImag, f, y, j, sc, co, sl)
  }

  /** The contribution of scan sc to adjoint entry (j, sl): the sum over the coils. */
  function ScanSum(d: Dims, zeroImag: bool, f: Factors, y: (int, int, int) -> C, j: int, sc: int, sl: int): C
  {
    CSum(d.NCo, CoilTerms(zeroImag, f, y, j, sc, sl))
  }

  function ScanSums(d: Dims, zeroImag: bool, f: Factors, y: (int, int, int) -> C, j: int, sl: int): int -> C
  {
    sc => ScanSum(d, zeroImag, f, y, j, sc, sl)
  }

  /** Adjoint entry (j, sl): the sum over the scans of the sums over the coils. */
  function AdValue(d: Dims, zeroImag: bool, f: Factors, y: (int, int, int) -> C, j: int, sl: int): C
  {
    CSum(d.NSc, ScanSums(d, zeroImag, f, y, j, sl))
  }

  /** The adjoint image of the pixel's samples. */
  function AdView(d: Dims, zeroImag: bool, f: Factors, y: (int, int, int) -> C): (int, int) -> C
  {
    (j, sl) => AdValue(d, zeroImag, f, y, j, sl)
  }

  // Inner products at one pixel and slice, <u, w> = Σ u · conj(w).

  function SampleProd(u: (int, int, int) -> C, w: (int, int, int) -> C, sc: int, co: int, sl: int): C
  {
    Mul(u(sc, co, sl), Conj(w(sc, co, sl)))
  }

  function SampleRow(u: (int, int, int) -> C, w: (int, int, int) -> C, sc: int, sl: int): int -> C
  {
    co => SampleProd(u, w, sc, co, sl)
  }

  function SampleScan(d: Dims, u: (int, int, int) -> C, w: (int, int, int) -> C, sc: int, sl: int): C
  {
    CSum(d.NCo, SampleRow(u, w, sc, sl))
  }

  function SampleScans(d: Dims, u: (int, int, int) -> C, w: (int, int, int) -> C, sl: int): int -> C
  {
    sc => SampleScan(d, u, w, sc, sl)
  }

  /** <u, w> over the samples (scan, coil) of slice sl. */
  function SampleDot(d: Dims, u: (int, int, int) -> C, w: (int, int, int) -> C, sl: int): C
  {
    CSum(d.NSc, SampleScans(d, u, w, sl))
  }

  function EntryProds(a: (int, int) -> C, b: (int, int) -> C, sl: int): int -> C
  {
    j => Mul(a(j, sl), Conj(b(j, sl)))
  }

  /** <a, b> over the unknowns of slice sl. */
  function EntryDot(d: Dims, a: (int, int) -> C, b: (int, int) -> C, sl: int): C
  {
    CSum(d.NUn, EntryProds(a, b, sl))
  }

  // The three-index family both inner products expand to.

  function Triple(f: Factors, a: (int, int) -> C, y: (int, int, int) -> C, sl: int, j: int, sc: int, co: int): C
  {
    Mul(Mul(Mul(a(j, sl), f.grad(j, sc, sl)), f.coil(co, sl)), Conj(y(sc, co, sl)))
  }

  function TriplesJ(f: Factors, a: (int, int) -> C, y: (int, int, int) -> C, sl: int, sc: int, co: int): int -> C
  {
    j => Triple(f, a, y, sl, j, sc, co)
  }

  function TriplesCo(f: Factors, a: (int, int) -> C, y: (int, int, int) -> C, sl: int, j: int, sc: int): int -> C
  {
    co => Triple(f, a, y, sl, j, sc, co)
  }

  /** Σ_co of the family at (j, sc). */
  function TripleCo(d: Dims, f: Factors, a: (int, int) -> C, y: (int, int, int) -> C, sl: int, j: int, sc: int): C
  {
    CSum(d.NCo, TriplesCo(f, a, y, sl, j, sc))
  }

  function TripleCos(d: Dims, f: Factors, a: (int, int) -> C, y: (int, int, int) -> C, sl: int, j: int): int -> C
  {
    sc => TripleCo(d, f, a, y, sl, j, sc)
  }

  /** The family with the coil first and the unknown second, at scan sc. */
  function CoByJ(f: Factors, a: (int, int) -> C, y: (int, int, int) -> C, sl: int, sc: int): (int, int) -> C
  {
    (co, j) => Triple(f, a, y, sl, j, sc, co)
  }

  /** Σ_co at (j, sc), with the scan first and the unknown second. */
  function ScByJ(d: Dims, f: Factors, a: (int, int) -> C, y: (int, int, int) -> C, sl: int): (int, int) -> C
  {
    (sc, j) => TripleCo(d, f, a, y, sl, j, sc)
  }

  /** The ring identity behind adjointness: a · conj(y · conj(g) · conj(c)) is
      a · g · c · conj(y). */
  lemma TermIdentity(a: C, g: C, c: C, yv: C)
    ensures Mul(a, Conj(Mul(Mul(yv, Conj(g)), Conj(c)))) == Mul(Mul(Mul(a, g), c), Conj(yv))
  {
    var cy := Conj(yv);
    ConjMul(Mul(yv, Conj(g)), Conj(c));
    ConjMul(yv, Conj(g));
    assert Conj(Mul(Mul(yv, Conj(g)), Conj(c))) == Mul(Mul(cy, g), c);
    MulAssoc(a, Mul(cy, g), c);
    MulComm(cy, g);
    MulAssoc(a, g, cy);
    MulAssoc(Mul(a, g), cy, c);
    MulComm(cy, c);
    MulAssoc(Mul(a, g), c, cy);
  }

  /** A forward sample times conj(y) is the sum over the unknowns of the family. */
  lemma SampleProdExpand(d: Dims, f: Factors, a: (int, int) -> C, y: (int, int, int) -> C, sc: int, co: int, sl: int)
    ensures SampleProd(FwdView(d, f, a), y, sc, co, sl) == CSum(d.NUn, TriplesJ(f, a, y, sl, sc, co))
  {
    CSumMulRight(d.NUn, FwdTerms(f, a, sc, co, sl), Conj(y(sc, co, sl)), TriplesJ(f, a, y, sl, sc, co));
  }

  /** a(j) times the conjugate contribution of scan sc is Σ_co of the family. */
  lemma ScanExpand(d: Dims, f: Factors, a: (int, int) -> C, y: (int, int, int) -> C, j: int, sc: int, sl: int)
    ensures Mul(a(j, sl), Conj(ScanSum(d, false, f, y, j, sc, sl))) == TripleCo(d, f, a, y, sl, j, sc)
  {
    var terms := CoilTerms(false, f, y, j, sc, sl);
    var conjs := (co: int) => Conj(terms(co));
    CSumConj(d.NCo, terms, conjs);
    forall co | 0 <= co < d.NCo
      ensures TriplesCo(f, a, y, sl, j, sc)(co) == Mul(a(j, sl), conjs(co))
    {
      TermIdentity(a(j, sl), f.grad(j, sc, sl), f.coil(co, sl), y(sc, co, sl));
    }
    CSumMulLeft(d.NCo, a(j, sl), conjs, TriplesCo(f, a, y, sl, j, sc));
  }

  /** a(j) times the conjugate of the corrected adjoint entry j is Σ_sc Σ_co of
      the family. */
  lemma EntryProdExpand(d: Dims, f: Factors, a: (int, int) -> C, y: (int, int, int) -> C, j: int, sl: int)
    ensures EntryProds(a, AdView(d, false, f, y), sl)(j) == CSum(d.NSc, TripleCos(d, f, a, y, sl, j))
  {
    var sums := ScanSums(d, false, f, y, j, sl);
    var conjs := (sc: int) => Conj(sums(sc));
    CSumConj(d.NSc, sums, conjs);
    forall sc | 0 <= sc < d.NSc
      ensures TripleCos(d, f, a, y, sl, j)(sc) == Mul(a(j, sl), conjs(sc))
    {
      ScanExpand(d, f, a, y, j, sc, sl);
    }
    CSumMulLeft(d.NSc, a(j, sl), conjs, TripleCos(d, f, a, y, sl, j));
  }

  /** The sum over the coils of scan sc, exchanged with the sum over the unknowns. */
  lemma SampleScanSwap(d: Dims, f: Factors, a: (int, int) -> C, y: (int, int, int) -> C, sc: int, sl: int)
    ensures SampleScan(d, FwdView(d, f, a), y, sc, sl) == CSum(d.NUn, RowC(ScByJ(d, f, a, y, sl), sc))
  {
    var F := CoByJ(f, a, y, sl, sc);
    forall co | 0 <= co < d.NCo
      ensures SampleRow(FwdView(d, f, a), y, sc, sl)(co) == CSum(d.NUn, RowC(F, co))
    {
      SampleProdExpand(d, f, a, y, sc, co, sl);
      CSumExt(d.NUn, TriplesJ(f, a, y, sl, sc, co), RowC(F, co));
    }
    forall j | 0 <= j < d.NUn
      ensures RowC(ScByJ(d, f, a, y, sl), sc)(j) == CSum(d.NCo, ColC(F, j))
    {
      CSumExt(d.NCo, TriplesCo(f, a, y, sl, j, sc), ColC(F, j));
    }
    CSumSwapBy(d.NCo, d.NUn, F, SampleRow(FwdView(d, f, a), y, sc, sl), RowC(ScByJ(d, f, a, y, sl), sc));
  }

  /** At every pixel and slice the forward operator and the corrected adjoint are
      adjoint: <fwd(a), y> = <a, ad(y)>. */
  lemma {:induction false} OperatorAdjointAt(d: Dims, f: Factors, a: (int, int) -> C, y: (int, int, int) -> C, sl: int)
    ensures SampleDot(d, FwdView(d, f, a), y, sl) == EntryDot(d, a, AdView(d, false, f, y), sl)
  {
    var F := ScByJ(d, f, a, y, sl);
    forall sc | 0 <= sc < d.NSc
      ensures SampleScans(d, FwdView(d, f, a), y, sl)(sc) == CSum(d.NUn, RowC(F, sc))
    {
      SampleScanSwap(d, f, a, y, sc, sl);
    }
    forall j | 0 <= j < d.NUn
      ensures EntryProds(a, AdView(d, false, f, y), sl)(j) == CSum(d.NSc, ColC(F, j))
    {
      EntryProdExpand(d, f, a, y, j, sl);
      CSumExt(d.NSc, TripleCos(d, f, a, y, sl, j), ColC(F, j));
    }
    CSumSwapBy(d.NSc, d.NUn, F, SampleScans(d, FwdView(d, f, a), y, sl), EntryProds(a, AdView(d, false, f, y), sl));
  }

  /** On samples with a zero imaginary part the test of line 318 changes nothing:
      the adjoint as written equals the corrected one. */
  lemma {:induction false} ScreenRealData(d: Dims, f: Factors, y: (int, int, int) -> C, j: int, sl: int)
    requires forall sc, co :: 0 <= sc < d.NSc && 0 <= co < d.NCo ==> y(sc, co, sl).im == 0.0
    ensures AdValue(d, true, f, y, j, sl) == AdValue(d, false, f, y, j, sl)
  {
    forall sc | 0 <= sc < d.NSc
      ensures ScanSums(d, true, f, y, j, sl)(sc) == ScanSums(d, false, f, y, j, sl)(sc)
    {
      CSumExt(d.NCo, CoilTerms(true, f, y, j, sc, sl), CoilTerms(false, f, y, j, sc, sl));
    }
    CSumExt(d.NSc, ScanSums(d, true, f, y, j, sl), ScanSums(d, false, f, y, j, sl));
  }

  /** Hence, on real-valued samples, the kernel as written is adjoint to the
      forward operator. */
  lemma {:induction false} OperatorAdjointRealData(d: Dims, f: Factors, a: (int, int) -> C, y: (int, int, int) -> C, sl: int)
    requires forall sc, co :: 0 <= sc < d.NSc && 0 <= co < d.NCo ==> y(sc, co, sl).im == 0.0
    ensures SampleDot(d, FwdView(d, f, a), y, sl) == EntryDot(d, a, AdView(d, true, f, y), sl)
  {
    OperatorAdjointAt(d, f, a, y, sl);
    forall j | 0 <= j < d.NUn
      ensures EntryProds(a, AdView(d, true, f, y), sl)(j) == EntryProds(a, AdView(d, false, f, y), sl)(j)
    {
      ScreenRealData(d, f, y, j, sl);
    }
    CSumExt(d.NUn, EntryProds(a, AdView(d, true, f, y), sl), EntryProds(a, AdView(d, false, f, y), sl));
  }

  /** With every size one, each inner product is its single term. */
  lemma SingleSample(d: Dims, zeroImag: bool, f: Factors, a: (int, int) -> C, y: (int, int, int) -> C)
    requires d.NCo == 1 && d.NSc == 1 && d.NUn == 1
    ensures SampleDot(d, FwdView(d, f, a), y, 0) == Mul(FwdTerm(f, a, 0, 0, 0, 0), Conj(y(0, 0, 0)))
    ensures EntryDot(d, a, AdView(d, zeroImag, f, y), 0) == Mul(a(0, 0), Conj(AdTerm(zeroImag, f, y, 0, 0, 0, 0)))
  {
    CSumOne(FwdTerms(f, a, 0, 0, 0));
    CSumOne(SampleRow(FwdView(d, f, a), y, 0, 0));
    CSumOne(SampleScans(d, FwdView(d, f, a), y, 0));
    CSumOne(CoilTerms(zeroImag, f, y, 0, 0, 0));
    CSumOne(ScanSums(d, zeroImag, f, y, 0, 0));
    CSumOne(EntryProds(a, AdView(d, zeroImag, f, y), 0));
  }

  const One := C(1.0, 0.0)

  /** The smallest launch: one of everything. */
  const Unit := Dims(1, 1, 1, 1, 1, 1)

  /** Jacobian and coil both 1. */
  const UnitFactors := Factors((j, sc, sl) => One, (co, sl) => One)

  /** The unknown 1. */
  const Ones: (int, int) -> C := (j, sl) => One

  /** The sample i. */
  const ISample: (int, int, int) -> C := (sc, co, sl) => C(0.0, 1.0)

  /** With the unknown, the Jacobian and the coil all 1 and the sample i,
      <fwd(a), y> is -i, but the adjoint as written zeroes the sample and gives 0. */
  lemma ScreenBreaksAdjointness()
    ensures SampleDot(Unit, FwdView(Unit, UnitFactors, Ones), ISample, 0) == C(0.0, -1.0)
    ensures EntryDot(Unit, Ones, AdView(Unit, true, UnitFactors, ISample), 0) == Zero
  {
    assert SampleDot(Unit, FwdView(Unit, UnitFactors, Ones), ISample, 0) == C(0.0, -1.0) by {
      UnitFwdTerm();
      SingleSample(Unit, true, UnitFactors, Ones, ISample);
    }
    assert EntryDot(Unit, Ones, AdView(Unit, true, UnitFactors, ISample), 0) == Zero by {
      UnitAdTerm();
      SingleSample(Unit, true, UnitFactors, Ones, ISample);
    }
  }

  /** The forward term of the example above is 1 and its product with conj(i) is -i. */
  lemma UnitFwdTerm()
    ensures Mul(FwdTerm(UnitFactors, Ones, 0, 0, 0, 0), Conj(ISample(0, 0, 0))) == C(0.0, -1.0)
  {
    assert Ones(0, 0) == One;
    assert UnitFactors.grad(0, 0, 0) == One;
    assert UnitFactors.coil(0, 0) == One;
    assert Conj(ISample(0, 0, 0)) == C(0.0, -1.0);
    MulOne(One);
    MulOne(C(0.0, -1.0));
  }

  /** 1 is the unit of the product. */
  lemma MulOne(c: C)
    ensures Mul(One, c) == c && Mul(c, One) == c
  {
  }

  /** The adjoint term of the example above is 0: the sample i is screened out. */
  lemma UnitAdTerm()
    ensures Mul(Ones(0, 0), Conj(AdTerm(true, UnitFactors, ISample, 0, 0, 0, 0))) == Zero
  {
    assert AdTerm(true, UnitFactors, ISample, 0, 0, 0, 0) == Zero by {
      assert Screen(true, ISample(0, 0, 0)) == Zero;
    }
  }
}
