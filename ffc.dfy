/** The fast-field-cycling relaxometry model of pyqmri/models/FFCPaperPhaseAlpha.py:
    for each of n evolution fields a concentration C_j, an inversion factor alpha_j
    and a relaxation time T1_j, so 3n TGV unknowns. The constructor's constraint
    table, `rescale` with the unknowns' names, the row layout of the 3-D forward model
    and the initial guess are modelled; `exp` enters as the function parameter
    `decay`, where decay(t, T1) stands for exp(-t / T1). */
module Ffc {
  import opened Complex
  import opened DiffModel
  import Solver

  const One := C(1.0, 0.0)

  // ---------------------------------------------------------------------------
  // Acquisition arrays

  /** The evolution times as given: one list (a single field) or one list per field. */
  datatype Arr = Vec(v: seq<real>) | Mat(rows: seq<seq<real>>)

  /** A 1-D time list gains a leading axis, so that row j always holds the times of
      field j. */
  function Promote(t: Arr): (r: seq<seq<real>>)
    ensures t.Vec? ==> r == [t.v]
    ensures t.Mat? ==> r == t.rows
  {
    match t
    case Vec(v) => [v]
    case Mat(rows) => rows
  }

  /** Unknown counts: C, alpha and T1 for each of n fields, and no H1 unknowns. */
  function UnknownsTgv(n: nat): (r: nat)
    ensures r == 3 * n
  {
    n + n + n
  }

  const UnknownsH1: nat := 0

  /** A list of k ones: the unit scale of every unknown. */
  function Ones(k: nat): (r: seq<real>)
    ensures |r| == k && forall i :: 0 <= i < k ==> r[i] == 1.0
  {
    seq(k, _ => 1.0)
  }

  // ---------------------------------------------------------------------------
  // Constraint table

  /** The lower bound of every T1 unknown. */
  const T1Min := 0.0

  /** n concentrations in [0, 1000], complex-valued. */
  function CBlock(n: nat): seq<Bound>
  {
    seq(n, _ => Bound(Fin(0.0), Fin(1000.0), false))
  }

  /** n inversion factors in [0, 5], real-valued. */
  function AlphaBlock(n: nat): seq<Bound>
  {
    seq(n, _ => Bound(Fin(0.0), Fin(5.0), true))
  }

  /** The upper bound of T1 for field j: 2000 / (j + 1). */
  function T1Max(j: nat): real
  {
    2000.0 / (j as real + 1.0)
  }

  /** n relaxation times, field j in [0, 2000 / (j + 1)], real-valued. */
  function T1Block(n: nat): seq<Bound>
  {
    seq(n, j requires 0 <= j < n => Bound(Fin(T1Min), Fin(T1Max(j)), true))
  }

  /** The table the constructor appends, block after block. */
  function FfcTable(n: nat): seq<Bound>
  {
    CBlock(n) + AlphaBlock(n) + T1Block(n)
  }

  /** The real-valued flags of a list of bounds, in order. */
  function Flags(bs: seq<Bound>): (r: seq<bool>)
    ensures |r| == |bs| && forall j :: 0 <= j < |bs| ==> r[j] == bs[j].isReal
  {
    seq(|bs|, j requires 0 <= j < |bs| => bs[j].isReal)
  }

  /** The table has 3n rows: the first n are the concentrations' [0, 1000], complex,
      the next n the inversion factors' [0, 5], the last n the relaxation times'
      [0, 2000 / (j + 1)]; only the concentrations are complex, every interval is
      finite and ordered. */
  lemma {:induction false} FfcTableFacts(n: nat)
    ensures |FfcTable(n)| == 3 * n
    ensures forall k :: 0 <= k < n ==> FfcTable(n)[k] == Bound(Fin(0.0), Fin(1000.0), false)
    ensures forall k :: n <= k < 2 * n ==> FfcTable(n)[k] == Bound(Fin(0.0), Fin(5.0), true)
    ensures forall j :: 0 <= j < n ==> FfcTable(n)[2 * n + j] == Bound(Fin(0.0), Fin(T1Max(j)), true)
    ensures Flags(FfcTable(n)) == seq(3 * n, k => n <= k)
    ensures forall k :: 0 <= k < 3 * n ==> Le(FfcTable(n)[k].min, FfcTable(n)[k].max)
  {
    var r := FfcTable(n);
    forall k | 0 <= k < 3 * n
      ensures Le(r[k].min, r[k].max) && r[k].isReal == (n <= k)
    {
      if 2 * n <= k {
        var j := k - 2 * n;
        assert r[k] == T1Block(n)[j];
        var d := j as real + 1.0;
        DivMono(0.0, 2000.0, d);
      } else if n <= k {
        assert r[k] == AlphaBlock(n)[k - n];
      } else {
        assert r[k] == CBlock(n)[k];
      }
    }
    forall j | 0 <= j < n
      ensures r[2 * n + j] == Bound(Fin(0.0), Fin(T1Max(j)), true)
    {
      assert r[2 * n + j] == T1Block(n)[j];
    }
  }

  /** c / y < c / x for 0 < x < y and c > 0. */
  lemma RecipFalls(c: real, x: real, y: real)
    requires 0.0 < c && 0.0 < x < y
    ensures c / y < c / x
  {
    var q := c / (x * y);
    assert 0.0 < x * y;
    assert 0.0 < q;
    assert c / y == q * x;
    assert c / x == q * y;
    assert q * x < q * y;
  }

  /** The T1 upper bound falls strictly from one field to the next. */
  lemma T1MaxFalls(i: nat, j: nat)
    requires i < j
    ensures T1Max(j) < T1Max(i)
  {
    var di := i as real + 1.0;
    var dj := j as real + 1.0;
    RecipFalls(2000.0, di, dj);
  }

  // ---------------------------------------------------------------------------
  // Unknown names

  /** The character of a decimal digit. */
  function Digit(d: nat): (c: char)
    requires d < 10
    ensures '0' <= c <= '9'
  {
    (48 + d) as char
  }

  /** The decimal numeral of k, as Python's str writes a non-negative int. */
  function Decimal(k: nat): (r: string)
    ensures 0 < |r| && forall i :: 0 <= i < |r| ==> '0' <= r[i] <= '9'
  {
    if k < 10 then [Digit(k)] else Decimal(k / 10) + [Digit(k % 10)]
  }

  /** The value of a string of decimal digits. */
  function ParseDecimal(s: string): (k: nat)
    requires forall i :: 0 <= i < |s| ==> '0' <= s[i] <= '9'
  {
    if |s| == 0 then 0
    else ParseDecimal(s[..|s| - 1]) * 10 + ((s[|s| - 1] as int) - 48)
  }

  /** Reading the numeral back gives the number, so different numbers have different
      numerals. */
  lemma {:induction false} DecimalRoundTrip(k: nat)
    ensures ParseDecimal(Decimal(k)) == k
  {
    var s := Decimal(k);
    if k < 10 {
      assert s[..0] == [];
    } else {
      var q := k / 10;
      DecimalRoundTrip(q);
      assert s[..|s| - 1] == Decimal(q);
    }
  }

  /** The numeral determines the number. */
  lemma DecimalInjective(a: nat, b: nat)
    requires Decimal(a) == Decimal(b)
    ensures a == b
  {
    DecimalRoundTrip(a);
    DecimalRoundTrip(b);
  }

  /** The names of one block: prefix followed by 1, 2, ..., n. */
  function BlockNames(prefix: string, n: nat): (r: seq<string>)
    ensures |r| == n && forall j :: 0 <= j < n ==> r[j] == prefix + Decimal(j + 1)
  {
    seq(n, j requires 0 <= j < n => prefix + Decimal(j + 1))
  }

  /** C_1..C_n, alpha_1..alpha_n, T1_1..T1_n. */
  function Names(n: nat): seq<string>
  {
    BlockNames("C_", n) + BlockNames("alpha_", n) + BlockNames("T1_", n)
  }

  /** Names with a common prefix differ when their numbers do. */
  lemma SamePrefix(prefix: string, a: nat, b: nat)
    requires a != b
    ensures prefix + Decimal(a) != prefix + Decimal(b)
  {
    if prefix + Decimal(a) == prefix + Decimal(b) {
      assert (prefix + Decimal(a))[|prefix|..] == Decimal(a);
      assert (prefix + Decimal(b))[|prefix|..] == Decimal(b);
      DecimalInjective(a, b);
    }
  }

  /** There are 3n names, unknown k's name is its block's prefix and its number
      within the block counted from 1, and no two unknowns share a name. */
  lemma {:induction false} NamesFacts(n: nat)
    ensures |Names(n)| == 3 * n
    ensures forall k :: 0 <= k < n ==> Names(n)[k] == "C_" + Decimal(k + 1)
    ensures forall k :: n <= k < 2 * n ==> Names(n)[k] == "alpha_" + Decimal(k - n + 1)
    ensures forall k :: 2 * n <= k < 3 * n ==> Names(n)[k] == "T1_" + Decimal(k - 2 * n + 1)
    ensures forall a, b :: 0 <= a < b < 3 * n ==> Names(n)[a] != Names(n)[b]
  {
    forall k | 0 <= k < 3 * n
      ensures Names(n)[k] == BlockPrefix(n, k) + Decimal(BlockNumber(n, k))
    {
      NameAt(n, k);
    }
    forall a, b | 0 <= a < b < 3 * n
      ensures Names(n)[a] != Names(n)[b]
    {
      NamesDiffer(n, a, b);
    }
  }

  /** The prefix of unknown k's name. */
  function BlockPrefix(n: nat, k: nat): string
  {
    if k < n then "C_" else if k < 2 * n then "alpha_" else "T1_"
  }

  /** The number in unknown k's name, counted from 1 within its block. */
  function BlockNumber(n: nat, k: nat): nat
  {
    if k < n then k + 1 else if k < 2 * n then k - n + 1 else k - 2 * n + 1
  }

  /** The name of unknown k. */
  lemma NameAt(n: nat, k: nat)
    requires k < 3 * n
    ensures |Names(n)| == 3 * n
    ensures Names(n)[k] == BlockPrefix(n, k) + Decimal(BlockNumber(n, k))
  {
    var r := Names(n);
    if k < n {
      assert r[k] == BlockNames("C_", n)[k];
    } else if k < 2 * n {
      assert r[k] == BlockNames("alpha_", n)[k - n];
    } else {
      assert r[k] == BlockNames("T1_", n)[k - 2 * n];
    }
  }

  /** Two unknowns never share a name. */
  lemma NamesDiffer(n: nat, a: nat, b: nat)
    requires a < b < 3 * n
    ensures Names(n)[a] != Names(n)[b]
  {
    NameAt(n, a);
    NameAt(n, b);
    var pa := BlockPrefix(n, a);
    var pb := BlockPrefix(n, b);
    if pa == pb {
      SamePrefix(pa, BlockNumber(n, a), BlockNumber(n, b));
    } else {
      assert (pa + Decimal(BlockNumber(n, a)))[0] == pa[0];
      assert (pb + Decimal(BlockNumber(n, b)))[0] == pb[0];
    }
  }

  // ---------------------------------------------------------------------------
  // rescale

  /** Every unknown multiplied by its own scale. */
  function RescaleData(x: seq<seq<C>>, uk: seq<real>): (r: seq<seq<C>>)
    requires |uk| == |x|
    ensures |r| == |x|
  {
    seq(|x|, k requires 0 <= k < |x| => ScaleImage(uk[k], x[k]))
  }

  /** The unknowns before index m scaled, the rest as given. */
  function ScaledBelow(x: seq<seq<C>>, uk: seq<real>, m: nat): (r: seq<seq<C>>)
    requires |uk| == |x|
    ensures |r| == |x|
  {
    seq(|x|, k requires 0 <= k < |x| => if k < m then ScaleImage(uk[k], x[k]) else x[k])
  }

  /** Once the index passes the last unknown, every unknown is scaled. */
  lemma ScaledBelowAll(x: seq<seq<C>>, uk: seq<real>)
    requires |uk| == |x|
    ensures ScaledBelow(x, uk, |x|) == RescaleData(x, uk)
  {
  }

  /** Each unknown's scale is applied to it once, so multiplying by the reciprocal
      scales afterwards restores every unknown, and unit scales change nothing. */
  lemma {:induction false} RescaleDataUndo(x: seq<seq<C>>, uk: seq<real>)
    requires |uk| == |x| && forall k :: 0 <= k < |uk| ==> uk[k] != 0.0
    ensures RescaleData(RescaleData(x, uk), seq(|uk|, k requires 0 <= k < |uk| => 1.0 / uk[k])) == x
    ensures RescaleData(x, Ones(|x|)) == x
  {
    var inv := seq(|uk|, k requires 0 <= k < |uk| => 1.0 / uk[k]);
    forall k | 0 <= k < |x|
      ensures RescaleData(RescaleData(x, uk), inv)[k] == x[k]
      ensures RescaleData(x, Ones(|x|))[k] == x[k]
    {
      ScaleImageUndo(uk[k], x[k]);
      ScaleImageUndo(1.0, x[k]);
    }
  }

  /** Python's index i into a list of length len: negative indices count from the end. */
  function PyIndex(len: nat, i: int): (r: int)
    ensures i < 0 ==> r == len + i
    ensures 0 <= i ==> r == i
  {
    if i < 0 then len + i else i
  }

  /** What `rescale` returns. */
  datatype Unknowns = Unknowns(data: seq<seq<C>>, unknownName: seq<string>, realValued: seq<bool>)

  // ---------------------------------------------------------------------------
  // The forward model

  /** One sample of field j: C * (-b0 * alpha * E + (1 - E) * b_j), with
      E = decay(t, T1) and C, alpha, T1 already multiplied by their scales. */
  function FieldSignal(decay: (real, C) -> C, tt: real, b0: real, bj: real, c: C, alpha: C, t1: C): C
  {
    Mul(c, Add(Scale(-b0, Mul(alpha, decay(tt, t1))), Scale(bj, Sub(One, decay(tt, t1)))))
  }

  /** The concentration entry of the Jacobian, uk_C times the bracket of the signal. */
  function GradC(decay: (real, C) -> C, tt: real, b0: real, bj: real, ukC: real, alpha: C, t1: C): C
  {
    Scale(ukC, Add(Scale(-b0, Mul(alpha, decay(tt, t1))), Scale(bj, Sub(One, decay(tt, t1)))))
  }

  /** The inversion-factor entry of the Jacobian: x_C * uk_C * uk_alpha * (-b0 * E). */
  function GradAlpha(decay: (real, C) -> C, tt: real, b0: real, ukC: real, ukA: real, xc: C, t1: C): C
  {
    Mul(Scale(ukA, Scale(ukC, xc)), Scale(-b0, decay(tt, t1)))
  }

  /** The signal is x_C times the concentration entry, and moving the scaled inversion
      factor by h moves the signal by h times the inversion-factor entry. */
  lemma FieldGradients(decay: (real, C) -> C, tt: real, b0: real, bj: real, ukC: real, ukA: real, xc: C, xa: C, t1: C, h: C)
    ensures FieldSignal(decay, tt, b0, bj, Scale(ukC, xc), Scale(ukA, xa), t1) == Mul(xc, GradC(decay, tt, b0, bj, ukC, Scale(ukA, xa), t1))
    ensures Sub(FieldSignal(decay, tt, b0, bj, Scale(ukC, xc), Scale(ukA, Add(xa, h)), t1),
                FieldSignal(decay, tt, b0, bj, Scale(ukC, xc), Scale(ukA, xa), t1))
            == Mul(h, GradAlpha(decay, tt, b0, ukC, ukA, xc, t1))
  {
    var e := decay(tt, t1);
    var c := Scale(ukC, xc);
    var a := Scale(ukA, xa);
    var g := Scale(ukA, h);
    var w := Scale(bj, Sub(One, e));
    var br := Add(Scale(-b0, Mul(a, e)), w);
    ScaleMul(ukC, xc, br);
    ScaleAdd(ukA, xa, h);
    var br2 := Add(Scale(-b0, Mul(Add(a, g), e)), w);
    MulAddLeft(a, g, e);
    ScaleAdd(-b0, Mul(a, e), Mul(g, e));
    MulDistAdd(c, br, Scale(-b0, Mul(g, e)));
    assert br2 == Add(br, Scale(-b0, Mul(g, e)));
    ScaleMul(-b0, g, e);
    ScaleMul(ukA, h, Scale(-b0, e));
    assert Mul(g, Scale(-b0, e)) == Scale(ukA, Mul(h, Scale(-b0, e)));
    ScaleMul(ukA, c, Scale(-b0, e));
    MulLeftSwap(c, h, Scale(-b0, e));
    MulLeftSwap(Scale(ukA, c), h, Scale(-b0, e));
    ScaleMul(ukA, c, Mul(h, Scale(-b0, e)));
    ScaleMul(ukA, h, Mul(c, Scale(-b0, e)));
  }

  /** The fields, their times and strengths, and the model's scales. */
  datatype Acq = Acq(t: seq<seq<real>>, b: seq<real>, b0: real, uk: seq<real>, n: nat)

  /** The arrays a forward evaluation reads: times and strengths of n fields, 3n scales
      and 3n images of p pixels. */
  ghost predicate Fits(a: Acq, x: seq<seq<C>>, p: nat)
  {
    a.n <= |a.t| && a.n <= |a.b| && |a.uk| == 3 * a.n && |x| == 3 * a.n
    && (forall k :: 0 <= k < |x| ==> |x[k]| == p)
  }

  /** The row after field j's block: |t[j]| * (j + 1). */
  function TimesEnd(t: seq<seq<real>>, j: nat): nat
    requires j < |t|
  {
    |t[j]| * (j + 1)
  }

  /** The block of every one of the n fields ends within the nScan rows. */
  predicate RowsFit(t: seq<seq<real>>, n: nat, nScan: nat)
  {
    n <= |t| && forall j :: 0 <= j < n ==> TimesEnd(t, j) <= nScan
  }

  /** Row i of field j's block: the signal at time t[j][i] at every pixel, from the
      scaled C_j, alpha_j and T1_j. */
  function BlockRow(decay: (real, C) -> C, a: Acq, x: seq<seq<C>>, p: nat, j: nat, i: nat): (r: seq<C>)
    requires j < a.n && j < |a.t| && j < |a.b| && i < |a.t[j]| && |a.uk| == 3 * a.n && |x| == 3 * a.n
    requires forall k :: 0 <= k < |x| ==> |x[k]| == p
    ensures |r| == p
  {
    var n := a.n;
    seq(p, q requires 0 <= q < p =>
      FieldSignal(decay, a.t[j][i], a.b0, a.b[j],
                  Scale(a.uk[j], x[j][q]), Scale(a.uk[n + j], x[n + j][q]),
                  Scale(a.uk[PyIndex(|a.uk|, j - n)], x[PyIndex(|x|, j - n)][q])))
  }

  /** The block of field j, one row per evolution time. */
  function Block(decay: (real, C) -> C, a: Acq, x: seq<seq<C>>, p: nat, j: nat): (r: seq<seq<C>>)
    requires j < a.n && a.n <= |a.t| && j < |a.b| && |a.uk| == 3 * a.n && |x| == 3 * a.n
    requires forall k :: 0 <= k < |x| ==> |x[k]| == p
    ensures |r| == |a.t[j]|
  {
    seq(|a.t[j]|, i requires 0 <= i < |a.t[j]| => BlockRow(decay, a, x, p, j, i))
  }

  /** Every field's block, in field order. */
  function Blocks(decay: (real, C) -> C, a: Acq, x: seq<seq<C>>, p: nat): (r: seq<seq<seq<C>>>)
    requires Fits(a, x, p)
    ensures |r| == a.n && forall j :: 0 <= j < a.n ==> |r[j]| == |a.t[j]|
  {
    seq(a.n, j requires 0 <= j < a.n => Block(decay, a, x, p, j))
  }

  /** An image of p zeros. */
  function ZeroImage(p: nat): (r: seq<C>)
    ensures |r| == p && forall q :: 0 <= q < p ==> r[q] == Zero
  {
    seq(p, _ => Zero)
  }

  /** rows with rows[start..start + |block|] replaced by block. */
  function Placed(rows: seq<seq<C>>, start: nat, block: seq<seq<C>>): (r: seq<seq<C>>)
    requires start + |block| <= |rows|
    ensures |r| == |rows|
  {
    seq(|rows|, k requires 0 <= k < |rows| => if start <= k < start + |block| then block[k - start] else rows[k])
  }

  /** The row after block j when every block starts at its own length times its
      index: |blocks[j]| * (j + 1). */
  function RowsEnd(blocks: seq<seq<seq<C>>>, j: nat): nat
    requires j < |blocks|
  {
    |blocks[j]| * (j + 1)
  }

  /** Every block ends within the nScan rows. */
  predicate Stackable(blocks: seq<seq<seq<C>>>, nScan: nat)
  {
    forall j :: 0 <= j < |blocks| ==> RowsEnd(blocks, j) <= nScan
  }

  /** nScan zero rows after blocks 0..k-1 were written, block j at rows
      [offset * j, offset * (j + 1)) with offset its own length. */
  function Stack(blocks: seq<seq<seq<C>>>, p: nat, nScan: nat, k: nat): (r: seq<seq<C>>)
    requires k <= |blocks| && Stackable(blocks, nScan)
    ensures |r| == nScan
  {
    if k == 0 then seq(nScan, _ => ZeroImage(p))
    else
      assert RowsEnd(blocks, k - 1) == |blocks[k - 1]| * (k - 1) + |blocks[k - 1]|;
      Placed(Stack(blocks, p, nScan, k - 1), |blocks[k - 1]| * (k - 1), blocks[k - 1])
  }

  /** a * m <= b * m for a <= b. */
  lemma {:induction false} MulLe(a: nat, b: nat, m: nat)
    requires a <= b
    ensures a * m <= b * m
  {
    if m > 0 {
      var l := m - 1;
      MulLe(a, b, l);
      assert a * m == a * l + a && b * m == b * l + b;
    }
  }

  /** i + j * m < (j + 1) * m <= k * m for i < m and j < k. */
  lemma RowBelow(i: nat, j: nat, k: nat, m: nat)
    requires i < m && j < k
    ensures i + j * m < k * m
  {
    var j1 := j + 1;
    MulLe(j1, k, m);
    assert j1 * m == j * m + m;
  }

  /** When every block has m rows, row j * m + i holds row i of block j once blocks
      0..k-1 with j < k were written. */
  lemma {:induction false} StackRow(blocks: seq<seq<seq<C>>>, p: nat, nScan: nat, m: nat, k: nat, j: nat, i: nat)
    requires k <= |blocks| && Stackable(blocks, nScan)
    requires forall b :: 0 <= b < |blocks| ==> |blocks[b]| == m
    requires j < k && i < m
    ensures i + j * m < nScan && Stack(blocks, p, nScan, k)[i + j * m] == blocks[j][i]
  {
    var l := k - 1;
    var start := m * l;
    assert RowsEnd(blocks, l) == start + m;
    var row := i + j * m;
    if j == l {
      assert row - start == i;
    } else {
      StackRow(blocks, p, nScan, m, l, j, i);
      RowBelow(i, j, l, m);
    }
  }

  /** When every block has m rows, the rows from k * m on are still zero once blocks
      0..k-1 were written. */
  lemma {:induction false} StackZero(blocks: seq<seq<seq<C>>>, p: nat, nScan: nat, m: nat, k: nat, r: nat)
    requires k <= |blocks| && Stackable(blocks, nScan)
    requires forall b :: 0 <= b < |blocks| ==> |blocks[b]| == m
    requires k * m <= r < nScan
    ensures Stack(blocks, p, nScan, k)[r] == ZeroImage(p)
  {
    if k > 0 {
      var l := k - 1;
      var start := m * l;
      assert RowsEnd(blocks, l) == start + m;
      MulLe(l, k, m);
      assert k * m == start + m;
      StackZero(blocks, p, nScan, m, l, r);
    }
  }

  /** With m times per field and n * m <= nScan every block of the forward model
      ends within the scan rows. */
  lemma BlocksStack(decay: (real, C) -> C, a: Acq, x: seq<seq<C>>, p: nat, nScan: nat, m: nat)
    requires Fits(a, x, p) && a.n * m <= nScan
    requires forall j :: 0 <= j < a.n ==> |a.t[j]| == m
    ensures Stackable(Blocks(decay, a, x, p), nScan)
  {
    var bs := Blocks(decay, a, x, p);
    forall j | 0 <= j < a.n
      ensures RowsEnd(bs, j) <= nScan
    {
      var j1 := j + 1;
      MulLe(j1, a.n, m);
      assert RowsEnd(bs, j) == j1 * m;
    }
  }

  /** For the forward model with m times per field and n * m <= nScan: row j * m + i
      holds the signal of field j at time t[j][i] at every pixel. */
  lemma ForwardRow(decay: (real, C) -> C, a: Acq, x: seq<seq<C>>, p: nat, nScan: nat, m: nat, j: nat, i: nat)
    requires Fits(a, x, p) && a.n * m <= nScan
    requires forall f :: 0 <= f < a.n ==> |a.t[f]| == m
    requires Stackable(Blocks(decay, a, x, p), nScan)
    requires j < a.n && i < m
    ensures i + j * m < nScan
    ensures Stack(Blocks(decay, a, x, p), p, nScan, a.n)[i + j * m] == BlockRow(decay, a, x, p, j, i)
  {
    var bs := Blocks(decay, a, x, p);
    StackRow(bs, p, nScan, m, a.n, j, i);
    assert bs[j] == Block(decay, a, x, p, j);
  }

  /** For the forward model with m times per field, the rows from n * m on stay zero. */
  lemma ForwardZeros(decay: (real, C) -> C, a: Acq, x: seq<seq<C>>, p: nat, nScan: nat, m: nat)
    requires Fits(a, x, p) && a.n * m <= nScan
    requires forall j :: 0 <= j < a.n ==> |a.t[j]| == m
    requires Stackable(Blocks(decay, a, x, p), nScan)
    ensures forall r :: a.n * m <= r < nScan ==> Stack(Blocks(decay, a, x, p), p, nScan, a.n)[r] == ZeroImage(p)
  {
    var bs := Blocks(decay, a, x, p);
    forall r | a.n * m <= r < nScan
      ensures Stack(bs, p, nScan, a.n)[r] == ZeroImage(p)
    {
      StackZero(bs, p, nScan, m, a.n, r);
    }
  }

  // ---------------------------------------------------------------------------
  // The initial guess

  /** The constant of unknown k: 0.1 for C, 1 for alpha, 300 / (j + 1) for T1_j. */
  function GuessValue(n: nat, k: nat): real
  {
    if k < n then 0.1 else if k < 2 * n then 1.0 else 300.0 / ((k - 2 * n) as real + 1.0)
  }

  /** 3n constant maps of p pixels. */
  function InitialGuess(n: nat, p: nat): (r: seq<seq<C>>)
    ensures |r| == 3 * n && forall k :: 0 <= k < 3 * n ==> |r[k]| == p
  {
    seq(3 * n, k requires 0 <= k < 3 * n => seq(p, _ => C(GuessValue(n, k), 0.0)))
  }

  /** The first m bounds rescaled by s, the others kept. */
  function RescaleFirst(bs: seq<Bound>, m: nat, s: real): (r: seq<Bound>)
    ensures |r| == |bs|
  {
    seq(|bs|, j requires 0 <= j < |bs| => if j < m then Rescaled(bs[j], s) else bs[j])
  }

  /** A real value between a constraint's bounds. */
  predicate Within(b: Bound, v: real)
  {
    Le(b.min, Fin(v)) && Le(Fin(v), b.max)
  }

  /** Row k of the table: the concentrations' [0, 1000] complex, the inversion
      factors' [0, 5] real, T1_j's [0, 2000 / (j + 1)] real. */
  lemma TableAt(n: nat, k: nat)
    requires k < 3 * n
    ensures |FfcTable(n)| == 3 * n
    ensures FfcTable(n)[k] == (if k < n then Bound(Fin(0.0), Fin(1000.0), false)
                               else if k < 2 * n then Bound(Fin(0.0), Fin(5.0), true)
                               else Bound(Fin(0.0), Fin(T1Max(k - 2 * n)), true))
  {
    if k < n {
      assert FfcTable(n)[k] == CBlock(n)[k];
    } else if k < 2 * n {
      assert FfcTable(n)[k] == AlphaBlock(n)[k - n];
    } else {
      assert FfcTable(n)[k] == T1Block(n)[k - 2 * n];
    }
  }

  /** The guess of unknown k against its bounds once the concentrations' bounds were
      multiplied by the data scale d > 0. */
  lemma GuessBoundAt(n: nat, d: real, k: nat)
    requires 0.0 < d && k < 3 * n
    ensures n <= k ==> Within(RescaleFirst(FfcTable(n), n, 1.0 / d)[k], GuessValue(n, k))
    ensures k < n ==> (Within(RescaleFirst(FfcTable(n), n, 1.0 / d)[k], GuessValue(n, k)) <==> 0.0001 <= d)
  {
    TableAt(n, k);
    var s := 1.0 / d;
    var b := RescaleFirst(FfcTable(n), n, s)[k];
    if k < n {
      assert 0.0 < s;
      assert 1000.0 / s == 1000.0 * d;
      assert 0.0 / s == 0.0;
      assert b == Bound(Fin(0.0), Fin(1000.0 * d), false);
    } else if 2 * n <= k {
      var dj := (k - 2 * n) as real + 1.0;
      DivMono(0.0, 300.0, dj);
      DivMono(300.0, 2000.0, dj);
    }
  }

  /** The guess is a real constant per unknown; against the table with the
      concentrations' bounds multiplied by a positive data scale d, every alpha and T1
      value lies within its bounds and every concentration value lies within its
      bounds exactly when d is at least 1e-4. */
  lemma GuessFeasible(n: nat, p: nat, d: real)
    requires 0.0 < d
    ensures forall k, q :: 0 <= k < 3 * n && 0 <= q < p ==> InitialGuess(n, p)[k][q] == C(GuessValue(n, k), 0.0)
    ensures forall k :: n <= k < 3 * n ==> Within(RescaleFirst(FfcTable(n), n, 1.0 / d)[k], GuessValue(n, k))
    ensures forall k :: 0 <= k < n ==> (Within(RescaleFirst(FfcTable(n), n, 1.0 / d)[k], GuessValue(n, k)) <==> 0.0001 <= d)
  {
    forall k | 0 <= k < 3 * n
      ensures n <= k ==> Within(RescaleFirst(FfcTable(n), n, 1.0 / d)[k], GuessValue(n, k))
      ensures k < n ==> (Within(RescaleFirst(FfcTable(n), n, 1.0 / d)[k], GuessValue(n, k)) <==> 0.0001 <= d)
    {
      GuessBoundAt(n, d, k);
    }
  }

  /** The views of two lists joined are the two lists of views joined. */
  lemma ViewsConcat(a: seq<Constraint>, b: seq<Constraint>)
    ensures Views(a + b) == Views(a) + Views(b)
  {
    assert forall j :: 0 <= j < |a + b| ==> Views(a + b)[j] == (Views(a) + Views(b))[j];
  }

  /** Two lists of distinct constraints with no object in common join to one. */
  lemma DistinctConcat(a: seq<Constraint>, b: seq<Constraint>)
    requires Distinct(a) && Distinct(b)
    requires forall c, e :: c in a && e in b ==> c != e
    ensures Distinct(a + b)
  {
    forall i, j | 0 <= i < j < |a + b|
      ensures (a + b)[i] != (a + b)[j]
    {
      if j < |a| {
      } else if |a| <= i {
      } else {
        assert (a + b)[i] in a && (a + b)[j] in b;
      }
    }
  }

  /** The constructor's three loops: n concentration constraints, n inversion-factor
      constraints and n relaxation-time constraints, each a fresh object. */
  method MakeFfcConstraints(n: nat) returns (cs: seq<Constraint>)
    ensures Views(cs) == FfcTable(n) && Distinct(cs) && |cs| == 3 * n
    ensures forall c :: c in cs ==> fresh(c)
  {
    var cs1 := Build(CBlock(n));
    var cs2 := Build(AlphaBlock(n));
    DistinctConcat(cs1, cs2);
    ViewsConcat(cs1, cs2);
    var cs12 := cs1 + cs2;
    var cs3 := Build(T1Block(n));
    DistinctConcat(cs12, cs3);
    ViewsConcat(cs12, cs3);
    cs := cs12 + cs3;
  }

  // ---------------------------------------------------------------------------
  // The model object

  class FfcModel {
    var t: seq<seq<real>>
    var b: seq<real>
    var b0: real
    var n: nat
    var unknowns: nat
    var ukScale: seq<real>
    var constraints: seq<Constraint>
    var nScan: nat
    var pixels: nat
    var dscale: real
    var guess: seq<seq<C>>

    ghost predicate Valid()
      reads this
    {
      unknowns == UnknownsTgv(n) + UnknownsH1 && |ukScale| == unknowns
      && |constraints| == unknowns && Distinct(constraints) && |b| == n
    }

    /** The acquisition a forward evaluation reads. */
    function Acquisition(): Acq
      reads this
    {
      Acq(t, b, b0, ukScale, n)
    }

    /** The times promoted to one row per field, b0 the given value or else the first
        field strength, 3n unknowns with unit scales and the constraint table appended
        block by block. A 1-D time list stands for a single field. */
    constructor (times: Arr, bs: seq<real>, b0Given: Solver.Option<real>, nScan0: nat, pixels0: nat)
      requires b0Given.None? ==> 0 < |bs|
      requires times.Vec? ==> |bs| == 1
      ensures Valid() && n == |bs|
      ensures t == Promote(times) && b == bs
      ensures b0 == (if b0Given.Some? then b0Given.value else bs[0])
      ensures ukScale == Ones(3 * n)
      ensures Views(constraints) == FfcTable(n)
      ensures forall c :: c in constraints ==> fresh(c)
      ensures nScan == nScan0 && pixels == pixels0 && guess == []
    {
      b0 := if b0Given.Some? then b0Given.value else bs[0];
      t := Promote(times);
      b := bs;
      n := |bs|;
      var count := UnknownsTgv(|bs|) + UnknownsH1;
      unknowns := count;
      var uk: seq<real> := [];
      var j := 0;
      while j < count
        invariant 0 <= j <= count && uk == Ones(j)
      {
        uk := uk + [1.0];
        j := j + 1;
      }
      ukScale := uk;
      var cs := MakeFfcConstraints(|bs|);
      constraints := cs;
      nScan := nScan0;
      pixels := pixels0;
      dscale := 1.0;
      guess := [];
    }

    /** `rescale`: a copy of x with unknown k multiplied by its own scale in three
        loops (the last one indexing from the end of the list), the names
        C_1..C_n, alpha_1..alpha_n, T1_1..T1_n, and the constraints' real flags. */
    method Rescale(x: seq<seq<C>>) returns (out: Unknowns)
      requires Valid() && |x| == unknowns
      ensures out.data == RescaleData(x, ukScale)
      ensures out.unknownName == Names(n)
      ensures out.realValued == Flags(Views(constraints))
    {
      var tmp := new seq<C>[|x|];
      forall k | 0 <= k < |x| {
        tmp[k] := x[k];
      }
      var names := ScaleBlock(tmp, x, ukScale, 0, n, "C_", []);
      names := ScaleBlock(tmp, x, ukScale, n, n, "alpha_", names);
      var fromEnd: int := 0 - n;
      names := ScaleBlock(tmp, x, ukScale, fromEnd, n, "T1_", names);
      var flags := RealFlags(constraints);
      ScaledBelowAll(x, ukScale);
      out := Unknowns(tmp[..], names, flags);
    }

    /** The `real` flag of every constraint, in order. */
    static method RealFlags(cs: seq<Constraint>) returns (flags: seq<bool>)
      ensures flags == Flags(Views(cs))
    {
      flags := [];
      var c := 0;
      while c < |cs|
        invariant 0 <= c <= |cs|
        invariant flags == Flags(Views(cs))[..c]
      {
        flags := flags + [cs[c].isReal];
        c := c + 1;
      }
    }

    /** One loop of `rescale`: for j < count, tmp[base + j] (base counted from the end
        when negative) is multiplied by its scale and prefix + str(1 + j) appended to
        the names. */
    static method ScaleBlock(tmp: array<seq<C>>, x: seq<seq<C>>, uk: seq<real>, base: int, count: nat,
                             prefix: string, names0: seq<string>) returns (names: seq<string>)
      requires |uk| == |x| == tmp.Length
      requires base < 0 ==> base + count <= 0
      requires 0 <= PyIndex(tmp.Length, base) && PyIndex(tmp.Length, base) + count <= tmp.Length
      requires tmp[..] == ScaledBelow(x, uk, PyIndex(tmp.Length, base))
      modifies tmp
      ensures tmp[..] == ScaledBelow(x, uk, PyIndex(tmp.Length, base) + count)
      ensures names == names0 + BlockNames(prefix, count)
    {
      var start := PyIndex(tmp.Length, base);
      names := names0;
      var j := 0;
      while j < count
        invariant 0 <= j <= count
        invariant tmp[..] == ScaledBelow(x, uk, start + j)
        invariant names == names0 + BlockNames(prefix, j)
      {
        var k := PyIndex(tmp.Length, base + j);
        assert k == start + j;
        tmp[k] := ScaleImage(uk[PyIndex(|uk|, base + j)], tmp[k]);
        assert tmp[..] == ScaledBelow(x, uk, start + j + 1);
        names := names + [prefix + Decimal(1 + j)];
        assert BlockNames(prefix, j + 1) == BlockNames(prefix, j) + [prefix + Decimal(1 + j)];
        j := j + 1;
      }
    }

    /** Writes block row by row into rows [start, start + |block|). */
    static method WriteBlock(buf: array<seq<C>>, start: nat, block: seq<seq<C>>)
      requires start + |block| <= buf.Length
      modifies buf
      ensures buf[..] == Placed(old(buf[..]), start, block)
    {
      var i := 0;
      while i < |block|
        invariant 0 <= i <= |block|
        invariant buf[..] == Placed(old(buf[..]), start, block[..i])
      {
        buf[start + i] := block[i];
        i := i + 1;
      }
    }

    /** `_execute_forward_3D`: a zeroed array of scan rows, then for each field j its
        block written into rows [offset * j, offset * (j + 1)), offset = |t[j]|. */
    method Forward3D(decay: (real, C) -> C, x: seq<seq<C>>) returns (s: seq<seq<C>>)
      requires Valid() && Fits(Acquisition(), x, pixels)
      requires RowsFit(t, n, nScan)
      ensures Stackable(Blocks(decay, Acquisition(), x, pixels), nScan)
      ensures s == Stack(Blocks(decay, Acquisition(), x, pixels), pixels, nScan, n)
    {
      var blocks := Blocks(decay, Acquisition(), x, pixels);
      assert forall j :: 0 <= j < n ==> RowsEnd(blocks, j) == TimesEnd(t, j);
      var zero := ZeroImage(pixels);
      var buf := new seq<C>[nScan](_ => zero);
      var j := 0;
      while j < n
        invariant 0 <= j <= n
        invariant buf[..] == Stack(blocks, pixels, nScan, j)
      {
        var offset := |t[j]|;
        assert RowsEnd(blocks, j) == offset * j + offset;
        WriteBlock(buf, offset * j, blocks[j]);
        j := j + 1;
      }
      s := buf[..];
    }

    /** constraints[j].update(scale) for every field j, in place. */
    method RescaleConcentrations(scale: real)
      requires Valid()
      modifies constraints
      ensures Views(constraints) == RescaleFirst(old(Views(constraints)), n, scale)
    {
      var j := 0;
      while j < n
        invariant 0 <= j <= n
        invariant forall k :: 0 <= k < j ==> constraints[k].View() == Rescaled(old(constraints[k].View()), scale)
        invariant forall k :: j <= k < |constraints| ==> constraints[k].View() == old(constraints[k].View())
      {
        constraints[j].Update(scale);
        j := j + 1;
      }
    }

    /** `computeInitialGuess`: stores the data scale, divides the concentrations'
        bounds by 1 / dscale in place and sets the constant guess; the other
        constraints are kept. */
    method ComputeInitialGuess(d: real)
      requires Valid() && d != 0.0
      modifies this, constraints
      ensures Valid() && dscale == d && guess == InitialGuess(n, pixels)
      ensures Views(constraints) == RescaleFirst(old(Views(constraints)), n, 1.0 / d)
      ensures constraints == old(constraints) && n == old(n) && ukScale == old(ukScale)
      ensures t == old(t) && b == old(b) && b0 == old(b0)
    {
      dscale := d;
      RescaleConcentrations(1.0 / d);
      guess := InitialGuess(n, pixels);
    }
  }
}
