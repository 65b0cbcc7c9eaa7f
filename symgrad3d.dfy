/** The three-dimensional symmetrised gradient of the TGV regulariser as the unit
    test defines it (`test_symmetrized_gradient.py`), and its weighted divergence.

    An input v holds, for every unknown u, slice z, row y and column x, a 3-vector
    (components c = 0, 1, 2 for the x, y and z directions); its symmetrised
    gradient holds a symmetric 3x3 tensor stored as (xx, yy, zz, xy, xz, yz)
    (c = 0 .. 5). Arrays are index functions (u, z, y, x, c) -> value; the box
    0 <= u < nu, 0 <= z < nz, 0 <= y < ny, 0 <= x < nx is where they are read.
    Differences are backward, zero at the first index; a slice-axis difference is
    multiplied by the slice spacing dz, and the tensor of unknown u by weights[u]. */
module SymGrad3D {
  import opened Sums
  import opened Stencils
  import opened Complex

  /** A scalar field over (slice, row, column). */
  type Field = (int, int, int) -> real

  /** A real array indexed (unknown, slice, row, column, component). */
  type Tensor = (int, int, int, int, int) -> real

  /** Component c of unknown u, as a scalar field. */
  function Comp(v: Tensor, u: int, c: int): Field
  {
    (z, y, x) => v(u, z, y, x, c)
  }

  /** The line of a along x through (z, y). */
  function LineX(a: Field, z: int, y: int): int -> real
  {
    k => a(z, y, k)
  }

  /** The line of a along y through (z, x). */
  function LineY(a: Field, z: int, x: int): int -> real
  {
    k => a(z, k, x)
  }

  /** The line of a along z through (y, x). */
  function LineZ(a: Field, y: int, x: int): int -> real
  {
    k => a(k, y, x)
  }

  /** Backward differences along each axis, zero at the first index. */
  function DX(a: Field, z: int, y: int, x: int): real
  {
    BwdDiff(LineX(a, z, y), x)
  }

  function DY(a: Field, z: int, y: int, x: int): real
  {
    BwdDiff(LineY(a, z, x), y)
  }

  function DZ(a: Field, z: int, y: int, x: int): real
  {
    BwdDiff(LineZ(a, y, x), z)
  }

  /** Their negative adjoints on a box of nx columns, ny rows and nz slices. */
  function DivX(nx: int, b: Field, z: int, y: int, x: int): real
  {
    BwdDiv(nx, LineX(b, z, y), x)
  }

  function DivY(ny: int, b: Field, z: int, y: int, x: int): real
  {
    BwdDiv(ny, LineY(b, z, x), y)
  }

  function DivZ(nz: int, b: Field, z: int, y: int, x: int): real
  {
    BwdDiv(nz, LineZ(b, y, x), z)
  }

  /** The six stored components from the nine first differences (of components 0 .. 2
      along x, y and z): the diagonal entries are the differences of each component along
      its own axis, an off-diagonal entry is the mean of the two mixed differences, and
      slice-axis differences carry dz. Components outside 0 .. 5 are zero. */
  function Stack(c: int, gx0: real, gx1: real, gx2: real, gy0: real, gy1: real, gy2: real,
                 gz0: real, gz1: real, gz2: real, dz: real): real
  {
    if c == 0 then gx0
    else if c == 1 then gy1
    else if c == 2 then gz2 * dz
    else if c == 3 then 0.5 * (gx1 + gy0)
    else if c == 4 then 0.5 * (gx2 + gz0 * dz)
    else if c == 5 then 0.5 * (gy2 + gz1 * dz)
    else 0.0
  }

  /** Component c of the unweighted symmetrised gradient of v at (u, z, y, x). */
  function GradStack(dz: real, v: Tensor, u: int, z: int, y: int, x: int, c: int): real
  {
    Stack(c, DX(Comp(v, u, 0), z, y, x), DX(Comp(v, u, 1), z, y, x), DX(Comp(v, u, 2), z, y, x),
          DY(Comp(v, u, 0), z, y, x), DY(Comp(v, u, 1), z, y, x), DY(Comp(v, u, 2), z, y, x),
          DZ(Comp(v, u, 0), z, y, x), DZ(Comp(v, u, 1), z, y, x), DZ(Comp(v, u, 2), z, y, x), dz)
  }

  /** Component c of the weighted symmetrised gradient of v at (u, z, y, x): the
      stacked differences times w(u). */
  function SymGrad(w: int -> real, dz: real, v: Tensor, u: int, z: int, y: int, x: int, c: int): real
  {
    Weighted(w(u), GradStack(dz, v, u, z, y, x, c))
  }

  /** A stacked entry scaled by the weight of its unknown. */
  function Weighted(s: real, t: real): real
  {
    s * t
  }

  /** Storage index of the tensor entry in row c (0 .. 2) and column x, y or z:
      (xx, xy, xz), (xy, yy, yz) and (xz, yz, zz) are stored at 0 3 4, 3 1 5, 4 5 2. */
  function IX(c: int): int
  {
    if c == 0 then 0 else if c == 1 then 3 else 4
  }

  function IY(c: int): int
  {
    if c == 0 then 3 else if c == 1 then 1 else 5
  }

  function IZ(c: int): int
  {
    if c == 0 then 4 else if c == 1 then 5 else 2
  }

  /** Component c of the weighted divergence of a symmetric tensor field q: row c of
      the tensor, differentiated along x, y and z (the latter carrying dz), in the
      pattern of the two-dimensional `update_w` kernel, times w(u). Components outside
      0 .. 2 are zero. */
  function SymDiv(nz: int, ny: int, nx: int, w: int -> real, dz: real, q: Tensor,
                  u: int, z: int, y: int, x: int, c: int): real
  {
    if 0 <= c < 3 then
      w(u) * (DivX(nx, Comp(q, u, IX(c)), z, y, x) + DivY(ny, Comp(q, u, IY(c)), z, y, x)
              + DivZ(nz, Comp(q, u, IZ(c)), z, y, x) * dz)
    else 0.0
  }

  // ---------------------------------------------------------------------------
  // Sums over a box

  /** f rearranged as a family of (column, row) grids indexed by the slice. */
  function Cube(f: Field): (int, int, int) -> real
  {
    (z, x, y) => f(z, y, x)
  }

  /** Sum of f over nz slices of ny rows of nx columns. */
  function Vol3(nz: int, ny: int, nx: int, f: Field): real
  {
    Sum(nz, SliceSums(nx, ny, Cube(f)))
  }

  /** h == a*f + b*g on the box. */
  ghost predicate CombOf(nz: int, ny: int, nx: int, a: real, f: Field, b: real, g: Field, h: Field)
  {
    forall z, y, x :: 0 <= z < nz && 0 <= y < ny && 0 <= x < nx ==> h(z, y, x) == a * f(z, y, x) + b * g(z, y, x)
  }

  /** Box sums are linear. */
  lemma Vol3Lin(nz: int, ny: int, nx: int, a: real, f: Field, b: real, g: Field, h: Field)
    requires CombOf(nz, ny, nx, a, f, b, g, h)
    ensures Vol3(nz, ny, nx, h) == a * Vol3(nz, ny, nx, f) + b * Vol3(nz, ny, nx, g)
  {
    forall z | 0 <= z < nz
      ensures SliceSums(nx, ny, Cube(h))(z) == a * SliceSums(nx, ny, Cube(f))(z) + b * SliceSums(nx, ny, Cube(g))(z)
    {
      SliceLin(nz, ny, nx, a, f, b, g, h, z);
    }
    SumLinear(nz, a, SliceSums(nx, ny, Cube(f)), b, SliceSums(nx, ny, Cube(g)), SliceSums(nx, ny, Cube(h)));
  }

  /** Slice z of Vol3Lin. */
  lemma SliceLin(nz: int, ny: int, nx: int, a: real, f: Field, b: real, g: Field, h: Field, z: int)
    requires CombOf(nz, ny, nx, a, f, b, g, h) && 0 <= z < nz
    ensures SliceSums(nx, ny, Cube(h))(z) == a * SliceSums(nx, ny, Cube(f))(z) + b * SliceSums(nx, ny, Cube(g))(z)
  {
    assert LinearComb(nx, ny, a, Slice(Cube(f), z), b, Slice(Cube(g), z), Slice(Cube(h), z));
    GridLinear(nx, ny, a, Slice(Cube(f), z), b, Slice(Cube(g), z), Slice(Cube(h), z));
  }

  /** Vol3Lin with the coefficients 1 and 2 of the diagonal and off-diagonal products. */
  lemma Vol3OneTwo(nz: int, ny: int, nx: int, f: Field, g: Field, h: Field)
    requires CombOf(nz, ny, nx, 1.0, f, 2.0, g, h)
    ensures Vol3(nz, ny, nx, h) == 1.0 * Vol3(nz, ny, nx, f) + 2.0 * Vol3(nz, ny, nx, g)
  {
    Vol3Lin(nz, ny, nx, 1.0, f, 2.0, g, h);
  }

  /** Linearity with the coefficients -1 and 0. */
  lemma Vol3Negated(nz: int, ny: int, nx: int, f: Field, h: Field)
    requires CombOf(nz, ny, nx, -1.0, f, 0.0, f, h)
    ensures Vol3(nz, ny, nx, h) == -1.0 * Vol3(nz, ny, nx, f) + 0.0 * Vol3(nz, ny, nx, f)
  {
    Vol3Lin(nz, ny, nx, -1.0, f, 0.0, f, h);
  }

  /** Pointwise sum of three fields. */
  function Plus3(f: Field, g: Field, h: Field): Field
  {
    (z, y, x) => f(z, y, x) + g(z, y, x) + h(z, y, x)
  }

  /** A constant multiple of a field. */
  function Times(c: real, f: Field): Field
  {
    (z, y, x) => c * f(z, y, x)
  }

  /** The box sum of a sum of three fields. */
  lemma Vol3Plus3(nz: int, ny: int, nx: int, f: Field, g: Field, h: Field)
    ensures Vol3(nz, ny, nx, Plus3(f, g, h)) == Vol3(nz, ny, nx, f) + Vol3(nz, ny, nx, g) + Vol3(nz, ny, nx, h)
  {
    var fg: Field := (z, y, x) => f(z, y, x) + g(z, y, x);
    Vol3Add(nz, ny, nx, f, g, fg);
    Vol3Add(nz, ny, nx, fg, h, Plus3(f, g, h));
  }

  /** The box sum of a pointwise sum. */
  lemma Vol3Add(nz: int, ny: int, nx: int, f: Field, g: Field, h: Field)
    requires forall z, y, x :: 0 <= z < nz && 0 <= y < ny && 0 <= x < nx ==> h(z, y, x) == f(z, y, x) + g(z, y, x)
    ensures Vol3(nz, ny, nx, h) == Vol3(nz, ny, nx, f) + Vol3(nz, ny, nx, g)
  {
    Vol3Lin(nz, ny, nx, 1.0, f, 1.0, g, h);
  }

  // ---------------------------------------------------------------------------
  // One difference against its divergence, along each axis

  function DxTimes(a: Field, b: Field): Field
  {
    (z, y, x) => DX(a, z, y, x) * b(z, y, x)
  }

  function DyTimes(a: Field, b: Field): Field
  {
    (z, y, x) => DY(a, z, y, x) * b(z, y, x)
  }

  function DzTimes(a: Field, b: Field): Field
  {
    (z, y, x) => DZ(a, z, y, x) * b(z, y, x)
  }

  function TimesDivX(nx: int, a: Field, b: Field): Field
  {
    (z, y, x) => a(z, y, x) * DivX(nx, b, z, y, x)
  }

  function TimesDivY(ny: int, a: Field, b: Field): Field
  {
    (z, y, x) => a(z, y, x) * DivY(ny, b, z, y, x)
  }

  function TimesDivZ(nz: int, a: Field, b: Field): Field
  {
    (z, y, x) => a(z, y, x) * DivZ(nz, b, z, y, x)
  }

  /** The x-, y- and z-lines of a field read through the grid views of the box sums. */
  lemma ViewLines(nz: int, ny: int, nx: int, f: Field, z: int, y: int, x: int)
    ensures Sum(nx, Row(Slice(Cube(f), z), y)) == Sum(nx, LineX(f, z, y))
    ensures Sum(ny, Col(Slice(Cube(f), z), x)) == Sum(ny, LineY(f, z, x))
    ensures Sum(nz, Fibre(Cube(f), x, y)) == Sum(nz, LineZ(f, y, x))
  {
    SumExt(nx, Row(Slice(Cube(f), z), y), LineX(f, z, y));
    SumExt(ny, Col(Slice(Cube(f), z), x), LineY(f, z, x));
    SumExt(nz, Fibre(Cube(f), x, y), LineZ(f, y, x));
  }

  /** The summands of LineCancelX at index k. */
  lemma LinePointX(nx: int, a: Field, b: Field, z: int, y: int, k: int)
    ensures LineX(DxTimes(a, b), z, y)(k) == BwdDiff(LineX(a, z, y), k) * LineX(b, z, y)(k)
    ensures LineX(TimesDivX(nx, a, b), z, y)(k) == LineX(a, z, y)(k) * BwdDiv(nx, LineX(b, z, y), k)
  {
    assert LineX(DxTimes(a, b), z, y)(k) == DX(a, z, y, k) * b(z, y, k);
    assert LineX(TimesDivX(nx, a, b), z, y)(k) == a(z, y, k) * DivX(nx, b, z, y, k);
    assert LineX(a, z, y)(k) == a(z, y, k) && LineX(b, z, y)(k) == b(z, y, k);
  }

  /** The x-line of the product fields as BwdAdjoint1 wants them. */
  lemma LinePairsX(nx: int, a: Field, b: Field, z: int, y: int)
    ensures forall k {:trigger LineX(DxTimes(a, b), z, y)(k)} :: 0 <= k < nx ==>
      LineX(DxTimes(a, b), z, y)(k) == BwdDiff(LineX(a, z, y), k) * LineX(b, z, y)(k)
    ensures forall k {:trigger LineX(TimesDivX(nx, a, b), z, y)(k)} :: 0 <= k < nx ==>
      LineX(TimesDivX(nx, a, b), z, y)(k) == LineX(a, z, y)(k) * BwdDiv(nx, LineX(b, z, y), k)
  {
    forall k | 0 <= k < nx
      ensures LineX(DxTimes(a, b), z, y)(k) == BwdDiff(LineX(a, z, y), k) * LineX(b, z, y)(k)
      ensures LineX(TimesDivX(nx, a, b), z, y)(k) == LineX(a, z, y)(k) * BwdDiv(nx, LineX(b, z, y), k)
    {
      LinePointX(nx, a, b, z, y, k);
    }
  }

  /** Summation by parts on the x-line through (z, y). */
  lemma LineCancelX(nx: int, a: Field, b: Field, z: int, y: int)
    ensures Sum(nx, LineX(DxTimes(a, b), z, y)) + Sum(nx, LineX(TimesDivX(nx, a, b), z, y)) == 0.0
  {
    LinePairsX(nx, a, b, z, y);
    BwdAdjoint1(nx, LineX(a, z, y), LineX(b, z, y), LineX(DxTimes(a, b), z, y), LineX(TimesDivX(nx, a, b), z, y));
  }

  /** The summands of LineCancelY at index k. */
  lemma LinePointY(ny: int, a: Field, b: Field, z: int, x: int, k: int)
    ensures LineY(DyTimes(a, b), z, x)(k) == BwdDiff(LineY(a, z, x), k) * LineY(b, z, x)(k)
    ensures LineY(TimesDivY(ny, a, b), z, x)(k) == LineY(a, z, x)(k) * BwdDiv(ny, LineY(b, z, x), k)
  {
    assert LineY(DyTimes(a, b), z, x)(k) == DY(a, z, k, x) * b(z, k, x);
    assert LineY(TimesDivY(ny, a, b), z, x)(k) == a(z, k, x) * DivY(ny, b, z, k, x);
    assert LineY(a, z, x)(k) == a(z, k, x) && LineY(b, z, x)(k) == b(z, k, x);
  }

  /** The y-line of the product fields as BwdAdjoint1 wants them. */
  lemma LinePairsY(ny: int, a: Field, b: Field, z: int, x: int)
    ensures forall k {:trigger LineY(DyTimes(a, b), z, x)(k)} :: 0 <= k < ny ==>
      LineY(DyTimes(a, b), z, x)(k) == BwdDiff(LineY(a, z, x), k) * LineY(b, z, x)(k)
    ensures forall k {:trigger LineY(TimesDivY(ny, a, b), z, x)(k)} :: 0 <= k < ny ==>
      LineY(TimesDivY(ny, a, b), z, x)(k) == LineY(a, z, x)(k) * BwdDiv(ny, LineY(b, z, x), k)
  {
    forall k | 0 <= k < ny
      ensures LineY(DyTimes(a, b), z, x)(k) == BwdDiff(LineY(a, z, x), k) * LineY(b, z, x)(k)
      ensures LineY(TimesDivY(ny, a, b), z, x)(k) == LineY(a, z, x)(k) * BwdDiv(ny, LineY(b, z, x), k)
    {
      LinePointY(ny, a, b, z, x, k);
    }
  }

  /** Summation by parts on the y-line through (z, x). */
  lemma LineCancelY(ny: int, a: Field, b: Field, z: int, x: int)
    ensures Sum(ny, LineY(DyTimes(a, b), z, x)) + Sum(ny, LineY(TimesDivY(ny, a, b), z, x)) == 0.0
  {
    LinePairsY(ny, a, b, z, x);
    BwdAdjoint1(ny, LineY(a, z, x), LineY(b, z, x), LineY(DyTimes(a, b), z, x), LineY(TimesDivY(ny, a, b), z, x));
  }

  /** The summands of LineCancelZ at index k. */
  lemma LinePointZ(nz: int, a: Field, b: Field, y: int, x: int, k: int)
    ensures LineZ(DzTimes(a, b), y, x)(k) == BwdDiff(LineZ(a, y, x), k) * LineZ(b, y, x)(k)
    ensures LineZ(TimesDivZ(nz, a, b), y, x)(k) == LineZ(a, y, x)(k) * BwdDiv(nz, LineZ(b, y, x), k)
  {
    assert LineZ(DzTimes(a, b), y, x)(k) == DZ(a, k, y, x) * b(k, y, x);
    assert LineZ(TimesDivZ(nz, a, b), y, x)(k) == a(k, y, x) * DivZ(nz, b, k, y, x);
    assert LineZ(a, y, x)(k) == a(k, y, x) && LineZ(b, y, x)(k) == b(k, y, x);
  }

  /** The z-line of the product fields as BwdAdjoint1 wants them. */
  lemma LinePairsZ(nz: int, a: Field, b: Field, y: int, x: int)
    ensures forall k {:trigger LineZ(DzTimes(a, b), y, x)(k)} :: 0 <= k < nz ==>
      LineZ(DzTimes(a, b), y, x)(k) == BwdDiff(LineZ(a, y, x), k) * LineZ(b, y, x)(k)
    ensures forall k {:trigger LineZ(TimesDivZ(nz, a, b), y, x)(k)} :: 0 <= k < nz ==>
      LineZ(TimesDivZ(nz, a, b), y, x)(k) == LineZ(a, y, x)(k) * BwdDiv(nz, LineZ(b, y, x), k)
  {
    forall k | 0 <= k < nz
      ensures LineZ(DzTimes(a, b), y, x)(k) == BwdDiff(LineZ(a, y, x), k) * LineZ(b, y, x)(k)
      ensures LineZ(TimesDivZ(nz, a, b), y, x)(k) == LineZ(a, y, x)(k) * BwdDiv(nz, LineZ(b, y, x), k)
    {
      LinePointZ(nz, a, b, y, x, k);
    }
  }

  /** Summation by parts on the z-line through (y, x). */
  lemma LineCancelZ(nz: int, a: Field, b: Field, y: int, x: int)
    ensures Sum(nz, LineZ(DzTimes(a, b), y, x)) + Sum(nz, LineZ(TimesDivZ(nz, a, b), y, x)) == 0.0
  {
    LinePairsZ(nz, a, b, y, x);
    BwdAdjoint1(nz, LineZ(a, y, x), LineZ(b, y, x), LineZ(DzTimes(a, b), y, x), LineZ(TimesDivZ(nz, a, b), y, x));
  }

  /** Summation by parts along x, line by line. */
  lemma PairX(nz: int, ny: int, nx: int, a: Field, b: Field)
    ensures Vol3(nz, ny, nx, DxTimes(a, b)) + Vol3(nz, ny, nx, TimesDivX(nx, a, b)) == 0.0
  {
    forall z | 0 <= z < nz
      ensures SliceSums(nx, ny, Cube(DxTimes(a, b)))(z) + SliceSums(nx, ny, Cube(TimesDivX(nx, a, b)))(z) == 0.0
    {
      forall y | 0 <= y < ny
        ensures Sum(nx, Row(Slice(Cube(DxTimes(a, b)), z), y)) + Sum(nx, Row(Slice(Cube(TimesDivX(nx, a, b)), z), y)) == 0.0
      {
        LineCancelX(nx, a, b, z, y);
        ViewLines(nz, ny, nx, DxTimes(a, b), z, y, 0);
        ViewLines(nz, ny, nx, TimesDivX(nx, a, b), z, y, 0);
      }
      GridCancel(nx, ny, Slice(Cube(DxTimes(a, b)), z), Slice(Cube(TimesDivX(nx, a, b)), z));
    }
    SumCancel(nz, SliceSums(nx, ny, Cube(DxTimes(a, b))), SliceSums(nx, ny, Cube(TimesDivX(nx, a, b))));
  }

  /** Summation by parts along y: within each slice, the grid sums are exchanged so
      that the y-lines become rows. */
  lemma PairY(nz: int, ny: int, nx: int, a: Field, b: Field)
    requires 0 <= nx
    ensures Vol3(nz, ny, nx, DyTimes(a, b)) + Vol3(nz, ny, nx, TimesDivY(ny, a, b)) == 0.0
  {
    forall z | 0 <= z < nz
      ensures SliceSums(nx, ny, Cube(DyTimes(a, b)))(z) + SliceSums(nx, ny, Cube(TimesDivY(ny, a, b)))(z) == 0.0
    {
      var l := Slice(Cube(DyTimes(a, b)), z);
      var r := Slice(Cube(TimesDivY(ny, a, b)), z);
      GridTranspose(nx, ny, l);
      GridTranspose(nx, ny, r);
      forall x | 0 <= x < nx
        ensures Sum(ny, Row(Transpose(l), x)) + Sum(ny, Row(Transpose(r), x)) == 0.0
      {
        LineCancelY(ny, a, b, z, x);
        ViewLines(nz, ny, nx, DyTimes(a, b), z, 0, x);
        ViewLines(nz, ny, nx, TimesDivY(ny, a, b), z, 0, x);
        SumExt(ny, Row(Transpose(l), x), Col(l, x));
        SumExt(ny, Row(Transpose(r), x), Col(r, x));
      }
      GridCancel(ny, nx, Transpose(l), Transpose(r));
    }
    SumCancel(nz, SliceSums(nx, ny, Cube(DyTimes(a, b))), SliceSums(nx, ny, Cube(TimesDivY(ny, a, b))));
  }

  /** Summation by parts along z, pixel by pixel after exchanging the sums. */
  lemma PairZ(nz: int, ny: int, nx: int, a: Field, b: Field)
    ensures Vol3(nz, ny, nx, DzTimes(a, b)) + Vol3(nz, ny, nx, TimesDivZ(nz, a, b)) == 0.0
  {
    SumOfGridSums(nz, nx, ny, Cube(DzTimes(a, b)));
    SumOfGridSums(nz, nx, ny, Cube(TimesDivZ(nz, a, b)));
    var sl := FibreSums(nz, Cube(DzTimes(a, b)));
    var sr := FibreSums(nz, Cube(TimesDivZ(nz, a, b)));
    forall y | 0 <= y < ny
      ensures Sum(nx, Row(sl, y)) + Sum(nx, Row(sr, y)) == 0.0
    {
      forall x | 0 <= x < nx
        ensures Row(sl, y)(x) + Row(sr, y)(x) == 0.0
      {
        LineCancelZ(nz, a, b, y, x);
        ViewLines(nz, ny, nx, DzTimes(a, b), 0, y, x);
        ViewLines(nz, ny, nx, TimesDivZ(nz, a, b), 0, y, x);
      }
      SumCancel(nx, Row(sl, y), Row(sr, y));
    }
    GridCancel(nx, ny, sl, sr);
  }

  /** A box sum of fields that agree on the box. */
  lemma Vol3Ext(nz: int, ny: int, nx: int, f: Field, g: Field)
    requires forall z, y, x :: 0 <= z < nz && 0 <= y < ny && 0 <= x < nx ==> f(z, y, x) == g(z, y, x)
    ensures Vol3(nz, ny, nx, f) == Vol3(nz, ny, nx, g)
  {
    Vol3Lin(nz, ny, nx, 1.0, f, 0.0, f, g);
  }

  // ---------------------------------------------------------------------------
  // The difference/divergence pairs of row c of one unknown

  /** The weight of the z-pairs: the unknown's weight times the slice spacing. */
  function ZWeight(w: int -> real, dz: real, u: int): real
  {
    w(u) * dz
  }

  /** Component c of v differentiated along x, y and z against row c of q, weighted
      (the z-pair also by dz). */
  function LhsRow(w: int -> real, dz: real, v: Tensor, q: Tensor, u: int, c: int, i: int, j: int, k: int): Field
  {
    Plus3(DxTimes(Comp(v, u, c), Times(w(u), Comp(q, u, i))),
          DyTimes(Comp(v, u, c), Times(w(u), Comp(q, u, j))),
          DzTimes(Comp(v, u, c), Times(ZWeight(w, dz, u), Comp(q, u, k))))
  }

  /** Component c of v against the divergences of the same pairs. */
  function RhsRow(nz: int, ny: int, nx: int, w: int -> real, dz: real, v: Tensor, q: Tensor, u: int, c: int, i: int, j: int, k: int): Field
  {
    Plus3(TimesDivX(nx, Comp(v, u, c), Times(w(u), Comp(q, u, i))),
          TimesDivY(ny, Comp(v, u, c), Times(w(u), Comp(q, u, j))),
          TimesDivZ(nz, Comp(v, u, c), Times(ZWeight(w, dz, u), Comp(q, u, k))))
  }

  /** The three pairs of row c cancel over the box. */
  lemma RowCancel(nz: int, ny: int, nx: int, w: int -> real, dz: real, v: Tensor, q: Tensor, u: int, c: int, i: int, j: int, k: int)
    requires 0 <= nx
    ensures Vol3(nz, ny, nx, LhsRow(w, dz, v, q, u, c, i, j, k)) + Vol3(nz, ny, nx, RhsRow(nz, ny, nx, w, dz, v, q, u, c, i, j, k)) == 0.0
  {
    Vol3Plus3(nz, ny, nx, DxTimes(Comp(v, u, c), Times(w(u), Comp(q, u, i))), DyTimes(Comp(v, u, c), Times(w(u), Comp(q, u, j))),
              DzTimes(Comp(v, u, c), Times(ZWeight(w, dz, u), Comp(q, u, k))));
    Vol3Plus3(nz, ny, nx, TimesDivX(nx, Comp(v, u, c), Times(w(u), Comp(q, u, i))),
              TimesDivY(ny, Comp(v, u, c), Times(w(u), Comp(q, u, j))),
              TimesDivZ(nz, Comp(v, u, c), Times(ZWeight(w, dz, u), Comp(q, u, k))));
    assert RhsRow(nz, ny, nx, w, dz, v, q, u, c, i, j, k)
        == Plus3(TimesDivX(nx, Comp(v, u, c), Times(w(u), Comp(q, u, i))),
                 TimesDivY(ny, Comp(v, u, c), Times(w(u), Comp(q, u, j))),
                 TimesDivZ(nz, Comp(v, u, c), Times(ZWeight(w, dz, u), Comp(q, u, k))));
    assert LhsRow(w, dz, v, q, u, c, i, j, k)
        == Plus3(DxTimes(Comp(v, u, c), Times(w(u), Comp(q, u, i))), DyTimes(Comp(v, u, c), Times(w(u), Comp(q, u, j))),
              DzTimes(Comp(v, u, c), Times(ZWeight(w, dz, u), Comp(q, u, k))));
    PairX(nz, ny, nx, Comp(v, u, c), Times(w(u), Comp(q, u, i)));
    PairY(nz, ny, nx, Comp(v, u, c), Times(w(u), Comp(q, u, j)));
    PairZ(nz, ny, nx, Comp(v, u, c), Times(ZWeight(w, dz, u), Comp(q, u, k)));
  }

  // ---------------------------------------------------------------------------
  // The adjointness identity of the test

  /** A real array over (unknown, slice, row, column). */
  type Grid4 = (int, int, int, int) -> real

  /** Unknown u of a four-index array, as a field. */
  function Unknown(f: Grid4, u: int): Field
  {
    (z, y, x) => f(u, z, y, x)
  }

  /** The box sums of each unknown. */
  function UnknownSums(nz: int, ny: int, nx: int, f: Grid4): int -> real
  {
    u => Vol3(nz, ny, nx, Unknown(f, u))
  }

  /** Sum of f over nu unknowns, nz slices, ny rows and nx columns. */
  function Vol4(nu: int, nz: int, ny: int, nx: int, f: Grid4): real
  {
    Sum(nu, UnknownSums(nz, ny, nx, f))
  }

  /** The pointwise relation h = a f + b g on the four-index box. */
  ghost predicate Comb4(nu: int, nz: int, ny: int, nx: int, a: real, f: Grid4, b: real, g: Grid4, h: Grid4)
  {
    forall u, z, y, x :: 0 <= u < nu && 0 <= z < nz && 0 <= y < ny && 0 <= x < nx ==>
      h(u, z, y, x) == a * f(u, z, y, x) + b * g(u, z, y, x)
  }

  lemma UnknownLin(nu: int, nz: int, ny: int, nx: int, a: real, f: Grid4, b: real, g: Grid4, h: Grid4, u: int)
    requires Comb4(nu, nz, ny, nx, a, f, b, g, h) && 0 <= u < nu
    ensures UnknownSums(nz, ny, nx, h)(u) == a * UnknownSums(nz, ny, nx, f)(u) + b * UnknownSums(nz, ny, nx, g)(u)
  {
    Vol3Lin(nz, ny, nx, a, Unknown(f, u), b, Unknown(g, u), Unknown(h, u));
  }

  /** Sums over the four-index box are linear. */
  lemma Vol4Lin(nu: int, nz: int, ny: int, nx: int, a: real, f: Grid4, b: real, g: Grid4, h: Grid4)
    requires Comb4(nu, nz, ny, nx, a, f, b, g, h)
    ensures Vol4(nu, nz, ny, nx, h) == a * Vol4(nu, nz, ny, nx, f) + b * Vol4(nu, nz, ny, nx, g)
  {
    forall u | 0 <= u < nu
      ensures UnknownSums(nz, ny, nx, h)(u) == a * UnknownSums(nz, ny, nx, f)(u) + b * UnknownSums(nz, ny, nx, g)(u)
    {
      UnknownLin(nu, nz, ny, nx, a, f, b, g, h, u);
    }
    SumLinear(nu, a, UnknownSums(nz, ny, nx, f), b, UnknownSums(nz, ny, nx, g), UnknownSums(nz, ny, nx, h));
  }

  /** The weighted symmetrised gradient of v as an array. */
  function GradOf(w: int -> real, dz: real, v: Tensor): Tensor
  {
    (u, z, y, x, c) => SymGrad(w, dz, v, u, z, y, x, c)
  }

  /** Products of components c0, c1 and c2 of two arrays, added at each point. */
  function Dot3(a: Tensor, b: Tensor, c0: int, c1: int, c2: int): Grid4
  {
    (u, z, y, x) => a(u, z, y, x, c0) * b(u, z, y, x, c0) + a(u, z, y, x, c1) * b(u, z, y, x, c1)
                  + a(u, z, y, x, c2) * b(u, z, y, x, c2)
  }

  /** Diagonal products of the gradient of v with q, components 0 .. 2. */
  function DiagDot(w: int -> real, dz: real, v: Tensor, q: Tensor): Grid4
  {
    Dot3(GradOf(w, dz, v), q, 0, 1, 2)
  }

  /** Off-diagonal products of the gradient of v with q, components 3 .. 5. */
  function OffDot(w: int -> real, dz: real, v: Tensor, q: Tensor): Grid4
  {
    Dot3(GradOf(w, dz, v), q, 3, 4, 5)
  }

  /** Component c of v times the negated divergence of q. */
  function NegDivComp(nz: int, ny: int, nx: int, w: int -> real, dz: real, v: Tensor, q: Tensor, u: int, c: int): Field
  {
    (z, y, x) => v(u, z, y, x, c) * (0.0 - SymDiv(nz, ny, nx, w, dz, q, u, z, y, x, c))
  }

  /** Products of v with the negated divergence of q, components 0 .. 2. */
  function NegDivDot(nz: int, ny: int, nx: int, w: int -> real, dz: real, v: Tensor, q: Tensor): Grid4
  {
    (u, z, y, x) => NegDivComp(nz, ny, nx, w, dz, v, q, u, 0)(z, y, x)
                  + NegDivComp(nz, ny, nx, w, dz, v, q, u, 1)(z, y, x)
                  + NegDivComp(nz, ny, nx, w, dz, v, q, u, 2)(z, y, x)
  }

  lemma LhsAlgebra(s: real, t: real, dz: real, gx0: real, gx1: real, gx2: real, gy0: real, gy1: real, gy2: real,
                   gz0: real, gz1: real, gz2: real, b0: real, b1: real, b2: real, b3: real, b4: real, b5: real,
                   g0: real, g1: real, g2: real, g3: real, g4: real, g5: real, dd: real, od: real,
                   l0: real, l1: real, l2: real)
    requires t == s * dz
    requires g0 == s * gx0 && g1 == s * gy1 && g2 == s * (gz2 * dz)
    requires g3 == s * (0.5 * (gx1 + gy0)) && g4 == s * (0.5 * (gx2 + gz0 * dz)) && g5 == s * (0.5 * (gy2 + gz1 * dz))
    requires dd == g0 * b0 + g1 * b1 + g2 * b2 && od == g3 * b3 + g4 * b4 + g5 * b5
    requires l0 == gx0 * (s * b0) + gy0 * (s * b3) + gz0 * (t * b4)
    requires l1 == gx1 * (s * b3) + gy1 * (s * b1) + gz1 * (t * b5)
    requires l2 == gx2 * (s * b4) + gy2 * (s * b5) + gz2 * (t * b2)
    ensures l0 + l1 + l2 == 1.0 * dd + 2.0 * od
  {
  }

  lemma SymGradDiagAt(w: int -> real, dz: real, v: Tensor, u: int, z: int, y: int, x: int,
                      s: real, gx0: real, gy1: real, gz2: real, g0: real, g1: real, g2: real)
    requires s == w(u)
    requires gx0 == DX(Comp(v, u, 0), z, y, x) && gy1 == DY(Comp(v, u, 1), z, y, x) && gz2 == DZ(Comp(v, u, 2), z, y, x)
    requires g0 == SymGrad(w, dz, v, u, z, y, x, 0) && g1 == SymGrad(w, dz, v, u, z, y, x, 1)
    requires g2 == SymGrad(w, dz, v, u, z, y, x, 2)
    ensures g0 == s * gx0 && g1 == s * gy1 && g2 == s * (gz2 * dz)
  {
  }

  lemma SymGradOffAt(w: int -> real, dz: real, v: Tensor, u: int, z: int, y: int, x: int, s: real,
                     gx1: real, gx2: real, gy0: real, gy2: real, gz0: real, gz1: real, g3: real, g4: real, g5: real)
    requires s == w(u)
    requires gx1 == DX(Comp(v, u, 1), z, y, x) && gx2 == DX(Comp(v, u, 2), z, y, x)
    requires gy0 == DY(Comp(v, u, 0), z, y, x) && gy2 == DY(Comp(v, u, 2), z, y, x)
    requires gz0 == DZ(Comp(v, u, 0), z, y, x) && gz1 == DZ(Comp(v, u, 1), z, y, x)
    requires g3 == SymGrad(w, dz, v, u, z, y, x, 3) && g4 == SymGrad(w, dz, v, u, z, y, x, 4)
    requires g5 == SymGrad(w, dz, v, u, z, y, x, 5)
    ensures g3 == s * (0.5 * (gx1 + gy0)) && g4 == s * (0.5 * (gx2 + gz0 * dz)) && g5 == s * (0.5 * (gy2 + gz1 * dz))
  {
  }

  lemma DiagDotAt(w: int -> real, dz: real, v: Tensor, q: Tensor, u: int, z: int, y: int, x: int,
                  b0: real, b1: real, b2: real, g0: real, g1: real, g2: real, dd: real)
    requires b0 == q(u, z, y, x, 0) && b1 == q(u, z, y, x, 1) && b2 == q(u, z, y, x, 2)
    requires g0 == SymGrad(w, dz, v, u, z, y, x, 0) && g1 == SymGrad(w, dz, v, u, z, y, x, 1)
    requires g2 == SymGrad(w, dz, v, u, z, y, x, 2)
    requires dd == Unknown(DiagDot(w, dz, v, q), u)(z, y, x)
    ensures dd == g0 * b0 + g1 * b1 + g2 * b2
  {
  }

  lemma OffDotAt(w: int -> real, dz: real, v: Tensor, q: Tensor, u: int, z: int, y: int, x: int,
                 b3: real, b4: real, b5: real, g3: real, g4: real, g5: real, od: real)
    requires b3 == q(u, z, y, x, 3) && b4 == q(u, z, y, x, 4) && b5 == q(u, z, y, x, 5)
    requires g3 == SymGrad(w, dz, v, u, z, y, x, 3) && g4 == SymGrad(w, dz, v, u, z, y, x, 4)
    requires g5 == SymGrad(w, dz, v, u, z, y, x, 5)
    requires od == Unknown(OffDot(w, dz, v, q), u)(z, y, x)
    ensures od == g3 * b3 + g4 * b4 + g5 * b5
  {
  }

  lemma ScaleDx(f: Field, s: real, b: Field, z: int, y: int, x: int, g: real, e: real, p: real)
    requires g == DX(f, z, y, x) && e == b(z, y, x) && p == DxTimes(f, Times(s, b))(z, y, x)
    ensures p == g * (s * e)
  {
  }

  lemma ScaleDy(f: Field, s: real, b: Field, z: int, y: int, x: int, g: real, e: real, p: real)
    requires g == DY(f, z, y, x) && e == b(z, y, x) && p == DyTimes(f, Times(s, b))(z, y, x)
    ensures p == g * (s * e)
  {
  }

  lemma ScaleDz(f: Field, s: real, b: Field, z: int, y: int, x: int, g: real, e: real, p: real)
    requires g == DZ(f, z, y, x) && e == b(z, y, x) && p == DzTimes(f, Times(s, b))(z, y, x)
    ensures p == g * (s * e)
  {
  }

  lemma LhsRowAt(w: int -> real, dz: real, v: Tensor, q: Tensor, u: int, c: int, i: int, j: int, k: int,
                 z: int, y: int, x: int, s: real, t: real, gx: real, gy: real, gz: real,
                 bi: real, bj: real, bk: real, l: real)
    requires s == w(u) && t == ZWeight(w, dz, u)
    requires gx == DX(Comp(v, u, c), z, y, x) && gy == DY(Comp(v, u, c), z, y, x) && gz == DZ(Comp(v, u, c), z, y, x)
    requires bi == q(u, z, y, x, i) && bj == q(u, z, y, x, j) && bk == q(u, z, y, x, k)
    requires l == LhsRow(w, dz, v, q, u, c, i, j, k)(z, y, x)
    ensures l == gx * (s * bi) + gy * (s * bj) + gz * (t * bk)
  {
    var f, qx, qy, qz := Comp(v, u, c), Comp(q, u, i), Comp(q, u, j), Comp(q, u, k);
    var px := DxTimes(f, Times(s, qx))(z, y, x);
    var py := DyTimes(f, Times(s, qy))(z, y, x);
    var pz := DzTimes(f, Times(t, qz))(z, y, x);
    assert LhsRow(w, dz, v, q, u, c, i, j, k)
        == Plus3(DxTimes(f, Times(s, qx)), DyTimes(f, Times(s, qy)), DzTimes(f, Times(t, qz)));
    assert l == px + py + pz;
    ScaleDx(f, s, qx, z, y, x, gx, bi, px);
    ScaleDy(f, s, qy, z, y, x, gy, bj, py);
    ScaleDz(f, t, qz, z, y, x, gz, bk, pz);
  }

  /** At one point, the diagonal products plus twice the off-diagonal products are
      the nine weighted difference pairs. */
  lemma LhsPoint(w: int -> real, dz: real, v: Tensor, q: Tensor, u: int, z: int, y: int, x: int)
    ensures Plus3(LhsRow(w, dz, v, q, u, 0, 0, 3, 4), LhsRow(w, dz, v, q, u, 1, 3, 1, 5), LhsRow(w, dz, v, q, u, 2, 4, 5, 2))(z, y, x)
         == 1.0 * Unknown(DiagDot(w, dz, v, q), u)(z, y, x) + 2.0 * Unknown(OffDot(w, dz, v, q), u)(z, y, x)
  {
    var s, t := w(u), ZWeight(w, dz, u);
    var gx0, gx1, gx2 := DX(Comp(v, u, 0), z, y, x), DX(Comp(v, u, 1), z, y, x), DX(Comp(v, u, 2), z, y, x);
    var gy0, gy1, gy2 := DY(Comp(v, u, 0), z, y, x), DY(Comp(v, u, 1), z, y, x), DY(Comp(v, u, 2), z, y, x);
    var gz0, gz1, gz2 := DZ(Comp(v, u, 0), z, y, x), DZ(Comp(v, u, 1), z, y, x), DZ(Comp(v, u, 2), z, y, x);
    var b0, b1, b2 := q(u, z, y, x, 0), q(u, z, y, x, 1), q(u, z, y, x, 2);
    var b3, b4, b5 := q(u, z, y, x, 3), q(u, z, y, x, 4), q(u, z, y, x, 5);
    var g0, g1, g2 := SymGrad(w, dz, v, u, z, y, x, 0), SymGrad(w, dz, v, u, z, y, x, 1), SymGrad(w, dz, v, u, z, y, x, 2);
    var g3, g4, g5 := SymGrad(w, dz, v, u, z, y, x, 3), SymGrad(w, dz, v, u, z, y, x, 4), SymGrad(w, dz, v, u, z, y, x, 5);
    var dd, od := Unknown(DiagDot(w, dz, v, q), u)(z, y, x), Unknown(OffDot(w, dz, v, q), u)(z, y, x);
    var l0 := LhsRow(w, dz, v, q, u, 0, 0, 3, 4)(z, y, x);
    var l1 := LhsRow(w, dz, v, q, u, 1, 3, 1, 5)(z, y, x);
    var l2 := LhsRow(w, dz, v, q, u, 2, 4, 5, 2)(z, y, x);
    assert Plus3(LhsRow(w, dz, v, q, u, 0, 0, 3, 4), LhsRow(w, dz, v, q, u, 1, 3, 1, 5), LhsRow(w, dz, v, q, u, 2, 4, 5, 2))(z, y, x)
        == l0 + l1 + l2;
    SymGradDiagAt(w, dz, v, u, z, y, x, s, gx0, gy1, gz2, g0, g1, g2);
    SymGradOffAt(w, dz, v, u, z, y, x, s, gx1, gx2, gy0, gy2, gz0, gz1, g3, g4, g5);
    DiagDotAt(w, dz, v, q, u, z, y, x, b0, b1, b2, g0, g1, g2, dd);
    OffDotAt(w, dz, v, q, u, z, y, x, b3, b4, b5, g3, g4, g5, od);
    LhsRowAt(w, dz, v, q, u, 0, 0, 3, 4, z, y, x, s, t, gx0, gy0, gz0, b0, b3, b4, l0);
    LhsRowAt(w, dz, v, q, u, 1, 3, 1, 5, z, y, x, s, t, gx1, gy1, gz1, b3, b1, b5, l1);
    LhsRowAt(w, dz, v, q, u, 2, 4, 5, 2, z, y, x, s, t, gx2, gy2, gz2, b4, b5, b2, l2);
    LhsAlgebra(s, t, dz, gx0, gx1, gx2, gy0, gy1, gy2, gz0, gz1, gz2, b0, b1, b2, b3, b4, b5,
               g0, g1, g2, g3, g4, g5, dd, od, l0, l1, l2);
  }

  lemma RowAlgebra(s: real, t: real, dz: real, a: real, dx: real, dy: real, dzz: real, d: real, nd: real, r: real)
    requires t == s * dz
    requires d == s * (dx + dy + dzz * dz)
    requires nd == a * (0.0 - d)
    requires r == a * (s * dx) + a * (s * dy) + a * (t * dzz)
    ensures nd == -1.0 * r + 0.0 * r
  {
  }

  /** Scaling the second factor of a divergence pair scales its value. */
  lemma ScaleDivX(nx: int, f: Field, s: real, b: Field, z: int, y: int, x: int, a: real, d: real, p: real)
    requires a == f(z, y, x) && d == DivX(nx, b, z, y, x) && p == TimesDivX(nx, f, Times(s, b))(z, y, x)
    ensures p == a * (s * d)
  {
  }

  lemma ScaleDivY(ny: int, f: Field, s: real, b: Field, z: int, y: int, x: int, a: real, d: real, p: real)
    requires a == f(z, y, x) && d == DivY(ny, b, z, y, x) && p == TimesDivY(ny, f, Times(s, b))(z, y, x)
    ensures p == a * (s * d)
  {
  }

  lemma ScaleDivZ(nz: int, f: Field, s: real, b: Field, z: int, y: int, x: int, a: real, d: real, p: real)
    requires a == f(z, y, x) && d == DivZ(nz, b, z, y, x) && p == TimesDivZ(nz, f, Times(s, b))(z, y, x)
    ensures p == a * (s * d)
  {
  }

  lemma RhsRowAt(nz: int, ny: int, nx: int, w: int -> real, dz: real, v: Tensor, q: Tensor, u: int, c: int, i: int, j: int, k: int,
                 z: int, y: int, x: int, a: real, s: real, t: real, dx: real, dy: real, dzz: real, r: real)
    requires a == v(u, z, y, x, c) && s == w(u) && t == ZWeight(w, dz, u)
    requires dx == DivX(nx, Comp(q, u, i), z, y, x) && dy == DivY(ny, Comp(q, u, j), z, y, x)
    requires dzz == DivZ(nz, Comp(q, u, k), z, y, x)
    requires r == RhsRow(nz, ny, nx, w, dz, v, q, u, c, i, j, k)(z, y, x)
    ensures r == a * (s * dx) + a * (s * dy) + a * (t * dzz)
  {
    var f, qx, qy, qz := Comp(v, u, c), Comp(q, u, i), Comp(q, u, j), Comp(q, u, k);
    var px := TimesDivX(nx, f, Times(s, qx))(z, y, x);
    var py := TimesDivY(ny, f, Times(s, qy))(z, y, x);
    var pz := TimesDivZ(nz, f, Times(t, qz))(z, y, x);
    assert RhsRow(nz, ny, nx, w, dz, v, q, u, c, i, j, k)
        == Plus3(TimesDivX(nx, f, Times(s, qx)), TimesDivY(ny, f, Times(s, qy)), TimesDivZ(nz, f, Times(t, qz)));
    assert r == px + py + pz;
    ScaleDivX(nx, f, s, qx, z, y, x, a, dx, px);
    ScaleDivY(ny, f, s, qy, z, y, x, a, dy, py);
    ScaleDivZ(nz, f, t, qz, z, y, x, a, dzz, pz);
  }

  lemma SymDivRow(nz: int, ny: int, nx: int, w: int -> real, dz: real, q: Tensor, u: int, c: int, i: int, j: int, k: int,
                  z: int, y: int, x: int, s: real, dx: real, dy: real, dzz: real, d: real)
    requires 0 <= c < 3 && i == IX(c) && j == IY(c) && k == IZ(c)
    requires s == w(u) && dx == DivX(nx, Comp(q, u, i), z, y, x) && dy == DivY(ny, Comp(q, u, j), z, y, x)
    requires dzz == DivZ(nz, Comp(q, u, k), z, y, x)
    requires d == SymDiv(nz, ny, nx, w, dz, q, u, z, y, x, c)
    ensures d == s * (dx + dy + dzz * dz)
  {
  }

  lemma NegDivCompAt(nz: int, ny: int, nx: int, w: int -> real, dz: real, v: Tensor, q: Tensor, u: int, c: int,
                     z: int, y: int, x: int, a: real, d: real, nd: real)
    requires a == v(u, z, y, x, c) && d == SymDiv(nz, ny, nx, w, dz, q, u, z, y, x, c)
    requires nd == NegDivComp(nz, ny, nx, w, dz, v, q, u, c)(z, y, x)
    ensures nd == a * (0.0 - d)
  {
  }

  /** At one point, component c of v against the negated divergence is minus the
      three divergence pairs of row c. */
  lemma NegDivPoint(nz: int, ny: int, nx: int, w: int -> real, dz: real, v: Tensor, q: Tensor, u: int, c: int, i: int, j: int, k: int,
                    z: int, y: int, x: int)
    requires 0 <= c < 3 && i == IX(c) && j == IY(c) && k == IZ(c)
    ensures NegDivComp(nz, ny, nx, w, dz, v, q, u, c)(z, y, x)
         == -1.0 * RhsRow(nz, ny, nx, w, dz, v, q, u, c, i, j, k)(z, y, x) + 0.0 * RhsRow(nz, ny, nx, w, dz, v, q, u, c, i, j, k)(z, y, x)
  {
    var a, s, t := v(u, z, y, x, c), w(u), ZWeight(w, dz, u);
    var dx, dy, dzz := DivX(nx, Comp(q, u, i), z, y, x), DivY(ny, Comp(q, u, j), z, y, x), DivZ(nz, Comp(q, u, k), z, y, x);
    var d := SymDiv(nz, ny, nx, w, dz, q, u, z, y, x, c);
    var nd := NegDivComp(nz, ny, nx, w, dz, v, q, u, c)(z, y, x);
    var r := RhsRow(nz, ny, nx, w, dz, v, q, u, c, i, j, k)(z, y, x);
    RhsRowAt(nz, ny, nx, w, dz, v, q, u, c, i, j, k, z, y, x, a, s, t, dx, dy, dzz, r);
    SymDivRow(nz, ny, nx, w, dz, q, u, c, i, j, k, z, y, x, s, dx, dy, dzz, d);
    NegDivCompAt(nz, ny, nx, w, dz, v, q, u, c, z, y, x, a, d, nd);
    RowAlgebra(s, t, dz, a, dx, dy, dzz, d, nd, r);
  }

  /** At every voxel of the box, the nine difference pairs of unknown u are the diagonal
      products plus twice the off-diagonal ones. */
  lemma LhsComb(nz: int, ny: int, nx: int, w: int -> real, dz: real, v: Tensor, q: Tensor, u: int)
    ensures CombOf(nz, ny, nx, 1.0, Unknown(DiagDot(w, dz, v, q), u), 2.0, Unknown(OffDot(w, dz, v, q), u),
                   Plus3(LhsRow(w, dz, v, q, u, 0, 0, 3, 4), LhsRow(w, dz, v, q, u, 1, 3, 1, 5), LhsRow(w, dz, v, q, u, 2, 4, 5, 2)))
  {
    forall z, y, x | 0 <= z < nz && 0 <= y < ny && 0 <= x < nx
      ensures Plus3(LhsRow(w, dz, v, q, u, 0, 0, 3, 4), LhsRow(w, dz, v, q, u, 1, 3, 1, 5), LhsRow(w, dz, v, q, u, 2, 4, 5, 2))(z, y, x)
           == 1.0 * Unknown(DiagDot(w, dz, v, q), u)(z, y, x) + 2.0 * Unknown(OffDot(w, dz, v, q), u)(z, y, x)
    {
      LhsPoint(w, dz, v, q, u, z, y, x);
    }
  }

  /** The box sum of the nine difference pairs of unknown u. */
  lemma LhsVol(nz: int, ny: int, nx: int, w: int -> real, dz: real, v: Tensor, q: Tensor, u: int)
    ensures Vol3(nz, ny, nx, Plus3(LhsRow(w, dz, v, q, u, 0, 0, 3, 4), LhsRow(w, dz, v, q, u, 1, 3, 1, 5), LhsRow(w, dz, v, q, u, 2, 4, 5, 2)))
         == 1.0 * Vol3(nz, ny, nx, Unknown(DiagDot(w, dz, v, q), u)) + 2.0 * Vol3(nz, ny, nx, Unknown(OffDot(w, dz, v, q), u))
  {
    LhsComb(nz, ny, nx, w, dz, v, q, u);
    Vol3OneTwo(nz, ny, nx, Unknown(DiagDot(w, dz, v, q), u), Unknown(OffDot(w, dz, v, q), u),
            Plus3(LhsRow(w, dz, v, q, u, 0, 0, 3, 4), LhsRow(w, dz, v, q, u, 1, 3, 1, 5), LhsRow(w, dz, v, q, u, 2, 4, 5, 2)));
  }

  /** The box sum of component c of v against the negated divergence. */
  lemma NegDivVol(nz: int, ny: int, nx: int, w: int -> real, dz: real, v: Tensor, q: Tensor, u: int, c: int, i: int, j: int, k: int)
    requires 0 <= c < 3 && i == IX(c) && j == IY(c) && k == IZ(c)
    ensures Vol3(nz, ny, nx, NegDivComp(nz, ny, nx, w, dz, v, q, u, c))
         == -1.0 * Vol3(nz, ny, nx, RhsRow(nz, ny, nx, w, dz, v, q, u, c, i, j, k))
          + 0.0 * Vol3(nz, ny, nx, RhsRow(nz, ny, nx, w, dz, v, q, u, c, i, j, k))
  {
    forall z, y, x | 0 <= z < nz && 0 <= y < ny && 0 <= x < nx
      ensures NegDivComp(nz, ny, nx, w, dz, v, q, u, c)(z, y, x)
           == -1.0 * RhsRow(nz, ny, nx, w, dz, v, q, u, c, i, j, k)(z, y, x) + 0.0 * RhsRow(nz, ny, nx, w, dz, v, q, u, c, i, j, k)(z, y, x)
    {
      NegDivPoint(nz, ny, nx, w, dz, v, q, u, c, i, j, k, z, y, x);
    }
    var r, n := RhsRow(nz, ny, nx, w, dz, v, q, u, c, i, j, k), NegDivComp(nz, ny, nx, w, dz, v, q, u, c);
    assert CombOf(nz, ny, nx, -1.0, r, 0.0, r, n);
    Vol3Negated(nz, ny, nx, r, n);
  }

  /** The identity for one unknown. */
  lemma UnknownAdjoint(nz: int, ny: int, nx: int, w: int -> real, dz: real, v: Tensor, q: Tensor, u: int)
    requires 0 <= nx
    ensures Vol3(nz, ny, nx, Unknown(DiagDot(w, dz, v, q), u)) + 2.0 * Vol3(nz, ny, nx, Unknown(OffDot(w, dz, v, q), u))
         == Vol3(nz, ny, nx, Unknown(NegDivDot(nz, ny, nx, w, dz, v, q), u))
  {
    LhsVol(nz, ny, nx, w, dz, v, q, u);
    Vol3Plus3(nz, ny, nx, LhsRow(w, dz, v, q, u, 0, 0, 3, 4), LhsRow(w, dz, v, q, u, 1, 3, 1, 5), LhsRow(w, dz, v, q, u, 2, 4, 5, 2));
    Vol3Ext(nz, ny, nx, Unknown(NegDivDot(nz, ny, nx, w, dz, v, q), u),
            Plus3(NegDivComp(nz, ny, nx, w, dz, v, q, u, 0), NegDivComp(nz, ny, nx, w, dz, v, q, u, 1),
                  NegDivComp(nz, ny, nx, w, dz, v, q, u, 2)));
    Vol3Plus3(nz, ny, nx, NegDivComp(nz, ny, nx, w, dz, v, q, u, 0), NegDivComp(nz, ny, nx, w, dz, v, q, u, 1),
              NegDivComp(nz, ny, nx, w, dz, v, q, u, 2));
    NegDivVol(nz, ny, nx, w, dz, v, q, u, 0, 0, 3, 4);
    NegDivVol(nz, ny, nx, w, dz, v, q, u, 1, 3, 1, 5);
    NegDivVol(nz, ny, nx, w, dz, v, q, u, 2, 4, 5, 2);
    RowCancel(nz, ny, nx, w, dz, v, q, u, 0, 0, 3, 4);
    RowCancel(nz, ny, nx, w, dz, v, q, u, 1, 3, 1, 5);
    RowCancel(nz, ny, nx, w, dz, v, q, u, 2, 4, 5, 2);
  }

  /** Per-unknown adjoint sums add up to the adjoint sum over the whole box. */
  lemma UnknownsGive(nu: int, nz: int, ny: int, nx: int, d: Grid4, o: Grid4, n: Grid4)
    requires forall u :: 0 <= u < nu ==>
               UnknownSums(nz, ny, nx, n)(u) == 1.0 * UnknownSums(nz, ny, nx, d)(u) + 2.0 * UnknownSums(nz, ny, nx, o)(u)
    ensures Vol4(nu, nz, ny, nx, d) + 2.0 * Vol4(nu, nz, ny, nx, o) == Vol4(nu, nz, ny, nx, n)
  {
    SumLinear(nu, 1.0, UnknownSums(nz, ny, nx, d), 2.0, UnknownSums(nz, ny, nx, o), UnknownSums(nz, ny, nx, n));
  }

  /** The weighted symmetrised gradient and divergence are adjoint in the sense the
      test checks: the diagonal products counted once plus the off-diagonal products
      counted twice equal the products of v with the negated divergence, summed over
      the whole box. */
  lemma SymGradAdjoint(nu: nat, nz: nat, ny: nat, nx: nat, w: int -> real, dz: real, v: Tensor, q: Tensor)
    ensures Vol4(nu, nz, ny, nx, DiagDot(w, dz, v, q)) + 2.0 * Vol4(nu, nz, ny, nx, OffDot(w, dz, v, q))
         == Vol4(nu, nz, ny, nx, NegDivDot(nz, ny, nx, w, dz, v, q))
  {
    forall u | 0 <= u < nu
      ensures UnknownSums(nz, ny, nx, NegDivDot(nz, ny, nx, w, dz, v, q))(u)
           == 1.0 * UnknownSums(nz, ny, nx, DiagDot(w, dz, v, q))(u) + 2.0 * UnknownSums(nz, ny, nx, OffDot(w, dz, v, q))(u)
    {
      UnknownAdjoint(nz, ny, nx, w, dz, v, q, u);
    }
    UnknownsGive(nu, nz, ny, nx, DiagDot(w, dz, v, q), OffDot(w, dz, v, q), NegDivDot(nz, ny, nx, w, dz, v, q));
  }
}
