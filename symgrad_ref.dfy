/** The reference construction of the symmetrised gradient in the unit tests: each
    difference is `zeros_like` with positions 1.. overwritten by the negated flip of the
    `np.diff` of the flipped array, and the six components are stacked and scaled by the
    weight of their unknown. The lemmas show that this construction is the backward-
    difference stencil model of `SymGrad3D`, in both array layouts. */
module SymGradRef {
  import opened Stencils
  import opened SymGrad3D

  function FlipAt(s: seq<real>, k: int): real
    requires 0 <= k < |s|
  {
    s[|s| - 1 - k]
  }

  /** np.flip of a line. */
  function Flip(s: seq<real>): (r: seq<real>)
    ensures |r| == |s|
  {
    seq(|s|, k requires 0 <= k < |s| => FlipAt(s, k))
  }

  function DiffAt(s: seq<real>, k: int): real
    requires 0 <= k < |s| - 1
  {
    s[k + 1] - s[k]
  }

  /** np.diff of a line: one element shorter, each the step to the next element. */
  function Diff(s: seq<real>): (r: seq<real>)
    ensures |s| == 0 ==> |r| == 0
    ensures |s| > 0 ==> |r| == |s| - 1
  {
    if |s| == 0 then [] else seq(|s| - 1, k requires 0 <= k < |s| - 1 => DiffAt(s, k))
  }

  /** Elementwise negation. */
  function Negate(s: seq<real>): (r: seq<real>)
    ensures |r| == |s|
  {
    seq(|s|, k requires 0 <= k < |s| => 0.0 - s[k])
  }

  /** `g = zeros_like(s); g[1:] = -flip(diff(flip(s)))` along one axis. */
  function NpBackward(s: seq<real>): (r: seq<real>)
    ensures |r| == |s|
  {
    if |s| == 0 then [] else [0.0] + Negate(Flip(Diff(Flip(s))))
  }

  /** A line read as a function of its index, zero outside. */
  function AtLine(s: seq<real>): int -> real
  {
    k => if 0 <= k < |s| then s[k] else 0.0
  }

  /** Flipping twice gives back the line. */
  lemma FlipFlip(s: seq<real>)
    ensures Flip(Flip(s)) == s
  {
    forall k | 0 <= k < |s|
      ensures Flip(Flip(s))[k] == s[k]
    {
      var m := |s| - 1 - k;
      assert Flip(s)[m] == s[|s| - 1 - m];
    }
  }

  /** Element k of the numpy construction is the backward difference at k, zero at
      the first element. */
  lemma NpBackwardAt(s: seq<real>, k: int)
    requires 0 <= k < |s|
    ensures NpBackward(s)[k] == BwdDiff(AtLine(s), k)
    ensures k == 0 ==> NpBackward(s)[k] == 0.0
  {
    if k > 0 {
      var n := |s|;
      var f := Flip(s);
      var d := Diff(f);
      var j := k - 1;
      var m := n - 2 - j;
      assert Flip(d)[j] == d[m];
      assert d[m] == f[m + 1] - f[m];
      assert f[m + 1] == s[k - 1];
      assert f[m] == s[k];
      assert NpBackward(s)[k] == Negate(Flip(d))[j];
      assert AtLine(s)(k) == s[k];
      assert AtLine(s)(k - 1) == s[k - 1];
    }
  }

  /** The whole line: the numpy construction is the backward difference everywhere. */
  lemma NpBackwardIsBwd(s: seq<real>)
    ensures |NpBackward(s)| == |s|
    ensures forall k :: 0 <= k < |s| ==> NpBackward(s)[k] == BwdDiff(AtLine(s), k)
  {
    forall k | 0 <= k < |s|
      ensures NpBackward(s)[k] == BwdDiff(AtLine(s), k)
    {
      NpBackwardAt(s, k);
    }
  }

  // ---------------------------------------------------------------------------
  // The reference tensor, non-streamed layout (unknown, slice, row, column, component)

  function LineOfX(nx: nat, v: Tensor, u: int, z: int, y: int, c: int): seq<real>
  {
    seq(nx, k => v(u, z, y, k, c))
  }

  function LineOfY(ny: nat, v: Tensor, u: int, z: int, x: int, c: int): seq<real>
  {
    seq(ny, k => v(u, z, k, x, c))
  }

  function LineOfZ(nz: nat, v: Tensor, u: int, y: int, x: int, c: int): seq<real>
  {
    seq(nz, k => v(u, k, y, x, c))
  }

  /** gradx, grady and gradz of the test at one point, component c of the input. */
  function GradX(nx: nat, v: Tensor, u: int, z: int, y: int, x: int, c: int): real
    requires 0 <= x < nx
  {
    NpBackward(LineOfX(nx, v, u, z, y, c))[x]
  }

  function GradY(ny: nat, v: Tensor, u: int, z: int, y: int, x: int, c: int): real
    requires 0 <= y < ny
  {
    NpBackward(LineOfY(ny, v, u, z, x, c))[y]
  }

  function GradZ(nz: nat, v: Tensor, u: int, z: int, y: int, x: int, c: int): real
    requires 0 <= z < nz
  {
    NpBackward(LineOfZ(nz, v, u, y, x, c))[z]
  }

  /** The test's stacked tensor at (u, z, y, x, c), before weighting. */
  function NpStack(nz: nat, ny: nat, nx: nat, dz: real, v: Tensor, u: int, z: int, y: int, x: int, c: int): real
    requires 0 <= z < nz && 0 <= y < ny && 0 <= x < nx
  {
    Stack(c, GradX(nx, v, u, z, y, x, 0), GradX(nx, v, u, z, y, x, 1), GradX(nx, v, u, z, y, x, 2),
          GradY(ny, v, u, z, y, x, 0), GradY(ny, v, u, z, y, x, 1), GradY(ny, v, u, z, y, x, 2),
          GradZ(nz, v, u, z, y, x, 0), GradZ(nz, v, u, z, y, x, 1), GradZ(nz, v, u, z, y, x, 2), dz)
  }

  /** The test's expected output at (u, z, y, x, c): the stacked tensor times weights[u]. */
  function NpSymGrad(nz: nat, ny: nat, nx: nat, w: int -> real, dz: real, v: Tensor,
                     u: int, z: int, y: int, x: int, c: int): real
    requires 0 <= z < nz && 0 <= y < ny && 0 <= x < nx
  {
    Weighted(w(u), NpStack(nz, ny, nx, dz, v, u, z, y, x, c))
  }

  lemma GradXIs(nx: nat, v: Tensor, u: int, z: int, y: int, x: int, c: int)
    requires 0 <= x < nx
    ensures GradX(nx, v, u, z, y, x, c) == DX(Comp(v, u, c), z, y, x)
  {
    var s := LineOfX(nx, v, u, z, y, c);
    NpBackwardAt(s, x);
    if x > 0 {
      assert AtLine(s)(x) == LineX(Comp(v, u, c), z, y)(x);
      assert AtLine(s)(x - 1) == LineX(Comp(v, u, c), z, y)(x - 1);
    }
  }

  lemma GradYIs(ny: nat, v: Tensor, u: int, z: int, y: int, x: int, c: int)
    requires 0 <= y < ny
    ensures GradY(ny, v, u, z, y, x, c) == DY(Comp(v, u, c), z, y, x)
  {
    var s := LineOfY(ny, v, u, z, x, c);
    NpBackwardAt(s, y);
    if y > 0 {
      assert AtLine(s)(y) == LineY(Comp(v, u, c), z, x)(y);
      assert AtLine(s)(y - 1) == LineY(Comp(v, u, c), z, x)(y - 1);
    }
  }

  lemma GradZIs(nz: nat, v: Tensor, u: int, z: int, y: int, x: int, c: int)
    requires 0 <= z < nz
    ensures GradZ(nz, v, u, z, y, x, c) == DZ(Comp(v, u, c), z, y, x)
  {
    var s := LineOfZ(nz, v, u, y, x, c);
    NpBackwardAt(s, z);
    if z > 0 {
      assert AtLine(s)(z) == LineZ(Comp(v, u, c), y, x)(z);
      assert AtLine(s)(z - 1) == LineZ(Comp(v, u, c), y, x)(z - 1);
    }
  }

  /** Before weighting, the test's stacked tensor is the stacked backward differences. */
  lemma NpStackIs(nz: nat, ny: nat, nx: nat, dz: real, v: Tensor, u: int, z: int, y: int, x: int, c: int)
    requires 0 <= z < nz && 0 <= y < ny && 0 <= x < nx
    ensures NpStack(nz, ny, nx, dz, v, u, z, y, x, c) == GradStack(dz, v, u, z, y, x, c)
  {
    GradXIs(nx, v, u, z, y, x, 0);
    GradXIs(nx, v, u, z, y, x, 1);
    GradXIs(nx, v, u, z, y, x, 2);
    GradYIs(ny, v, u, z, y, x, 0);
    GradYIs(ny, v, u, z, y, x, 1);
    GradYIs(ny, v, u, z, y, x, 2);
    GradZIs(nz, v, u, z, y, x, 0);
    GradZIs(nz, v, u, z, y, x, 1);
    GradZIs(nz, v, u, z, y, x, 2);
  }

  /** The stencil model produces exactly the tensor the test expects, at every point
      of the box and every component. */
  lemma NpSymGradMatches(nz: nat, ny: nat, nx: nat, w: int -> real, dz: real, v: Tensor,
                         u: int, z: int, y: int, x: int, c: int)
    requires 0 <= z < nz && 0 <= y < ny && 0 <= x < nx
    ensures SymGrad(w, dz, v, u, z, y, x, c) == NpSymGrad(nz, ny, nx, w, dz, v, u, z, y, x, c)
  {
    NpStackIs(nz, ny, nx, dz, v, u, z, y, x, c);
  }


  /** Each diagonal component is zero at the first index of its own axis. */
  lemma DiagonalFirstZero(w: int -> real, dz: real, v: Tensor, u: int, z: int, y: int, x: int)
    ensures x == 0 ==> SymGrad(w, dz, v, u, z, y, x, 0) == 0.0
    ensures y == 0 ==> SymGrad(w, dz, v, u, z, y, x, 1) == 0.0
    ensures z == 0 ==> SymGrad(w, dz, v, u, z, y, x, 2) == 0.0
  {
  }

  // ---------------------------------------------------------------------------
  // The streamed layout (slice, unknown, row, column, component)

  /** The streamed array holding the same data: slice first, unknown second. */
  function Streamed(v: Tensor): Tensor
  {
    (z, u, y, x, c) => v(u, z, y, x, c)
  }

  /** gradx, grady and gradz of the streamed test, on lines of the streamed array. */
  function StreamedGradX(nx: nat, vs: Tensor, z: int, u: int, y: int, x: int, c: int): real
    requires 0 <= x < nx
  {
    NpBackward(seq(nx, k => vs(z, u, y, k, c)))[x]
  }

  function StreamedGradY(ny: nat, vs: Tensor, z: int, u: int, y: int, x: int, c: int): real
    requires 0 <= y < ny
  {
    NpBackward(seq(ny, k => vs(z, u, k, x, c)))[y]
  }

  /** The z-difference of the streamed test runs along axis 0. */
  function StreamedGradZ(nz: nat, vs: Tensor, z: int, u: int, y: int, x: int, c: int): real
    requires 0 <= z < nz
  {
    NpBackward(seq(nz, k => vs(k, u, y, x, c)))[z]
  }

  /** The streamed test's stacked tensor at (z, u, y, x, c), before weighting. */
  function StreamedStack(nz: nat, ny: nat, nx: nat, dz: real, vs: Tensor,
                         z: int, u: int, y: int, x: int, c: int): real
    requires 0 <= z < nz && 0 <= y < ny && 0 <= x < nx
  {
    Stack(c, StreamedGradX(nx, vs, z, u, y, x, 0), StreamedGradX(nx, vs, z, u, y, x, 1),
          StreamedGradX(nx, vs, z, u, y, x, 2),
          StreamedGradY(ny, vs, z, u, y, x, 0), StreamedGradY(ny, vs, z, u, y, x, 1),
          StreamedGradY(ny, vs, z, u, y, x, 2),
          StreamedGradZ(nz, vs, z, u, y, x, 0), StreamedGradZ(nz, vs, z, u, y, x, 1),
          StreamedGradZ(nz, vs, z, u, y, x, 2), dz)
  }

  /** The streamed test's expected output at (z, u, y, x, c): weights[u] broadcasts
      along axis 1. */
  function NpSymGradStreamed(nz: nat, ny: nat, nx: nat, w: int -> real, dz: real, vs: Tensor,
                             z: int, u: int, y: int, x: int, c: int): real
    requires 0 <= z < nz && 0 <= y < ny && 0 <= x < nx
  {
    Weighted(w(u), StreamedStack(nz, ny, nx, dz, vs, z, u, y, x, c))
  }

  /** Each streamed difference is the non-streamed one with slice and unknown exchanged. */
  lemma StreamedGrads(nz: nat, ny: nat, nx: nat, v: Tensor, u: int, z: int, y: int, x: int, c: int)
    requires 0 <= z < nz && 0 <= y < ny && 0 <= x < nx
    ensures StreamedGradX(nx, Streamed(v), z, u, y, x, c) == GradX(nx, v, u, z, y, x, c)
    ensures StreamedGradY(ny, Streamed(v), z, u, y, x, c) == GradY(ny, v, u, z, y, x, c)
    ensures StreamedGradZ(nz, Streamed(v), z, u, y, x, c) == GradZ(nz, v, u, z, y, x, c)
  {
    var vs := Streamed(v);
    assert seq(nx, k => vs(z, u, y, k, c)) == LineOfX(nx, v, u, z, y, c);
    assert seq(ny, k => vs(z, u, k, x, c)) == LineOfY(ny, v, u, z, x, c);
    assert seq(nz, k => vs(k, u, y, x, c)) == LineOfZ(nz, v, u, y, x, c);
  }

  lemma StreamedStackIs(nz: nat, ny: nat, nx: nat, dz: real, v: Tensor, u: int, z: int, y: int, x: int, c: int)
    requires 0 <= z < nz && 0 <= y < ny && 0 <= x < nx
    ensures StreamedStack(nz, ny, nx, dz, Streamed(v), z, u, y, x, c) == NpStack(nz, ny, nx, dz, v, u, z, y, x, c)
  {
    StreamedGrads(nz, ny, nx, v, u, z, y, x, 0);
    StreamedGrads(nz, ny, nx, v, u, z, y, x, 1);
    StreamedGrads(nz, ny, nx, v, u, z, y, x, 2);
  }

  /** The streamed test expects the same tensor as the non-streamed one, with the slice
      and unknown axes exchanged; so the stencil model gives both. */
  lemma StreamedLayout(nz: nat, ny: nat, nx: nat, w: int -> real, dz: real, v: Tensor,
                       u: int, z: int, y: int, x: int, c: int)
    requires 0 <= z < nz && 0 <= y < ny && 0 <= x < nx
    ensures NpSymGradStreamed(nz, ny, nx, w, dz, Streamed(v), z, u, y, x, c) == NpSymGrad(nz, ny, nx, w, dz, v, u, z, y, x, c)
    ensures NpSymGradStreamed(nz, ny, nx, w, dz, Streamed(v), z, u, y, x, c) == SymGrad(w, dz, v, u, z, y, x, c)
  {
    StreamedStackIs(nz, ny, nx, dz, v, u, z, y, x, c);
    NpSymGradMatches(nz, ny, nx, w, dz, v, u, z, y, x, c);
  }
}
