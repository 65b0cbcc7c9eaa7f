/** Flattened image buffers.

    Every kernel addresses pixel (x, y) of an Nx-by-Ny image through the row-major
    index i = Nx*y + x. A buffer is a sequence of Nx*Ny entries; `At` reads it with
    a zero default outside its range so that the sums over images stay total. */
module Images {
  import opened Sums

  /** Row-major index of pixel (x, y) in an image nx pixels wide. */
  function Idx(nx: int, x: int, y: int): int
  {
    nx * y + x
  }

  /** Entry i of a buffer, zero outside it. */
  function At(s: seq<real>, i: int): real
  {
    if 0 <= i < |s| then s[i] else 0.0
  }

  /** The buffer as a grid function of (x, y). */
  function Img(nx: int, s: seq<real>): (int, int) -> real
  {
    (x, y) => Pixel(nx, s, x, y)
  }

  /** Pixel (x, y) of the buffer. */
  function Pixel(nx: int, s: seq<real>, x: int, y: int): real
  {
    At(s, Idx(nx, x, y))
  }

  lemma MulMono(a: int, b: int, c: int)
    requires 0 <= a && b <= c
    ensures a * b <= a * c
  {
  }

  /** One step of MulMono: a*b + a <= a*c when b < c. */
  lemma MulMonoStep(a: int, b: int, c: int)
    requires 0 <= a && b < c
    ensures a * b + a <= a * c
  {
    MulMono(a, b + 1, c);
    assert a * (b + 1) == a * b + a;
  }

  /** Every pixel of the image has its index inside the buffer. */
  lemma IdxInRange(nx: int, ny: int, x: int, y: int)
    requires 0 <= x < nx && 0 <= y < ny
    ensures 0 <= Idx(nx, x, y) < nx * ny
  {
    MulMono(nx, 0, y);
    MulMonoStep(nx, y, ny);
  }

  /** Distinct pixels have distinct indices. */
  lemma IdxInjective(nx: int, x: int, y: int, x': int, y': int)
    requires 0 <= x < nx && 0 <= x' < nx
    requires Idx(nx, x, y) == Idx(nx, x', y')
    ensures x == x' && y == y'
  {
    if y < y' {
      MulMonoStep(nx, y, y');
    } else if y' < y {
      MulMonoStep(nx, y', y);
    }
  }

  /** The neighbours the kernels read: i + 1, i - 1, i + Nx and i - Nx. */
  lemma IdxNeighbours(nx: int, x: int, y: int)
    ensures Idx(nx, x + 1, y) == Idx(nx, x, y) + 1
    ensures Idx(nx, x - 1, y) == Idx(nx, x, y) - 1
    ensures Idx(nx, x, y + 1) == Idx(nx, x, y) + nx
    ensures Idx(nx, x, y - 1) == Idx(nx, x, y) - nx
  {
    assert nx * (y + 1) == nx * y + nx;
    assert nx * (y - 1) == nx * y - nx;
  }

  /** Pixels are visited row by row: every pixel before (x, y) in that order has a
      smaller index. */
  lemma IdxBefore(nx: int, x: int, y: int, x': int, y': int)
    requires 0 <= x < nx && 0 <= x' < nx
    requires y' < y || (y' == y && x' < x)
    ensures Idx(nx, x', y') < Idx(nx, x, y)
  {
    if y' < y {
      MulMonoStep(nx, y', y);
    }
  }

  /** Every index of the buffer is the index of a pixel. */
  lemma PixelOf(nx: int, ny: int, i: int) returns (x: int, y: int)
    requires 0 <= nx && 0 <= ny && 0 <= i < nx * ny
    ensures 0 <= x < nx && 0 <= y < ny && Idx(nx, x, y) == i
  {
    x := i % nx;
    y := i / nx;
    if ny <= y {
      MulMono(nx, ny, y);
      assert false;
    }
  }

  /** The row and column of an index are its quotient and remainder by the width. */
  lemma IdxDivMod(nx: int, x: int, y: int)
    requires 0 <= x < nx
    ensures Idx(nx, x, y) / nx == y && Idx(nx, x, y) % nx == x
  {
    var q, r := Idx(nx, x, y) / nx, Idx(nx, x, y) % nx;
    assert Idx(nx, r, q) == Idx(nx, x, y);
    IdxInjective(nx, x, y, r, q);
  }

  /** Every pixel up to (x, y) in row order, (x, y) excluded, holds f of its
      coordinates. */
  ghost predicate Done<T>(s: seq<T>, nx: int, x: int, y: int, f: (int, int) -> T)
  {
    forall x', y' :: 0 <= x' < nx && 0 <= y' && (y' < y || (y' == y && x' < x)) ==>
      0 <= Idx(nx, x', y') < |s| && s[Idx(nx, x', y')] == f(x', y')
  }

  /** Storing f(x, y) at the index of (x, y) extends the finished part by one pixel. */
  lemma DoneStep<T>(s: seq<T>, nx: int, ny: int, x: int, y: int, f: (int, int) -> T)
    requires 0 <= x < nx && 0 <= y < ny && |s| == nx * ny
    requires Done(s, nx, x, y, f)
    ensures 0 <= Idx(nx, x, y) < |s|
    ensures Done(s[Idx(nx, x, y) := f(x, y)], nx, x + 1, y, f)
  {
    IdxInRange(nx, ny, x, y);
    var s' := s[Idx(nx, x, y) := f(x, y)];
    forall x', y' | 0 <= x' < nx && 0 <= y' && (y' < y || (y' == y && x' < x + 1))
      ensures 0 <= Idx(nx, x', y') < |s'| && s'[Idx(nx, x', y')] == f(x', y')
    {
      if y' < y || x' < x {
        IdxBefore(nx, x, y, x', y');
      }
    }
  }

  /** A finished row is the start of the next one. */
  lemma DoneRow<T>(s: seq<T>, nx: int, y: int, f: (int, int) -> T)
    requires Done(s, nx, nx, y, f)
    ensures Done(s, nx, 0, y + 1, f)
  {
  }

  /** One launch of a kernel over an nx-by-ny global range: the work item at (x, y)
      stores f(x, y) at index Nx*y + x. The work items are independent, so visiting
      them row by row gives the same buffer as any parallel schedule. */
  method Launch<T>(out: array<T>, nx: int, ny: int, f: (int, int) -> T)
    requires 0 <= nx && 0 <= ny && out.Length == nx * ny
    modifies out
    ensures forall x, y :: 0 <= x < nx && 0 <= y < ny ==>
      0 <= Idx(nx, x, y) < out.Length && out[Idx(nx, x, y)] == f(x, y)
  {
    var y := 0;
    while y < ny
      invariant 0 <= y <= ny
      invariant Done(out[..], nx, 0, y, f)
    {
      var x := 0;
      while x < nx
        invariant 0 <= x <= nx
        invariant Done(out[..], nx, x, y, f)
      {
        DoneStep(out[..], nx, ny, x, y, f);
        out[Idx(nx, x, y)] := f(x, y);
        x := x + 1;
      }
      DoneRow(out[..], nx, y, f);
      y := y + 1;
    }
  }
}
