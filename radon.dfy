/** The parallel-beam projector pair of the reconstruction engine.

    `radon` integrates every channel image along the rays of each projection: the
    ray of projection j through detector bin i picks pixel (x, y) with the weight
    Hat(x*o.x + y*o.y + o.z - i), where o is the projection's geometry record.
    `radon_ad` spreads each bin back over the pixels with the same weight, written
    as a linear interpolation between the two bins around the pixel's detector
    coordinate. Both divide by the same `scale`.

    Layouts: channel k of the image is the X-by-Y block at k*X*Y; the sinogram of
    channel k is the I-by-J block at k*I*J, bin i of projection j at j*I + i.
    Channel k belongs to scan k / CS and uses the geometry ofs[scan*J + j].

    Each float2 sample is a pair of lanes that both kernels weight identically;
    the model follows one lane. */
module Radon {
  import opened Sums
  import opened Images

  type Pos = n: int | 0 < n witness 1
  type NonZero = r: real | r != 0.0 witness 1.0

  /** The float4 geometry of one projection: pixel (x, y) lies at detector coordinate
      x*o.x + y*o.y + o.z; o.w is 1/o.x, or zero for a ray snapped to vertical. */
  datatype Ofs = Ofs(x: real, y: real, z: real, w: real)

  /** The launch geometry shared by both kernels: the geometry table, the image
      size X by Y, I detector bins, J projections, CS channels per scan and the
      normalisation `scale`. */
  datatype Geom = Geom(ofs: seq<Ofs>, X: Pos, Y: Pos, I: Pos, J: Pos, CS: Pos, scale: NonZero)

  /** A ray whose o.w is the reciprocal of a non-zero slope o.x. */
  ghost predicate Reciprocal(o: Ofs)
  {
    o.x != 0.0 ==> o.x * o.w == 1.0
  }

  /** Every ray of the geometry table is Reciprocal. */
  ghost predicate RaysWellFormed(g: Geom)
  {
    forall n :: 0 <= n < |g.ofs| ==> Reciprocal(g.ofs[n])
  }

  /** The interpolation hat max(0, 1 - |t|): positive exactly on (-1, 1). */
  function Hat(t: real): (h: real)
    ensures 0.0 <= h <= 1.0
    ensures h > 0.0 <==> -1.0 < t < 1.0
  {
    if 1.0 - Abs(t) > 0.0 then 1.0 - Abs(t) else 0.0
  }

  /** The detector coordinate of pixel (x, y) on the ray o. */
  function Coord(o: Ofs, x: int, y: int): real
  {
    x as real * o.x + (y as real * o.y + o.z)
  }

  // ---------------------------------------------------------------------------
  // The two operators on one channel: an image f(x, y), a sinogram s(i, j) and the
  // rays of the J projections

  function RTerm(o: Ofs, f: (int, int) -> real, i: int, x: int, y: int): real
  {
    Hat(Coord(o, x, y) - i as real) * f(x, y)
  }

  function RGrid(o: Ofs, f: (int, int) -> real, i: int): (int, int) -> real
  {
    (x, y) => RTerm(o, f, i, x, y)
  }

  /** Bin i of the projection of the X-by-Y image f along the ray o: every pixel
      weighted by the hat of its distance to the bin. */
  function Project(X: int, Y: int, o: Ofs, f: (int, int) -> real, i: int): real
  {
    GridSum(X, Y, RGrid(o, f, i))
  }

  function BTerm(rays: int -> Ofs, s: (int, int) -> real, x: int, y: int, i: int, j: int): real
  {
    Hat(Coord(rays(j), x, y) - i as real) * s(i, j)
  }

  function BGrid(rays: int -> Ofs, s: (int, int) -> real, x: int, y: int): (int, int) -> real
  {
    (i, j) => BTerm(rays, s, x, y, i, j)
  }

  /** Pixel (x, y) of the back-projection of the I-by-J sinogram s: every bin of
      every projection weighted by the same hat. */
  function BackProject(I: int, J: int, rays: int -> Ofs, s: (int, int) -> real, x: int, y: int): real
  {
    GridSum(I, J, BGrid(rays, s, x, y))
  }

  // ---------------------------------------------------------------------------
  // Channels of the flattened buffers

  /** The geometry of projection j for channel k, which belongs to scan k / CS. */
  function Ray(g: Geom, k: int, j: int): Ofs
  {
    var n := (k / g.CS) * g.J + j;
    if 0 <= n < |g.ofs| then g.ofs[n] else Ofs(0.0, 0.0, 0.0, 0.0)
  }

  function Rays(g: Geom, k: int): int -> Ofs
  {
    j => Ray(g, k, j)
  }

  function ImgIdx(g: Geom, k: int, x: int, y: int): int
  {
    k * (g.X * g.Y) + Idx(g.X, x, y)
  }

  /** Pixel (x, y) of channel k of an image buffer. */
  function ImgAt(g: Geom, img: seq<real>, k: int, x: int, y: int): real
  {
    At(img, ImgIdx(g, k, x, y))
  }

  function Chan(g: Geom, img: seq<real>, k: int): (int, int) -> real
  {
    (x, y) => ImgAt(g, img, k, x, y)
  }

  function SinoIdx(g: Geom, k: int, j: int, i: int): int
  {
    k * (g.I * g.J) + Idx(g.I, i, j)
  }

  /** Bin i of projection j of channel k of a sinogram buffer. */
  function SinoAt(g: Geom, sino: seq<real>, k: int, j: int, i: int): real
  {
    At(sino, SinoIdx(g, k, j, i))
  }

  function SinoChan(g: Geom, sino: seq<real>, k: int): (int, int) -> real
  {
    (i, j) => SinoAt(g, sino, k, j, i)
  }

  /** What `radon` stores for bin i of projection j of channel k. */
  function RadonValue(g: Geom, img: seq<real>, k: int, j: int, i: int): real
  {
    Project(g.X, g.Y, Ray(g, k, j), Chan(g, img, k), i) / g.scale
  }

  /** What `radon_ad` stores for pixel (x, y) of channel k. */
  function AdValue(g: Geom, sino: seq<real>, k: int, x: int, y: int): real
  {
    BackProject(g.I, g.J, Rays(g, k), SinoChan(g, sino, k), x, y) / g.scale
  }

  /** A ray of a well-formed geometry is Reciprocal. */
  lemma RayWellFormed(g: Geom, k: int, j: int)
    requires RaysWellFormed(g)
    ensures Reciprocal(Ray(g, k, j))
  {
  }

  // ---------------------------------------------------------------------------
  // The integration window of one image row in `radon`

  /** C's conversion of a float to int: truncation toward zero. */
  function Trunc(r: real): int
  {
    if 0.0 <= r then r.Floor else -((-r).Floor)
  }

  /** Truncation moves toward zero by less than one. */
  lemma TruncBounds(r: real)
    ensures 0.0 <= r ==> Trunc(r) as real <= r < Trunc(r) as real + 1.0
    ensures r < 0.0 ==> Trunc(r) as real - 1.0 < r <= Trunc(r) as real
  {
  }

  /** The columns of one row that `radon` visits: none, or lo..hi. */
  datatype Window = Skip | Span(lo: int, hi: int)

  /** The test `radon` applies to a vertical ray, whose row has the single detector
      coordinate d: the row meets bin i when d lies strictly between i - 1 and i + 1. */
  predicate VerticalHit(i: int, d: real)
  {
    i as real - 1.0 < d < i as real + 1.0
  }

  /** The vertical-ray test exactly when the row has positive weight in bin i. */
  lemma VerticalHitIffWeight(i: int, d: real)
    ensures VerticalHit(i, d) <==> Hat(d - i as real) > 0.0
  {
  }

  /** The float value of the size_t `i - 1` at i == 0: 2^64 - 1 rounds to 2^64. */
  const Wrap: real := 18446744073709551616.0

  /** The vertical-ray test as the kernel evaluates it: i is an unsigned size_t, so
      at i == 0 the bound i - 1 wraps to 2^64 - 1, which becomes 2^64 when it is
      converted to float for the comparison with d. */
  predicate VerticalHitAsWritten(i: nat, d: real)
  {
    var lower := if i == 0 then Wrap else i as real - 1.0;
    lower < d < i as real + 1.0
  }

  /** The wrapped bound skips bin 0 for every vertical row: at d = 0.5 the row has
      weight 1/2 in bin 0 (and `radon_ad` deposits it there), but the kernel's test
      fails. */
  lemma VerticalGuardSkipsBinZero()
    ensures Hat(0.5 - 0 as real) == 0.5
    ensures !VerticalHitAsWritten(0, 0.5) && VerticalHit(0, 0.5)
  {
  }

  /** Away from bin 0 the kernel's test is the intended one. */
  lemma VerticalGuardAgrees(i: nat, d: real)
    requires i > 0
    ensures VerticalHitAsWritten(i, d) <==> VerticalHit(i, d)
  {
  }

  /** The column at which a sloped ray reaches detector coordinate e on the row with
      coordinate d: (e - d) * o.w, o.w standing for 1/o.x. */
  function Edge(o: Ofs, e: real, d: real): real
  {
    (e - d) * o.w
  }

  /** The window of row coordinate d = y*o.y + o.z for bin i of an X-column image:
      a vertical ray takes the whole row or none of it; a sloped one takes the
      columns between its edges at i - 1 and i + 1, truncated toward zero, in
      increasing order and clamped to the image. */
  function RowWindow(o: Ofs, i: int, d: real, X: int): (r: Window)
    ensures r.Span? ==> 0 <= r.lo && r.hi <= X - 1
  {
    if o.x == 0.0 then
      if VerticalHit(i, d) then Span(0, X - 1) else Skip
    else
      var lo := if o.x > 0.0 then Trunc(Edge(o, i as real - 1.0, d)) else Trunc(Edge(o, i as real + 1.0, d));
      var hi := if o.x > 0.0 then Trunc(Edge(o, i as real + 1.0, d)) else Trunc(Edge(o, i as real - 1.0, d));
      Span(if lo < 0 then 0 else lo, if hi > X - 1 then X - 1 else hi)
  }

  /** Multiplying a strict inequality by a positive factor keeps it. */
  lemma MulPos(a: real, b: real, c: real)
    requires a < b && 0.0 < c
    ensures a * c < b * c
  {
  }

  /** Multiplying a strict inequality by a negative factor reverses it. */
  lemma MulNeg(a: real, b: real, c: real)
    requires a < b && c < 0.0
    ensures b * c < a * c
  {
  }

  /** Truncation keeps an integer upper bound. */
  lemma TruncBelow(r: real, x: int)
    requires r < x as real
    ensures Trunc(r) <= x
  {
    TruncBounds(r);
  }

  /** Truncation keeps an integer lower bound. */
  lemma TruncAbove(r: real, x: int)
    requires x as real < r
    ensures x <= Trunc(r)
  {
    TruncBounds(r);
  }

  /** On a ray with positive slope, column x lies past the edge at e exactly when
      its detector coordinate x*o.x + d does. */
  lemma EdgeUp(o: Ofs, e: real, d: real, x: int)
    requires 0.0 < o.x && o.x * o.w == 1.0
    ensures e < x as real * o.x + d ==> Edge(o, e, d) < x as real
    ensures x as real * o.x + d < e ==> x as real < Edge(o, e, d)
  {
    var p, w, a := x as real * o.x, o.w, e - d;
    assert 0.0 < w;
    assert p * w == x as real;
    assert Edge(o, e, d) == a * w;
    if a < p {
      MulPos(a, p, w);
    }
    if p < a {
      MulPos(p, a, w);
    }
  }

  /** On a ray with negative slope the order is reversed. */
  lemma EdgeDown(o: Ofs, e: real, d: real, x: int)
    requires o.x < 0.0 && o.x * o.w == 1.0
    ensures e < x as real * o.x + d ==> x as real < Edge(o, e, d)
    ensures x as real * o.x + d < e ==> Edge(o, e, d) < x as real
  {
    var p, w, a := x as real * o.x, o.w, e - d;
    assert w < 0.0;
    assert p * w == x as real;
    assert Edge(o, e, d) == a * w;
    if a < p {
      MulNeg(a, p, w);
    }
    if p < a {
      MulNeg(p, a, w);
    }
  }

  /** A vertical ray: the weight does not depend on the column. */
  lemma VerticalCovers(o: Ofs, i: int, d: real, x: int)
    requires o.x == 0.0
    requires Hat(x as real * o.x + d - i as real) > 0.0
    ensures VerticalHit(i, d)
  {
    assert x as real * o.x + d - i as real == d - i as real;
  }

  /** A ray with positive slope: column x of positive weight lies between the
      truncated edges. */
  lemma SlopeUpCovers(o: Ofs, i: int, d: real, x: int)
    requires 0.0 < o.x && o.x * o.w == 1.0
    requires -1.0 < x as real * o.x + d - i as real < 1.0
    ensures Trunc(Edge(o, i as real - 1.0, d)) <= x <= Trunc(Edge(o, i as real + 1.0, d))
  {
    EdgeUp(o, i as real - 1.0, d, x);
    EdgeUp(o, i as real + 1.0, d, x);
    TruncBelow(Edge(o, i as real - 1.0, d), x);
    TruncAbove(Edge(o, i as real + 1.0, d), x);
  }

  /** A ray with negative slope: the edges exchange their roles. */
  lemma SlopeDownCovers(o: Ofs, i: int, d: real, x: int)
    requires o.x < 0.0 && o.x * o.w == 1.0
    requires -1.0 < x as real * o.x + d - i as real < 1.0
    ensures Trunc(Edge(o, i as real + 1.0, d)) <= x <= Trunc(Edge(o, i as real - 1.0, d))
  {
    EdgeDown(o, i as real - 1.0, d, x);
    EdgeDown(o, i as real + 1.0, d, x);
    TruncBelow(Edge(o, i as real + 1.0, d), x);
    TruncAbove(Edge(o, i as real - 1.0, d), x);
  }

  /** The window covers every column of the row with positive weight in bin i. */
  lemma WindowCovers(o: Ofs, i: int, d: real, X: int, x: int)
    requires Reciprocal(o)
    requires 0 <= x < X
    requires Hat(x as real * o.x + d - i as real) > 0.0
    ensures RowWindow(o, i, d, X).Span?
    ensures RowWindow(o, i, d, X).lo <= x <= RowWindow(o, i, d, X).hi
  {
    if o.x == 0.0 {
      VerticalCovers(o, i, d, x);
    } else if o.x > 0.0 {
      SlopeUpCovers(o, i, d, x);
    } else {
      SlopeDownCovers(o, i, d, x);
    }
  }

  // ---------------------------------------------------------------------------
  // One work item of `radon`

  /** The kernel's form of the weight of column x on the row with coordinate d. */
  lemma WeightInRow(o: Ofs, i: int, x: int, y: int, d: real)
    requires d == y as real * o.y + o.z
    ensures Hat(Coord(o, x, y) - i as real) == Hat(x as real * o.x + d - i as real)
  {
    assert Coord(o, x, y) - i as real == x as real * o.x + d - i as real;
  }

  /** The row term restricted to the window columns lo..hi. */
  function WindowTerm(o: Ofs, f: (int, int) -> real, i: int, y: int, lo: int, hi: int, x: int): real
  {
    if lo <= x <= hi then RTerm(o, f, i, x, y) else 0.0
  }

  function WindowRow(o: Ofs, f: (int, int) -> real, i: int, y: int, lo: int, hi: int): int -> real
  {
    x => WindowTerm(o, f, i, y, lo, hi, x)
  }

  /** Inside the image, the windowed term of column x is the full term: a column
      outside the window has weight zero. */
  lemma WindowColumn(o: Ofs, f: (int, int) -> real, i: int, y: int, d: real, X: int, lo: int, hi: int, x: int)
    requires Reciprocal(o) && d == y as real * o.y + o.z
    requires RowWindow(o, i, d, X) == Span(lo, hi)
    requires 0 <= x < X
    ensures WindowTerm(o, f, i, y, lo, hi, x) == RTerm(o, f, i, x, y)
  {
    WeightInRow(o, i, x, y, d);
    if Hat(x as real * o.x + d - i as real) > 0.0 {
      WindowCovers(o, i, d, X, x);
    }
  }

  /** Summing row y over its window, up to where the kernel's loop stops, gives the
      sum over the whole row. */
  lemma WindowRowSum(o: Ofs, f: (int, int) -> real, i: int, y: int, d: real, X: int, lo: int, hi: int, xe: int)
    requires Reciprocal(o) && d == y as real * o.y + o.z
    requires RowWindow(o, i, d, X) == Span(lo, hi)
    requires 0 <= X && lo <= xe && (xe == hi + 1 || (xe == lo && hi < lo))
    ensures Sum(xe, WindowRow(o, f, i, y, lo, hi)) == Sum(X, Row(RGrid(o, f, i), y))
  {
    var w := WindowRow(o, f, i, y, lo, hi);
    forall x | 0 <= x < X
      ensures w(x) == Row(RGrid(o, f, i), y)(x)
    {
      WindowColumn(o, f, i, y, d, X, lo, hi, x);
    }
    SumExt(X, w, Row(RGrid(o, f, i), y));
    if xe <= X {
      forall x | xe <= x < X
        ensures w(x) == 0.0
      {
        assert hi < x;
      }
      SumPad(xe, X, w);
    } else {
      forall x | X <= x < xe
        ensures w(x) == 0.0
      {
        assert hi < x;
      }
      SumPad(X, xe, w);
    }
  }

  /** A column of a skipped row has weight zero. */
  lemma SkippedColumn(o: Ofs, f: (int, int) -> real, i: int, y: int, d: real, X: int, x: int)
    requires Reciprocal(o) && d == y as real * o.y + o.z
    requires RowWindow(o, i, d, X) == Skip
    requires 0 <= x < X
    ensures RTerm(o, f, i, x, y) == 0.0
  {
    WeightInRow(o, i, x, y, d);
    if Hat(x as real * o.x + d - i as real) > 0.0 {
      WindowCovers(o, i, d, X, x);
    }
  }

  /** A row the kernel skips contributes nothing. */
  lemma SkippedRowSum(o: Ofs, f: (int, int) -> real, i: int, y: int, d: real, X: int)
    requires Reciprocal(o) && d == y as real * o.y + o.z
    requires RowWindow(o, i, d, X) == Skip
    ensures Sum(X, Row(RGrid(o, f, i), y)) == 0.0
  {
    forall x | 0 <= x < X
      ensures Row(RGrid(o, f, i), y)(x) == 0.0
    {
      SkippedColumn(o, f, i, y, d, X, x);
    }
    SumZero(X, Row(RGrid(o, f, i), y));
  }

  /** One column of the kernel's inner loop: adding weight * pixel when the weight
      is positive extends the windowed sum by that column. */
  lemma WindowStep(o: Ofs, f: (int, int) -> real, i: int, y: int, d: real, lo: int, hi: int, x: int, weight: real)
    requires d == y as real * o.y + o.z
    requires 0 <= lo <= x <= hi
    requires weight == 1.0 - Abs(x as real * o.x + d - i as real)
    ensures Sum(x + 1, WindowRow(o, f, i, y, lo, hi))
         == Sum(x, WindowRow(o, f, i, y, lo, hi)) + (if weight > 0.0 then weight * f(x, y) else 0.0)
  {
    var w := WindowRow(o, f, i, y, lo, hi);
    WeightInRow(o, i, x, y, d);
    var h := Hat(x as real * o.x + d - i as real);
    assert h == (if weight > 0.0 then weight else 0.0);
    var p := f(x, y);
    assert w(x) == h * p;
    assert Sum(x + 1, w) == Sum(x, w) + w(x);
  }

  /** The kernel's inner loop over the window columns of row y, which adds weight *
      pixel for every column of positive weight: the result is the row's share of the
      projection. */
  method RowIntegral(o: Ofs, f: (int, int) -> real, i: int, y: int, X: int) returns (r: real)
    requires Reciprocal(o) && 0 <= X
    ensures r == Sum(X, Row(RGrid(o, f, i), y))
  {
    var d := y as real * o.y + o.z;
    var win := RowWindow(o, i, d, X);
    if win.Skip? {
      SkippedRowSum(o, f, i, y, d, X);
      return 0.0;
    }
    r := 0.0;
    SumZero(win.lo, WindowRow(o, f, i, y, win.lo, win.hi));
    var x := win.lo;
    while x <= win.hi
      invariant win.lo <= x && (x <= win.hi + 1 || x == win.lo)
      invariant r == Sum(x, WindowRow(o, f, i, y, win.lo, win.hi))
    {
      var weight := 1.0 - Abs(x as real * o.x + d - i as real);
      WindowStep(o, f, i, y, d, win.lo, win.hi, x, weight);
      if weight > 0.0 {
        r := r + weight * f(x, y);
      }
      x := x + 1;
    }
    WindowRowSum(o, f, i, y, d, X, win.lo, win.hi, x);
  }

  /** The work item (k, j, i) of `radon`: row by row it integrates the window columns
      with positive weight; the result is the bin of the projection. */
  method RadonItem(g: Geom, img: seq<real>, k: int, j: int, i: int) returns (v: real)
    requires RaysWellFormed(g)
    ensures v == RadonValue(g, img, k, j, i)
  {
    var o := Ray(g, k, j);
    RayWellFormed(g, k, j);
    var f := Chan(g, img, k);
    var acc := 0.0;
    var y := 0;
    while y < g.Y
      invariant 0 <= y <= g.Y
      invariant acc == Sum(y, RowSums(g.X, RGrid(o, f, i)))
    {
      var r := RowIntegral(o, f, i, y, g.X);
      acc := acc + r;
      y := y + 1;
    }
    v := acc / g.scale;
  }

  // ---------------------------------------------------------------------------
  // Bin 0 of `radon` as the kernel computes it

  /** The range of C's 32-bit int. */
  const IntMin: int := -2147483648
  const IntMax: int := 2147483647

  /** C's conversion of a float to a 32-bit int. A value that fits is truncated
      toward zero. The result for a value that does not fit depends on the target:
      x86's truncating conversion returns INT_MIN for all of them, a saturating one
      clamps to INT_MIN or INT_MAX. */
  function CvtInt(r: real, saturating: bool): (n: int)
    ensures IntMin <= n <= IntMax
    ensures r <= IntMin as real ==> n == IntMin
    ensures (IntMax + 1) as real <= r ==> n == (if saturating then IntMax else IntMin)
  {
    TruncBounds(r);
    if (IntMin - 1) as real < r < (IntMax + 1) as real then Trunc(r)
    else if saturating && r > 0.0 then IntMax
    else IntMin
  }

  /** The window the kernel computes for row coordinate d and bin i. It differs from
      RowWindow only at bin 0: the vertical test is VerticalHitAsWritten, and a sloped
      ray's edge at i - 1 is taken at the wrapped bound Wrap, whose product with o.w
      is then converted by CvtInt. */
  function RowWindowAsWritten(o: Ofs, i: nat, d: real, X: int, saturating: bool): (r: Window)
    ensures r.Span? ==> 0 <= r.lo && r.hi <= X - 1
  {
    if o.x == 0.0 then
      if VerticalHitAsWritten(i, d) then Span(0, X - 1) else Skip
    else
      var far := if i == 0 then CvtInt(Edge(o, Wrap, d), saturating) else Trunc(Edge(o, i as real - 1.0, d));
      var near := Trunc(Edge(o, i as real + 1.0, d));
      var lo := if o.x > 0.0 then far else near;
      var hi := if o.x > 0.0 then near else far;
      Span(if lo < 0 then 0 else lo, if hi > X - 1 then X - 1 else hi)
  }

  /** What the kernel's inner loop adds up for row y and bin i: the positive-weight
      columns of its window. */
  function RowSumAsWritten(o: Ofs, f: (int, int) -> real, i: nat, y: int, X: int, saturating: bool): real
  {
    WindowSum(o, f, i, y, X, RowWindowAsWritten(o, i, RowCoord(o, y), X, saturating))
  }

  /** The detector coordinate d = y*o.y + o.z of row y. */
  function RowCoord(o: Ofs, y: int): real
  {
    y as real * o.y + o.z
  }

  /** The positive-weight columns of row y inside the window win, added up. */
  function WindowSum(o: Ofs, f: (int, int) -> real, i: int, y: int, X: int, win: Window): real
  {
    match win
    case Skip => 0.0
    case Span(lo, hi) => Sum(X, WindowRow(o, f, i, y, lo, hi))
  }

  /** Column x, if it has positive weight in bin i on the row with coordinate d,
      lies in the window lo..hi. */
  predicate InWindowIfWeighted(o: Ofs, i: int, d: real, lo: int, hi: int, x: int)
  {
    Hat(x as real * o.x + d - i as real) > 0.0 ==> lo <= x <= hi
  }

  /** A row sum over a window that covers every positive-weight column of the row is
      the full row sum. */
  lemma CoveringWindowSum(o: Ofs, f: (int, int) -> real, i: int, y: int, d: real, X: int, lo: int, hi: int)
    requires Reciprocal(o) && d == y as real * o.y + o.z
    requires forall x :: 0 <= x < X ==> InWindowIfWeighted(o, i, d, lo, hi, x)
    ensures Sum(X, WindowRow(o, f, i, y, lo, hi)) == Sum(X, Row(RGrid(o, f, i), y))
  {
    forall x | 0 <= x < X
      ensures WindowRow(o, f, i, y, lo, hi)(x) == Row(RGrid(o, f, i), y)(x)
    {
      WeightInRow(o, i, x, y, d);
      assert InWindowIfWeighted(o, i, d, lo, hi, x);
      if !(lo <= x <= hi) {
        assert Hat(Coord(o, x, y) - i as real) == 0.0;
        assert RTerm(o, f, i, x, y) == 0.0 * f(x, y);
      }
    }
    SumExt(X, WindowRow(o, f, i, y, lo, hi), Row(RGrid(o, f, i), y));
  }

  /** For every bin after the first the kernel's window is RowWindow. */
  lemma WindowAsWrittenAgrees(o: Ofs, i: nat, d: real, X: int, saturating: bool)
    requires 0 < i
    ensures RowWindowAsWritten(o, i, d, X, saturating) == RowWindow(o, i, d, X)
  {
    VerticalGuardAgrees(i, d);
  }

  /** For every bin after the first the kernel's row sum is the row's share of the
      projection. */
  lemma RowSumAsWrittenAgrees(o: Ofs, f: (int, int) -> real, i: nat, y: int, X: int, saturating: bool)
    requires Reciprocal(o) && 0 < i
    ensures RowSumAsWritten(o, f, i, y, X, saturating) == Sum(X, Row(RGrid(o, f, i), y))
  {
    var d := y as real * o.y + o.z;
    WindowAsWrittenAgrees(o, i, d, X, saturating);
    assert RowCoord(o, y) == d;
    match RowWindow(o, i, d, X)
    case Skip =>
      SkippedRowSum(o, f, i, y, d, X);
    case Span(lo, hi) =>
      RowSumAsWrittenIs(o, f, i, y, X, saturating, d, lo, hi);
      forall x | 0 <= x < X
        ensures InWindowIfWeighted(o, i, d, lo, hi, x)
      {
        if Hat(x as real * o.x + d - i as real) > 0.0 {
          WindowCovers(o, i, d, X, x);
        }
      }
      CoveringWindowSum(o, f, i, y, d, X, lo, hi);
  }

  /** The kernel's row sum over a known window. */
  lemma RowSumAsWrittenIs(o: Ofs, f: (int, int) -> real, i: nat, y: int, X: int, saturating: bool, d: real, lo: int, hi: int)
    requires d == y as real * o.y + o.z && RowWindowAsWritten(o, i, d, X, saturating) == Span(lo, hi)
    ensures RowSumAsWritten(o, f, i, y, X, saturating) == Sum(X, WindowRow(o, f, i, y, lo, hi))
  {
    assert RowCoord(o, y) == d;
  }

  /** A window that ends before it starts adds nothing. */
  lemma EmptyWindowSum(o: Ofs, f: (int, int) -> real, i: int, y: int, X: int, lo: int, hi: int)
    requires hi < lo
    ensures Sum(X, WindowRow(o, f, i, y, lo, hi)) == 0.0
  {
    SumZero(X, WindowRow(o, f, i, y, lo, hi));
  }

  /** With |o.x| <= 2^20 and d <= 2^20, the wrapped edge (Wrap - d) * o.w is far
      outside the int range: below INT_MIN for a falling ray, above INT_MAX for a
      rising one. */
  lemma WrappedEdgeOutOfRange(o: Ofs, d: real)
    requires o.x != 0.0 && o.x * o.w == 1.0
    requires -1048576.0 <= o.x <= 1048576.0 && d <= 1048576.0
    ensures o.x < 0.0 ==> Edge(o, Wrap, d) <= IntMin as real
    ensures 0.0 < o.x ==> (IntMax + 1) as real <= Edge(o, Wrap, d)
  {
    var a, w := Wrap - d, o.w;
    var big := 9223372036854775808.0;
    assert big <= a;
    assert Edge(o, Wrap, d) == a * w;
    var c := 1.0 / 1048576.0;
    if o.x < 0.0 {
      NegTimesNeg(o.x, w);
      ReciprocalBound(-o.x, -w);
      MulUp(a, c, -w);
      MulUp(c, big, a);
      assert c * big == 8796093022208.0;
      assert a * (-w) == -(a * w);
    } else {
      ReciprocalBound(o.x, w);
      MulUp(a, c, w);
      MulUp(c, big, a);
      assert c * big == 8796093022208.0;
    }
  }

  /** The reciprocal of a positive value up to 2^20 is at least 2^-20. */
  lemma ReciprocalBound(x: real, w: real)
    requires 0.0 < x <= 1048576.0 && x * w == 1.0
    ensures 1.0 / 1048576.0 <= w
  {
    assert 0.0 < w;
    MulUp(w, x, 1048576.0);
  }

  /** Negating both factors keeps the product. */
  lemma NegTimesNeg(a: real, b: real)
    ensures (-a) * (-b) == a * b
  {
  }

  /** A non-negative factor keeps an order. */
  lemma MulUp(k: real, a: real, b: real)
    requires 0.0 <= k && a <= b
    ensures k * a <= k * b
  {
  }

  /** The bin-0 window of a sloped ray whose wrapped edge is out of range: a falling
      ray's window ends at INT_MIN; a rising ray's starts at INT_MAX on a saturating
      target and at column 0 on x86, and ends where RowWindow's does. */
  lemma BinZeroWindow(o: Ofs, d: real, X: int, saturating: bool)
    requires o.x != 0.0 && o.x * o.w == 1.0
    requires -1048576.0 <= o.x <= 1048576.0 && d <= 1048576.0 && 0 <= X
    ensures RowWindowAsWritten(o, 0, d, X, saturating).Span?
    ensures o.x < 0.0 ==> RowWindowAsWritten(o, 0, d, X, saturating).hi == IntMin
    ensures 0.0 < o.x && saturating ==> RowWindowAsWritten(o, 0, d, X, saturating).lo == IntMax
    ensures 0.0 < o.x && !saturating ==>
      RowWindowAsWritten(o, 0, d, X, saturating).lo == 0
      && RowWindowAsWritten(o, 0, d, X, saturating).hi == RowWindow(o, 0, d, X).hi
  {
    WrappedEdgeOutOfRange(o, d);
    var e := Edge(o, Wrap, d);
    var far := CvtInt(e, saturating);
    assert o.x < 0.0 ==> far == IntMin;
    assert 0.0 < o.x ==> far == (if saturating then IntMax else IntMin);
  }

  /** A falling ray: the kernel adds nothing to bin 0 on any target, since the
      wrapped edge converts to INT_MIN and becomes the upper end of the window. */
  lemma BinZeroFalling(o: Ofs, f: (int, int) -> real, y: int, X: int, saturating: bool)
    requires o.x < 0.0 && o.x * o.w == 1.0 && -1048576.0 <= o.x
    requires y as real * o.y + o.z <= 1048576.0 && 0 <= X
    ensures RowSumAsWritten(o, f, 0, y, X, saturating) == 0.0
  {
    var d := y as real * o.y + o.z;
    BinZeroWindow(o, d, X, saturating);
    var win := RowWindowAsWritten(o, 0, d, X, saturating);
    RowSumAsWrittenIs(o, f, 0, y, X, saturating, d, win.lo, win.hi);
    EmptyWindowSum(o, f, 0, y, X, win.lo, win.hi);
  }

  /** A rising ray on a saturating target: the wrapped edge converts to INT_MAX and
      becomes the lower end of the window, so bin 0 gets nothing. */
  lemma BinZeroRisingSaturating(o: Ofs, f: (int, int) -> real, y: int, X: int)
    requires 0.0 < o.x && o.x * o.w == 1.0 && o.x <= 1048576.0
    requires y as real * o.y + o.z <= 1048576.0 && 0 <= X <= IntMax
    ensures RowSumAsWritten(o, f, 0, y, X, true) == 0.0
  {
    var d := y as real * o.y + o.z;
    BinZeroWindow(o, d, X, true);
    var win := RowWindowAsWritten(o, 0, d, X, true);
    RowSumAsWrittenIs(o, f, 0, y, X, true, d, win.lo, win.hi);
    EmptyWindowSum(o, f, 0, y, X, win.lo, win.hi);
  }

  /** A rising ray on x86: the wrapped edge converts to INT_MIN, the window starts at
      column 0 and covers the true one, so bin 0 comes out right. */
  lemma BinZeroRisingTruncating(o: Ofs, f: (int, int) -> real, y: int, X: int)
    requires 0.0 < o.x && o.x * o.w == 1.0 && o.x <= 1048576.0
    requires y as real * o.y + o.z <= 1048576.0 && 0 <= X
    ensures RowSumAsWritten(o, f, 0, y, X, false) == Sum(X, Row(RGrid(o, f, 0), y))
  {
    var d := y as real * o.y + o.z;
    BinZeroWindow(o, d, X, false);
    var win := RowWindowAsWritten(o, 0, d, X, false);
    RowSumAsWrittenIs(o, f, 0, y, X, false, d, win.lo, win.hi);
    forall x | 0 <= x < X
      ensures InWindowIfWeighted(o, 0, d, win.lo, win.hi, x)
    {
      if Hat(x as real * o.x + d - 0 as real) > 0.0 {
        WindowCovers(o, 0, d, X, x);
      }
    }
    CoveringWindowSum(o, f, 0, y, d, X, win.lo, win.hi);
  }

  /** The image that is 1 everywhere. */
  function Ones(x: int, y: int): real
  {
    1.0
  }

  /** The wrap loses a weight a sloped ray has in bin 0: the falling ray
      (-1, 0, 0.5, -1) meets the single pixel of a 1-by-1 image at detector
      coordinate 0.5, weight 1/2 in bin 0, yet the kernel's row sum is 0 on every
      target. */
  lemma SlopedBinZeroLost(saturating: bool)
    ensures Sum(1, Row(RGrid(Ofs(-1.0, 0.0, 0.5, -1.0), Ones, 0), 0)) == 0.5
    ensures RowSumAsWritten(Ofs(-1.0, 0.0, 0.5, -1.0), Ones, 0, 0, 1, saturating) == 0.0
  {
    var o := Ofs(-1.0, 0.0, 0.5, -1.0);
    assert Coord(o, 0, 0) - 0 as real == 0.5;
    assert Row(RGrid(o, Ones, 0), 0)(0) == 0.5;
    BinZeroFalling(o, Ones, 0, 1, saturating);
  }

  // ---------------------------------------------------------------------------
  // One work item of `radon_ad`

  /** The interpolation `radon_ad` performs at detector coordinate t over the bins
      0..I-1 of row s: nothing unless -1 < t < I; otherwise 1 - w of bin floor(t)
      and w of bin floor(t) + 1, where w = t - floor(t), each when that bin exists. */
  function Interp(t: real, I: int, s: int -> real): real
  {
    if -1.0 < t < I as real then
      var fl := t.Floor;
      var w := t - fl as real;
      (if fl >= 0 then (1.0 - w) * s(fl) else 0.0) + (if fl <= I - 2 then w * s(fl + 1) else 0.0)
    else
      0.0
  }

  function HatTerm(t: real, s: int -> real, i: int): real
  {
    Hat(t - i as real) * s(i)
  }

  function HatRow(t: real, s: int -> real): int -> real
  {
    i => HatTerm(t, s, i)
  }

  /** Bins more than one away from t have weight zero. */
  lemma HatFar(t: real, i: int)
    requires i < t.Floor || t.Floor + 1 < i
    ensures Hat(t - i as real) == 0.0
  {
  }

  /** The interpolation weights are the hat weights of the two bins around t. */
  lemma HatNear(t: real)
    ensures Hat(t - t.Floor as real) == 1.0 - (t - t.Floor as real)
    ensures Hat(t - (t.Floor + 1) as real) == t - t.Floor as real
  {
  }

  /** Inside (-1, I) the sum has the two terms around t. */
  lemma InterpInside(t: real, I: int, s: int -> real)
    requires -1.0 < t < I as real
    ensures Interp(t, I, s) == Sum(I, HatRow(t, s))
  {
    var fl := t.Floor;
    HatRowTwo(t, I, s);
    SumTwo(I, fl, HatRow(t, s));
    InterpTwo(t, I, s);
  }

  /** Only the bins floor(t) and floor(t) + 1 carry weight. */
  lemma HatRowTwo(t: real, I: int, s: int -> real)
    ensures forall i :: 0 <= i < I && i != t.Floor && i != t.Floor + 1 ==> HatRow(t, s)(i) == 0.0
  {
    forall i | 0 <= i < I && i != t.Floor && i != t.Floor + 1
      ensures HatRow(t, s)(i) == 0.0
    {
      HatFar(t, i);
    }
  }

  /** Inside (-1, I) the interpolation is the two hat terms around t. */
  lemma InterpTwo(t: real, I: int, s: int -> real)
    requires -1.0 < t < I as real
    ensures Interp(t, I, s) == (if 0 <= t.Floor < I then HatRow(t, s)(t.Floor) else 0.0)
                             + (if 0 <= t.Floor + 1 < I then HatRow(t, s)(t.Floor + 1) else 0.0)
  {
    HatNear(t);
  }

  /** Outside (-1, I) every bin has weight zero. */
  lemma InterpOutside(t: real, I: int, s: int -> real)
    requires !(-1.0 < t < I as real)
    ensures Sum(I, HatRow(t, s)) == 0.0
  {
    forall i | 0 <= i < I
      ensures HatRow(t, s)(i) == 0.0
    {
      assert Hat(t - i as real) == 0.0;
    }
    SumZero(I, HatRow(t, s));
  }

  /** The two-bin interpolation is the hat-weighted sum over all bins: `radon_ad`
      uses the same weights as `radon`. */
  lemma InterpIsHat(t: real, I: int, s: int -> real)
    ensures Interp(t, I, s) == Sum(I, HatRow(t, s))
  {
    if -1.0 < t < I as real {
      InterpInside(t, I, s);
    } else {
      InterpOutside(t, I, s);
    }
  }

  /** Projection j's share of the back-projection at pixel (x, y) is the kernel's
      interpolation at the pixel's detector coordinate. */
  lemma BackRowIsInterp(I: int, rays: int -> Ofs, s: (int, int) -> real, x: int, y: int, j: int)
    ensures Sum(I, Row(BGrid(rays, s, x, y), j)) == Interp(Coord(rays(j), x, y), I, Row(s, j))
  {
    var t := Coord(rays(j), x, y);
    SumExt(I, Row(BGrid(rays, s, x, y), j), HatRow(t, Row(s, j)));
    InterpIsHat(t, I, Row(s, j));
  }

  /** The kernel's linear interpolation of the detector row s at coordinate t. */
  method InterpAt(t: real, I: int, s: int -> real) returns (v: real)
    ensures v == Interp(t, I, s)
  {
    v := 0.0;
    if -1.0 < t && t < I as real {
      var fl := t.Floor;
      var w := t - fl as real;
      if fl >= 0 {
        v := v + (1.0 - w) * s(fl);
      }
      if fl <= I - 2 {
        v := v + w * s(fl + 1);
      }
    }
  }

  /** The work item (k, x, y) of `radon_ad`: for every projection it interpolates
      the sinogram at the pixel's detector coordinate. */
  method RadonAdItem(g: Geom, sino: seq<real>, k: int, x: int, y: int) returns (v: real)
    ensures v == AdValue(g, sino, k, x, y)
  {
    var rays, s := Rays(g, k), SinoChan(g, sino, k);
    var acc := 0.0;
    var j := 0;
    while j < g.J
      invariant 0 <= j <= g.J
      invariant acc == Sum(j, RowSums(g.I, BGrid(rays, s, x, y)))
    {
      var r := InterpAt(Coord(rays(j), x, y), g.I, Row(s, j));
      BackRowIsInterp(g.I, rays, s, x, y, j);
      acc := acc + r;
      j := j + 1;
    }
    v := acc / g.scale;
  }

  // ---------------------------------------------------------------------------
  // Adjointness: both kernels use the same hat weights, so back-projection is the
  // transpose of projection

  /** The term of both inner products: weight of pixel (x, y) for bin i of
      projection j, times the pixel, times the bin. */
  function PairTerm(rays: int -> Ofs, f: (int, int) -> real, s: (int, int) -> real, i: int, j: int, x: int, y: int): real
  {
    Hat(Coord(rays(j), x, y) - i as real) * f(x, y) * s(i, j)
  }

  function PairGrid(rays: int -> Ofs, f: (int, int) -> real, s: (int, int) -> real): (int, int, int, int) -> real
  {
    (i, j, x, y) => PairTerm(rays, f, s, i, j, x, y)
  }

  /** Bin (i, j) of the projection of f times bin (i, j) of s. */
  function SinoDotAt(X: int, Y: int, rays: int -> Ofs, f: (int, int) -> real, s: (int, int) -> real, i: int, j: int): real
  {
    Project(X, Y, rays(j), f, i) * s(i, j)
  }

  function SinoDot(X: int, Y: int, rays: int -> Ofs, f: (int, int) -> real, s: (int, int) -> real): (int, int) -> real
  {
    (i, j) => SinoDotAt(X, Y, rays, f, s, i, j)
  }

  /** Pixel (x, y) of f times pixel (x, y) of the back-projection of s. */
  function ImgDotAt(I: int, J: int, rays: int -> Ofs, f: (int, int) -> real, s: (int, int) -> real, x: int, y: int): real
  {
    f(x, y) * BackProject(I, J, rays, s, x, y)
  }

  function ImgDot(I: int, J: int, rays: int -> Ofs, f: (int, int) -> real, s: (int, int) -> real): (int, int) -> real
  {
    (x, y) => ImgDotAt(I, J, rays, f, s, x, y)
  }

  /** <Project f, s> == <f, BackProject s> for every image f, sinogram s and set of
      rays: the two kernels are each other's transpose. */
  lemma {:induction false} ProjectAdjoint(X: int, Y: int, I: int, J: int, rays: int -> Ofs, f: (int, int) -> real, s: (int, int) -> real)
    ensures GridSum(I, J, SinoDot(X, Y, rays, f, s)) == GridSum(X, Y, ImgDot(I, J, rays, f, s))
  {
    var F := PairGrid(rays, f, s);
    forall i, j | 0 <= i < I && 0 <= j < J
      ensures SinoDot(X, Y, rays, f, s)(i, j) == InnerSums(X, Y, F)(i, j)
    {
      GridScale(X, Y, s(i, j), RGrid(rays(j), f, i), Inner4(F, i, j));
    }
    GridExt(I, J, SinoDot(X, Y, rays, f, s), InnerSums(X, Y, F));
    GridSwap(I, J, X, Y, F);
    forall x, y | 0 <= x < X && 0 <= y < Y
      ensures OuterSums(I, J, F)(x, y) == ImgDot(I, J, rays, f, s)(x, y)
    {
      GridScale(I, J, f(x, y), BGrid(rays, s, x, y), Outer4(F, x, y));
    }
    GridExt(X, Y, OuterSums(I, J, F), ImgDot(I, J, rays, f, s));
  }

  lemma DivTimes(p: real, q: real, c: real)
    requires c != 0.0
    ensures (p / c) * q == (1.0 / c) * (p * q)
    ensures q * (p / c) == (1.0 / c) * (q * p)
  {
  }

  /** Bin (i, j) of channel k: what `radon` stores there times the sinogram. */
  function SinoPairAt(g: Geom, img: seq<real>, sino: seq<real>, k: int, i: int, j: int): real
  {
    RadonValue(g, img, k, j, i) * SinoAt(g, sino, k, j, i)
  }

  function SinoPair(g: Geom, img: seq<real>, sino: seq<real>, k: int): (int, int) -> real
  {
    (i, j) => SinoPairAt(g, img, sino, k, i, j)
  }

  /** Pixel (x, y) of channel k: the image times what `radon_ad` stores there. */
  function ImgPairAt(g: Geom, img: seq<real>, sino: seq<real>, k: int, x: int, y: int): real
  {
    ImgAt(g, img, k, x, y) * AdValue(g, sino, k, x, y)
  }

  function ImgPair(g: Geom, img: seq<real>, sino: seq<real>, k: int): (int, int) -> real
  {
    (x, y) => ImgPairAt(g, img, sino, k, x, y)
  }

  lemma SinoPairScaled(g: Geom, img: seq<real>, sino: seq<real>, k: int, i: int, j: int)
    ensures SinoPairAt(g, img, sino, k, i, j)
         == (1.0 / g.scale) * SinoDotAt(g.X, g.Y, Rays(g, k), Chan(g, img, k), SinoChan(g, sino, k), i, j)
  {
    var p := Project(g.X, g.Y, Ray(g, k, j), Chan(g, img, k), i);
    var q := SinoAt(g, sino, k, j, i);
    assert Rays(g, k)(j) == Ray(g, k, j);
    assert SinoChan(g, sino, k)(i, j) == q;
    DivTimes(p, q, g.scale);
  }

  lemma ImgPairScaled(g: Geom, img: seq<real>, sino: seq<real>, k: int, x: int, y: int)
    ensures ImgPairAt(g, img, sino, k, x, y)
         == (1.0 / g.scale) * ImgDotAt(g.I, g.J, Rays(g, k), Chan(g, img, k), SinoChan(g, sino, k), x, y)
  {
    var p := BackProject(g.I, g.J, Rays(g, k), SinoChan(g, sino, k), x, y);
    var q := ImgAt(g, img, k, x, y);
    assert Chan(g, img, k)(x, y) == q;
    DivTimes(p, q, g.scale);
  }

  /** Bin by bin, the sinogram side of a channel is 1/scale times the unscaled term. */
  lemma SinoPairPointwise(g: Geom, img: seq<real>, sino: seq<real>, k: int)
    ensures Scaled(g.I, g.J, 1.0 / g.scale, SinoDot(g.X, g.Y, Rays(g, k), Chan(g, img, k), SinoChan(g, sino, k)),
                   SinoPair(g, img, sino, k))
  {
    forall i, j | 0 <= i < g.I && 0 <= j < g.J
      ensures SinoPair(g, img, sino, k)(i, j)
           == (1.0 / g.scale) * SinoDot(g.X, g.Y, Rays(g, k), Chan(g, img, k), SinoChan(g, sino, k))(i, j)
    {
      SinoPairScaled(g, img, sino, k, i, j);
    }
  }

  /** Pixel by pixel, the image side of a channel is 1/scale times the unscaled term. */
  lemma ImgPairPointwise(g: Geom, img: seq<real>, sino: seq<real>, k: int)
    ensures Scaled(g.X, g.Y, 1.0 / g.scale, ImgDot(g.I, g.J, Rays(g, k), Chan(g, img, k), SinoChan(g, sino, k)),
                   ImgPair(g, img, sino, k))
  {
    forall x, y | 0 <= x < g.X && 0 <= y < g.Y
      ensures ImgPair(g, img, sino, k)(x, y)
           == (1.0 / g.scale) * ImgDot(g.I, g.J, Rays(g, k), Chan(g, img, k), SinoChan(g, sino, k))(x, y)
    {
      ImgPairScaled(g, img, sino, k, x, y);
    }
  }

  /** On every channel, the inner product of `radon`'s output with a sinogram equals
      the inner product of the image with `radon_ad`'s output for that sinogram. The
      division by scale is on both sides, so the pair stays adjoint. */
  lemma RadonAdjoint(g: Geom, img: seq<real>, sino: seq<real>, k: int)
    ensures GridSum(g.I, g.J, SinoPair(g, img, sino, k)) == GridSum(g.X, g.Y, ImgPair(g, img, sino, k))
  {
    var rays, f, s := Rays(g, k), Chan(g, img, k), SinoChan(g, sino, k);
    SinoPairPointwise(g, img, sino, k);
    GridScale(g.I, g.J, 1.0 / g.scale, SinoDot(g.X, g.Y, rays, f, s), SinoPair(g, img, sino, k));
    ImgPairPointwise(g, img, sino, k);
    GridScale(g.X, g.Y, 1.0 / g.scale, ImgDot(g.I, g.J, rays, f, s), ImgPair(g, img, sino, k));
    ProjectAdjoint(g.X, g.Y, g.I, g.J, rays, f, s);
  }

  // ---------------------------------------------------------------------------
  // The launches: global range (K, J, I) for `radon`, (K, Y, X) for `radon_ad`

  /** The offset of channel k plus the index of (x, y) is the index of (x, ny*k + y)
      in a stack of k images nx wide: channels are consecutive blocks of rows. */
  lemma StackIdx(nx: int, ny: int, k: int, x: int, y: int)
    ensures k * (nx * ny) + Idx(nx, x, y) == Idx(nx, x, Idx(ny, y, k))
  {
    assert nx * (ny * k + y) == k * (nx * ny) + nx * y;
  }

  /** Row r of the stacked sinogram is projection r % J of channel r / J. */
  function RadonRows(g: Geom, img: seq<real>): (int, int) -> real
  {
    (i, r) => RadonValue(g, img, r / g.J, r % g.J, i)
  }

  /** Row r of the stacked image is row r % Y of channel r / Y. */
  function AdRows(g: Geom, sino: seq<real>): (int, int) -> real
  {
    (x, r) => AdValue(g, sino, r / g.Y, x, r % g.Y)
  }

  /** A stack of K blocks of ny rows of nx entries is nx * (K * ny) long. */
  lemma StackSize(nx: int, ny: int, K: int)
    ensures K * (nx * ny) == nx * (K * ny)
  {
  }

  /** Launching `radon` over K channels stores every bin of every projection. */
  method RadonKernel(sino: array<real>, img: seq<real>, g: Geom, K: nat)
    requires RaysWellFormed(g)
    requires sino.Length == K * (g.I * g.J)
    modifies sino
    ensures forall k, j, i :: 0 <= k < K && 0 <= j < g.J && 0 <= i < g.I ==>
      0 <= SinoIdx(g, k, j, i) < sino.Length && sino[SinoIdx(g, k, j, i)] == RadonValue(g, img, k, j, i)
  {
    var rows := K * g.J;
    StackSize(g.I, g.J, K);
    ghost var F := RadonRows(g, img);
    var r := 0;
    while r < rows
      invariant 0 <= r <= rows
      invariant Done(sino[..], g.I, 0, r, F)
    {
      var i := 0;
      while i < g.I
        invariant 0 <= i <= g.I
        invariant Done(sino[..], g.I, i, r, F)
      {
        var v := RadonItem(g, img, r / g.J, r % g.J, i);
        DoneStep(sino[..], g.I, rows, i, r, F);
        sino[Idx(g.I, i, r)] := v;
        i := i + 1;
      }
      DoneRow(sino[..], g.I, r, F);
      r := r + 1;
    }
    forall k, j, i | 0 <= k < K && 0 <= j < g.J && 0 <= i < g.I
      ensures 0 <= SinoIdx(g, k, j, i) < sino.Length && sino[SinoIdx(g, k, j, i)] == RadonValue(g, img, k, j, i)
    {
      IdxInRange(g.J, K, j, k);
      IdxDivMod(g.J, j, k);
      StackIdx(g.I, g.J, k, i, j);
    }
  }

  /** Launching `radon_ad` over K channels stores every pixel of every channel. */
  method RadonAdKernel(img: array<real>, sino: seq<real>, g: Geom, K: nat)
    requires img.Length == K * (g.X * g.Y)
    modifies img
    ensures forall k, x, y :: 0 <= k < K && 0 <= x < g.X && 0 <= y < g.Y ==>
      0 <= ImgIdx(g, k, x, y) < img.Length && img[ImgIdx(g, k, x, y)] == AdValue(g, sino, k, x, y)
  {
    var rows := K * g.Y;
    StackSize(g.X, g.Y, K);
    ghost var F := AdRows(g, sino);
    var r := 0;
    while r < rows
      invariant 0 <= r <= rows
      invariant Done(img[..], g.X, 0, r, F)
    {
      var x := 0;
      while x < g.X
        invariant 0 <= x <= g.X
        invariant Done(img[..], g.X, x, r, F)
      {
        var v := RadonAdItem(g, sino, r / g.Y, x, r % g.Y);
        DoneStep(img[..], g.X, rows, x, r, F);
        img[Idx(g.X, x, r)] := v;
        x := x + 1;
      }
      DoneRow(img[..], g.X, r, F);
      r := r + 1;
    }
    forall k, x, y | 0 <= k < K && 0 <= x < g.X && 0 <= y < g.Y
      ensures 0 <= ImgIdx(g, k, x, y) < img.Length && img[ImgIdx(g, k, x, y)] == AdValue(g, sino, k, x, y)
    {
      IdxInRange(g.Y, K, y, k);
      IdxDivMod(g.Y, y, k);
      StackIdx(g.X, g.Y, k, x, y);
    }
  }
}
