/** The geometry table of the projector (`radon_struct`).

    Every ray of projection angle a gets the slope cos(a)/dw, the row step
    sin(a)/dw and the reciprocal of the slope, dw being the detector width. A ray
    whose reciprocal slope exceeds ten times the number of detectors is snapped to
    vertical: slope and reciprocal zero, row step sin(a) rounded to -1, 0 or 1.
    The offset places the midpoint of the image domain on the detector midpoint
    (nd - 1)/2, shifted by detector_shift/dw.

    cos(a) and sin(a) are inputs; the angles themselves come from the trajectory,
    which is not part of this model. */
module RadonGeometry {
  import opened Sums
  import opened Radon

  /** Per-scan corrections of the domain midpoint along the read and the phase
      direction; the table covers at most ten scans. */
  const ShiftRead: seq<real> := [0.0298, 0.0325, 0.0309, 0.0338, 0.0341, 0.0334, 0.0343, -0.0322, 0.0295, 0.0316]
  const ShiftPhase: seq<real> := [0.0916, 0.0911, 0.0889, 0.0901, 0.0940, 0.0919, 0.0951, 0.0965, 0.1004, 0.1055]

  /** The number of detector bins when none is given: twice the larger image side. */
  function DefaultDetectors(dimX: int, dimY: int): (nd: int)
    ensures nd >= 2 * dimX && nd >= 2 * dimY
    ensures nd == 2 * dimX || nd == 2 * dimY
  {
    if dimX >= dimY then 2 * dimX else 2 * dimY
  }

  /** numpy's `round`: the nearest integer, ties to the even one. */
  function RoundHalfEven(t: real): (r: int)
    ensures -0.5 <= r as real - t <= 0.5
    ensures (r as real - t == 0.5 || r as real - t == -0.5) ==> r % 2 == 0
  {
    var fl := t.Floor;
    var frac := t - fl as real;
    if frac < 0.5 then fl
    else if frac > 0.5 then fl + 1
    else if fl % 2 == 0 then fl
    else fl + 1
  }

  /** The sine of an angle rounds to -1, 0 or 1: a snapped ray steps by at most one
      detector width per row. */
  lemma RoundUnit(sn: real)
    requires -1.0 <= sn <= 1.0
    ensures RoundHalfEven(sn) in {-1, 0, 1}
  {
  }

  /** The snapping test. numpy divides 1.0 by a zero slope to infinity, which also
      exceeds the bound, so a zero slope is snapped as well. */
  predicate NearVertical(slope: real, nd: int)
  {
    slope == 0.0 || Abs(1.0 / slope) > 10.0 * nd as real
  }

  /** Detector coordinate of the point (px, py) of the image plane. */
  function CoordAt(o: Ofs, px: real, py: real): real
  {
    px * o.x + (py * o.y + o.z)
  }

  /** The geometry record of one projection angle, given its cosine and sine, the
      detector width dw, nd detectors, the domain midpoint (mx, my) and the detector
      shift. */
  function ProjectionRay(c: real, sn: real, dw: NonZero, nd: int, mx: real, my: real, shift: real): (o: Ofs)
    ensures Reciprocal(o)
    ensures o.x == 0.0 <==> NearVertical(c / dw, nd)
    ensures o.x == 0.0 <==> o.w == 0.0
    ensures o.x != 0.0 ==> Abs(o.w) <= 10.0 * nd as real
    ensures o.x == 0.0 ==> o.y == RoundHalfEven(sn) as real / dw
    ensures CoordAt(o, mx, my) == (nd as real - 1.0) / 2.0 + shift / dw
  {
    var slope, step := c / dw, sn / dw;
    var snap := NearVertical(slope, nd);
    var x := if snap then 0.0 else slope;
    var y := if snap then RoundHalfEven(sn) as real / dw else step;
    var w := if snap then 0.0 else 1.0 / slope;
    Ofs(x, y, (nd as real - 1.0) / 2.0 - x * mx - y * my + shift / dw, w)
  }

  /** The midpoint of the domain of each scan, as the loop over scans fills it. */
  function ScanMidpoints(dimX: int, dimY: int, NScan: nat): (m: seq<(real, real)>)
    requires NScan <= |ShiftRead|
    ensures |m| == NScan
    ensures forall s :: 0 <= s < NScan ==> m[s] == (dimX as real / 2.0 - ShiftRead[s], dimY as real / 2.0 - ShiftPhase[s])
  {
    seq(NScan, s requires 0 <= s < NScan => (dimX as real / 2.0 - ShiftRead[s], dimY as real / 2.0 - ShiftPhase[s]))
  }

  /** The array of pairs flattened in row-major order, as `np.repeat` without an
      axis does first. */
  function Flatten(m: seq<(real, real)>): (r: seq<real>)
    ensures |r| == 2 * |m|
    ensures forall q :: 0 <= q < |m| ==> r[2 * q] == m[q].0 && r[2 * q + 1] == m[q].1
  {
    if m == [] then [] else [m[0].0, m[0].1] + Flatten(m[1..])
  }

  function RepeatAt(s: seq<real>, n: int, p: int): real
  {
    if 0 < n && 0 <= p && p / n < |s| then s[p / n] else 0.0
  }

  /** Position p of |s| blocks of n lies in block p / n, whose entry is s[p / n]. */
  lemma RepeatAtBlock(s: seq<real>, n: nat, p: int)
    requires 0 <= p < |s| * n
    ensures 0 < n && 0 <= p / n < |s| && RepeatAt(s, n, p) == s[p / n]
  {
  }

  /** `np.repeat(s, n)`: every entry n times in a row. */
  function Repeat(s: seq<real>, n: nat): (r: seq<real>)
    ensures |r| == |s| * n
    ensures forall p :: 0 <= p < |r| ==> 0 < n && r[p] == s[p / n]
  {
    var r := seq(|s| * n, p => RepeatAt(s, n, p));
    forall p | 0 <= p < |r|
      ensures 0 < n && r[p] == s[p / n]
    {
      RepeatAtBlock(s, n, p);
    }
    r
  }

  /** Entries 0 and 1 of the repeated flattened midpoints, which the offset uses as
      the x and the y midpoint. */
  function MidpointsAsWritten(dimX: int, dimY: int, NScan: nat, Nproj: nat): (real, real)
    requires 1 <= NScan <= |ShiftRead| && 1 <= Nproj
  {
    var r := Repeat(Flatten(ScanMidpoints(dimX, dimY, NScan)), Nproj);
    assert |r| == 2 * NScan * Nproj;
    (r[0], r[1])
  }

  /** With two or more projections per scan both entries are the x midpoint of the
      first scan: the y midpoint never reaches the offset. */
  lemma MidpointsCollapse(dimX: int, dimY: int, NScan: nat, Nproj: nat)
    requires 1 <= NScan <= |ShiftRead| && 2 <= Nproj
    ensures MidpointsAsWritten(dimX, dimY, NScan, Nproj)
         == (dimX as real / 2.0 - ShiftRead[0], dimX as real / 2.0 - ShiftRead[0])
  {
    var m := ScanMidpoints(dimX, dimY, NScan);
    var f := Flatten(m);
    var r := Repeat(f, Nproj);
    var x0 := dimX as real / 2.0 - ShiftRead[0];
    assert m[0].0 == x0;
    assert f[2 * 0] == x0;
    FirstBlock(Nproj);
    assert r[0] == RepeatAt(f, Nproj, 0) == f[0];
    assert r[1] == RepeatAt(f, Nproj, 1) == f[0];
  }

  /** Indices 0 and 1 fall in the first block of n repeats. */
  lemma FirstBlock(n: int)
    requires 2 <= n
    ensures 0 / n == 0 && 1 / n == 0
  {
  }

  /** The table `radon_struct` builds: ray n = scan*Nproj + j uses the cosine and sine
      of its angle and the collapsed midpoint. */
  function RayTableAsWritten(cs: seq<real>, sns: seq<real>, dw: NonZero, nd: int, dimX: int, dimY: int,
                             NScan: nat, Nproj: nat, shift: real): (t: seq<Ofs>)
    requires 1 <= NScan <= |ShiftRead| && 1 <= Nproj
    requires |cs| == |sns| == NScan * Nproj
    ensures |t| == NScan * Nproj
    ensures forall n :: 0 <= n < |t| ==> Reciprocal(t[n])
  {
    var mid := MidpointsAsWritten(dimX, dimY, NScan, Nproj);
    seq(|cs|, n requires 0 <= n < |cs| => ProjectionRay(cs[n], sns[n], dw, nd, mid.0, mid.1, shift))
  }

  /** The scan a ray belongs to. */
  function ScanOf(n: int, Nproj: int): int
  {
    if Nproj > 0 then n / Nproj else 0
  }

  lemma ScanOfBound(n: int, NScan: nat, Nproj: nat)
    requires 0 <= n < NScan * Nproj
    ensures 0 <= ScanOf(n, Nproj) < NScan
  {
  }

  /** The ray table with every ray centred on the midpoint of its own scan. */
  function RayTable(cs: seq<real>, sns: seq<real>, dw: NonZero, nd: int, dimX: int, dimY: int,
                    NScan: nat, Nproj: nat, shift: real): (t: seq<Ofs>)
    requires NScan <= |ShiftRead|
    requires |cs| == |sns| == NScan * Nproj
    ensures |t| == NScan * Nproj
    ensures forall n :: 0 <= n < |t| ==> Reciprocal(t[n])
  {
    seq(|cs|, n requires 0 <= n < |cs| => ScanRay(cs, sns, dw, nd, dimX, dimY, NScan, Nproj, shift, n))
  }

  function ScanRay(cs: seq<real>, sns: seq<real>, dw: NonZero, nd: int, dimX: int, dimY: int,
                   NScan: nat, Nproj: nat, shift: real, n: int): (o: Ofs)
    requires NScan <= |ShiftRead|
    requires |cs| == |sns| == NScan * Nproj && 0 <= n < |cs|
    ensures Reciprocal(o)
  {
    ScanOfBound(n, NScan, Nproj);
    var s := ScanOf(n, Nproj);
    ProjectionRay(cs[n], sns[n], dw, nd, dimX as real / 2.0 - ShiftRead[s], dimY as real / 2.0 - ShiftPhase[s], shift)
  }

  /** Every ray of the corrected table projects the midpoint of its scan's domain
      onto the shifted detector midpoint. */
  lemma RayTableCentred(cs: seq<real>, sns: seq<real>, dw: NonZero, nd: int, dimX: int, dimY: int,
                        NScan: nat, Nproj: nat, shift: real, n: int)
    requires NScan <= |ShiftRead|
    requires |cs| == |sns| == NScan * Nproj && 0 <= n < |cs|
    ensures 0 <= ScanOf(n, Nproj) < NScan
    ensures var m := ScanMidpoints(dimX, dimY, NScan)[ScanOf(n, Nproj)];
            CoordAt(RayTable(cs, sns, dw, nd, dimX, dimY, NScan, Nproj, shift)[n], m.0, m.1)
            == (nd as real - 1.0) / 2.0 + shift / dw
  {
    ScanOfBound(n, NScan, Nproj);
  }

  /** With the collapsed midpoint, a vertical ray of a 4-by-4 image with eight
      detectors maps the midpoint of the domain to 3.4382 instead of 3.5. */
  lemma RayTableAsWrittenOffCentre()
    ensures var t := RayTableAsWritten([0.0, 1.0], [1.0, 0.0], 1.0, 8, 4, 4, 1, 2, 0.0);
            CoordAt(t[0], 2.0 - 0.0298, 2.0 - 0.0916) == 3.4382
  {
    MidpointsCollapse(4, 4, 1, 2);
  }
}
