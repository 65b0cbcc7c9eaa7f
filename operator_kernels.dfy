/** The launches of `operator_fwd` and `operator_ad` over flattened buffers.

    Both kernels run one work item per pixel pix = X*y + x of the X-by-Y image and,
    inside it, four nested loops over the unknowns j, the scans, the coils and the
    slices. With P = X*Y pixels per image, the buffers are laid out as

      in / adjoint out   [j][slice][pix]          index P*(NSl*j + slice) + pix
      grad               [j][scan][slice][pix]    index P*(NSl*(NSc*j + scan) + slice) + pix
      coils              [coil][slice][pix]       index P*(NSl*coil + slice) + pix
      forward out / in   [scan][coil][slice][pix] index P*(NSl*(NCo*scan + coil) + slice) + pix

    so every index is Idx(P, pix, m) for a slot m of the pixel; `EntryIndex`,
    `GradIndex`, `CoilIndex` and `SampleIndex` show that these are the kernels' own
    index expressions. Both kernels accumulate with
    `+=`, so each work item adds its sums to what the buffer held. */
module OperatorKernels {
  import opened Images
  import opened Complex
  import opened Operator

  function Pixels(d: Dims): int
  {
    d.X * d.Y
  }

  /** Slots per pixel of the forward result: slices times coils times scans. */
  function Samples(d: Dims): int
  {
    d.NSl * (d.NCo * d.NSc)
  }

  /** Slots per pixel of the unknowns: slices times unknowns. */
  function Entries(d: Dims): int
  {
    d.NSl * d.NUn
  }

  function SampleSlot(d: Dims, sl: int, co: int, sc: int): int
  {
    Idx(d.NSl, sl, Idx(d.NCo, co, sc))
  }

  function EntrySlot(d: Dims, sl: int, j: int): int
  {
    Idx(d.NSl, sl, j)
  }

  function GradSlot(d: Dims, sl: int, sc: int, j: int): int
  {
    Idx(d.NSl, sl, Idx(d.NSc, sc, j))
  }

  function CoilSlot(d: Dims, sl: int, co: int): int
  {
    Idx(d.NSl, sl, co)
  }

  /** The layouts above are the kernels' index expressions. */
  lemma EntryIndex(d: Dims, x: int, y: int, j: int, sl: int)
    ensures Idx(Pixels(d), Idx(d.X, x, y), EntrySlot(d, sl, j))
            == j * d.NSl * d.X * d.Y + sl * d.X * d.Y + y * d.X + x
  {
    var P, e := d.X * d.Y, Idx(d.NSl, sl, j);
    assert P * e == P * (d.NSl * j) + P * sl;
  }

  lemma GradIndex(d: Dims, x: int, y: int, j: int, sc: int, sl: int)
    ensures Idx(Pixels(d), Idx(d.X, x, y), GradSlot(d, sl, sc, j))
            == j * d.NSc * d.NSl * d.X * d.Y + sc * d.NSl * d.X * d.Y + sl * d.X * d.Y + y * d.X + x
  {
    var P, r := d.X * d.Y, Idx(d.NSc, sc, j);
    assert P * Idx(d.NSl, sl, r) == P * (d.NSl * r) + P * sl;
    assert P * (d.NSl * r) == (P * d.NSl) * (d.NSc * j) + (P * d.NSl) * sc;
  }

  lemma CoilIndex(d: Dims, x: int, y: int, co: int, sl: int)
    ensures Idx(Pixels(d), Idx(d.X, x, y), CoilSlot(d, sl, co))
            == co * d.NSl * d.X * d.Y + sl * d.X * d.Y + y * d.X + x
  {
    var P, e := d.X * d.Y, Idx(d.NSl, sl, co);
    assert P * e == P * (d.NSl * co) + P * sl;
  }

  lemma SampleIndex(d: Dims, x: int, y: int, sc: int, co: int, sl: int)
    ensures Idx(Pixels(d), Idx(d.X, x, y), SampleSlot(d, sl, co, sc))
            == sc * d.NCo * d.NSl * d.X * d.Y + co * d.NSl * d.X * d.Y + sl * d.X * d.Y + y * d.X + x
  {
    var P, r := d.X * d.Y, Idx(d.NCo, co, sc);
    assert P * Idx(d.NSl, sl, r) == P * (d.NSl * r) + P * sl;
    assert P * (d.NSl * r) == (P * d.NSl) * (d.NCo * sc) + (P * d.NSl) * co;
  }

  // What the work item at pixel pix reads.

  function InAt(d: Dims, inp: seq<C>, pix: int, j: int, sl: int): C
  {
    CAt(inp, Idx(Pixels(d), pix, EntrySlot(d, sl, j)))
  }

  function GradAt(d: Dims, grad: seq<C>, pix: int, j: int, sc: int, sl: int): C
  {
    CAt(grad, Idx(Pixels(d), pix, GradSlot(d, sl, sc, j)))
  }

  function CoilAt(d: Dims, coils: seq<C>, pix: int, co: int, sl: int): C
  {
    CAt(coils, Idx(Pixels(d), pix, CoilSlot(d, sl, co)))
  }

  function SampleAt(d: Dims, s: seq<C>, pix: int, sc: int, co: int, sl: int): C
  {
    CAt(s, Idx(Pixels(d), pix, SampleSlot(d, sl, co, sc)))
  }

  /** The Jacobian and the coils of pixel pix. */
  function PixelFactors(d: Dims, coils: seq<C>, grad: seq<C>, pix: int): Factors
  {
    Factors((j, sc, sl) => GradAt(d, grad, pix, j, sc, sl),
            (co, sl) => CoilAt(d, coils, pix, co, sl))
  }

  /** The unknowns (or adjoint entries) of pixel pix. */
  function EntryView(d: Dims, s: seq<C>, pix: int): (int, int) -> C
  {
    (j, sl) => InAt(d, s, pix, j, sl)
  }

  function SampleView(d: Dims, s: seq<C>, pix: int): (int, int, int) -> C
  {
    (sc, co, sl) => SampleAt(d, s, pix, sc, co, sl)
  }

  // Decoding a slot back into its indices.

  function SliceOf(d: Dims, m: int): int
  {
    if d.NSl > 0 then m % d.NSl else 0
  }

  function CoilOf(d: Dims, m: int): int
  {
    if d.NSl > 0 && d.NCo > 0 then (m / d.NSl) % d.NCo else 0
  }

  function ScanOf(d: Dims, m: int): int
  {
    if d.NSl > 0 && d.NCo > 0 then (m / d.NSl) / d.NCo else 0
  }

  function UnknownOf(d: Dims, m: int): int
  {
    if d.NSl > 0 then m / d.NSl else 0
  }

  lemma SampleSlotDecode(d: Dims, sl: int, co: int, sc: int)
    requires 0 <= sl < d.NSl && 0 <= co < d.NCo && 0 <= sc < d.NSc
    ensures 0 <= SampleSlot(d, sl, co, sc) < Samples(d)
    ensures SliceOf(d, SampleSlot(d, sl, co, sc)) == sl
    ensures CoilOf(d, SampleSlot(d, sl, co, sc)) == co
    ensures ScanOf(d, SampleSlot(d, sl, co, sc)) == sc
  {
    IdxInRange(d.NCo, d.NSc, co, sc);
    IdxInRange(d.NSl, d.NCo * d.NSc, sl, Idx(d.NCo, co, sc));
    IdxDivMod(d.NSl, sl, Idx(d.NCo, co, sc));
    IdxDivMod(d.NCo, co, sc);
  }

  lemma EntrySlotDecode(d: Dims, sl: int, j: int)
    requires 0 <= sl < d.NSl && 0 <= j < d.NUn
    ensures 0 <= EntrySlot(d, sl, j) < Entries(d)
    ensures SliceOf(d, EntrySlot(d, sl, j)) == sl
    ensures UnknownOf(d, EntrySlot(d, sl, j)) == j
  {
    IdxInRange(d.NSl, d.NUn, sl, j);
    IdxDivMod(d.NSl, sl, j);
  }

  /** The slot of a buffer index lies below the number of slots per pixel. */
  lemma SlotBound(P: int, M: int, q: int)
    requires 0 < P && 0 <= q < P * M
    ensures 0 <= q / P < M && 0 <= q % P < P
  {
    if q / P >= M {
      MulMono(P, M, q / P);
      assert false;
    }
  }

  /** Indices of pixel pix are exactly those with remainder pix, slot m the one
      with quotient m. */
  lemma SlotOf(P: int, pix: int, m: int, q: int)
    requires 0 <= pix < P
    ensures Idx(P, pix, m) % P == pix && Idx(P, pix, m) / P == m
    ensures q % P == pix && q / P == m ==> q == Idx(P, pix, m)
  {
    IdxDivMod(P, pix, m);
  }

  // ----- operator_fwd -----

  /** Forward sample of slot m at a pixel. */
  function FwdAtSlot(d: Dims, f: Factors, a: (int, int) -> C, m: int): C
  {
    FwdValue(d, f, a, ScanOf(d, m), CoilOf(d, m), SliceOf(d, m))
  }

  /** What slot m holds beyond its start value once the loops reach unknown j and
      slot cur: the terms of the unknowns before j, and term j too for a slot
      before cur. */
  function FwdSoFar(d: Dims, f: Factors, a: (int, int) -> C, j: int, cur: int, m: int): C
  {
    CSum(if 0 <= m < cur then j + 1 else j, FwdTerms(f, a, ScanOf(d, m), CoilOf(d, m), SliceOf(d, m)))
  }

  ghost predicate FwdUpTo(s: seq<C>, start: seq<C>, d: Dims, pix: int, f: Factors, a: (int, int) -> C, j: int, cur: int)
  {
    |s| == |start| && 0 < Pixels(d) &&
    forall q :: 0 <= q < |s| ==>
      s[q] == (if q % Pixels(d) == pix then Add(start[q], FwdSoFar(d, f, a, j, cur, q / Pixels(d))) else start[q])
  }

  lemma FwdStart(s: seq<C>, d: Dims, pix: int, f: Factors, a: (int, int) -> C)
    requires 0 < Pixels(d)
    ensures FwdUpTo(s, s, d, pix, f, a, 0, 0)
  {
  }

  /** Adding term j to sample (sc, co, sl) of the pixel moves the cursor one slot on. */
  lemma FwdStep(s: seq<C>, start: seq<C>, d: Dims, pix: int, f: Factors, a: (int, int) -> C, j: int, sl: int, co: int, sc: int)
    requires 0 <= pix < Pixels(d) && |s| == Pixels(d) * Samples(d)
    requires 0 <= j && 0 <= sl < d.NSl && 0 <= co < d.NCo && 0 <= sc < d.NSc
    requires FwdUpTo(s, start, d, pix, f, a, j, SampleSlot(d, sl, co, sc))
    ensures 0 <= Idx(Pixels(d), pix, SampleSlot(d, sl, co, sc)) < |s|
    ensures var q := Idx(Pixels(d), pix, SampleSlot(d, sl, co, sc));
            FwdUpTo(s[q := Add(s[q], FwdTerm(f, a, j, sc, co, sl))], start, d, pix, f, a, j, SampleSlot(d, sl, co, sc) + 1)
  {
    var P, m := Pixels(d), SampleSlot(d, sl, co, sc);
    SampleSlotDecode(d, sl, co, sc);
    IdxInRange(P, Samples(d), pix, m);
    var q := Idx(P, pix, m);
    var s' := s[q := Add(s[q], FwdTerm(f, a, j, sc, co, sl))];
    CSumStep(j, FwdTerms(f, a, sc, co, sl));
    forall q' | 0 <= q' < |s'|
      ensures s'[q'] == (if q' % P == pix then Add(start[q'], FwdSoFar(d, f, a, j, m + 1, q' / P)) else start[q'])
    {
      SlotOf(P, pix, m, q');
    }
  }

  /** Once every slot has term j, the next unknown starts. */
  lemma FwdNextUnknown(s: seq<C>, start: seq<C>, d: Dims, pix: int, f: Factors, a: (int, int) -> C, j: int)
    requires |s| == Pixels(d) * Samples(d)
    requires FwdUpTo(s, start, d, pix, f, a, j, Samples(d))
    ensures FwdUpTo(s, start, d, pix, f, a, j + 1, 0)
  {
    forall q | 0 <= q < |s|
      ensures 0 <= q / Pixels(d) < Samples(d)
    {
      SlotBound(Pixels(d), Samples(d), q);
    }
  }

  lemma SampleSlotNext(d: Dims, co: int, sc: int)
    ensures SampleSlot(d, d.NSl, co, sc) == SampleSlot(d, 0, co + 1, sc)
    ensures SampleSlot(d, 0, d.NCo, sc) == SampleSlot(d, 0, 0, sc + 1)
    ensures SampleSlot(d, 0, 0, d.NSc) == Samples(d)
  {
    IdxNeighbours(d.NSl, 0, Idx(d.NCo, co, sc));
    IdxNeighbours(d.NCo, 0, sc);
  }

  /** The innermost loop of `operator_fwd`: term j of every slice of sample
      (scan, coil). */
  method FwdSlices(out: array<C>, ghost start: seq<C>, d: Dims, pix: int, f: Factors, a: (int, int) -> C, j: nat, scan: nat, coil: nat)
    requires 0 <= pix < Pixels(d) && out.Length == Pixels(d) * Samples(d)
    requires coil < d.NCo && scan < d.NSc
    requires FwdUpTo(out[..], start, d, pix, f, a, j, SampleSlot(d, 0, coil, scan))
    modifies out
    ensures FwdUpTo(out[..], start, d, pix, f, a, j, SampleSlot(d, 0, coil + 1, scan))
  {
    var P := d.X * d.Y;
    var slice := 0;
    while slice < d.NSl
      invariant 0 <= slice <= d.NSl
      invariant FwdUpTo(out[..], start, d, pix, f, a, j, SampleSlot(d, slice, coil, scan))
    {
      var tmpIn := a(j, slice);
      var tmpGrad := f.grad(j, scan, slice);
      var tmpCoil := f.coil(coil, slice);
      var tmpMul := Mul(tmpIn, tmpGrad);
      FwdStep(out[..], start, d, pix, f, a, j, slice, coil, scan);
      var id := Idx(P, pix, SampleSlot(d, slice, coil, scan));
      out[id] := Add(out[id], Mul(tmpMul, tmpCoil));
      slice := slice + 1;
    }
    SampleSlotNext(d, coil, scan);
  }

  /** The coil and slice loops of `operator_fwd` for unknown j and one scan. */
  method FwdCoils(out: array<C>, ghost start: seq<C>, d: Dims, pix: int, f: Factors, a: (int, int) -> C, j: nat, scan: nat)
    requires 0 <= pix < Pixels(d) && out.Length == Pixels(d) * Samples(d)
    requires scan < d.NSc
    requires FwdUpTo(out[..], start, d, pix, f, a, j, SampleSlot(d, 0, 0, scan))
    modifies out
    ensures FwdUpTo(out[..], start, d, pix, f, a, j, SampleSlot(d, 0, 0, scan + 1))
  {
    var coil := 0;
    while coil < d.NCo
      invariant 0 <= coil <= d.NCo
      invariant FwdUpTo(out[..], start, d, pix, f, a, j, SampleSlot(d, 0, coil, scan))
    {
      FwdSlices(out, start, d, pix, f, a, j, scan, coil);
      coil := coil + 1;
    }
    SampleSlotNext(d, 0, scan);
  }

  /** The scan, coil and slice loops of `operator_fwd` for unknown j. */
  method FwdScans(out: array<C>, ghost start: seq<C>, d: Dims, pix: int, f: Factors, a: (int, int) -> C, j: nat)
    requires 0 <= pix < Pixels(d) && out.Length == Pixels(d) * Samples(d)
    requires FwdUpTo(out[..], start, d, pix, f, a, j, 0)
    modifies out
    ensures FwdUpTo(out[..], start, d, pix, f, a, j + 1, 0)
  {
    SampleSlotNext(d, 0, 0);
    var scan := 0;
    while scan < d.NSc
      invariant 0 <= scan <= d.NSc
      invariant FwdUpTo(out[..], start, d, pix, f, a, j, SampleSlot(d, 0, 0, scan))
    {
      FwdCoils(out, start, d, pix, f, a, j, scan);
      scan := scan + 1;
    }
    FwdNextUnknown(out[..], start, d, pix, f, a, j);
  }

  /** The work item of `operator_fwd` at pixel pix: every sample (scan, coil, slice)
      of the pixel gains the sum over the unknowns; nothing else changes. */
  method FwdItem(out: array<C>, d: Dims, pix: int, f: Factors, a: (int, int) -> C)
    requires 0 <= pix < Pixels(d) && out.Length == Pixels(d) * Samples(d)
    modifies out
    ensures forall q :: 0 <= q < out.Length ==>
      out[q] == (if q % Pixels(d) == pix then Add(old(out[q]), FwdAtSlot(d, f, a, q / Pixels(d))) else old(out[q]))
  {
    ghost var start := out[..];
    FwdStart(out[..], d, pix, f, a);
    var j := 0;
    while j < d.NUn
      invariant 0 <= j <= d.NUn
      invariant FwdUpTo(out[..], start, d, pix, f, a, j, 0)
    {
      FwdScans(out, start, d, pix, f, a, j);
      j := j + 1;
    }
  }

  // ----- operator_ad -----

  /** Adjoint entry of slot m at a pixel. */
  function AdAtSlot(d: Dims, zeroImag: bool, f: Factors, y: (int, int, int) -> C, m: int): C
  {
    AdValue(d, zeroImag, f, y, UnknownOf(d, m), SliceOf(d, m))
  }

  /** What slot m holds beyond its start value once the loops reach (j, sc, co, sl):
      the whole entry for an earlier unknown, nothing for a later one, and for
      unknown j the scans before sc plus the coils of scan sc before co, coil co
      included for a slice before sl. */
  function AdSoFar(d: Dims, zeroImag: bool, f: Factors, y: (int, int, int) -> C, j: int, sc: int, co: int, sl: int, m: int): C
  {
    var mj, msl := UnknownOf(d, m), SliceOf(d, m);
    if mj < j then AdValue(d, zeroImag, f, y, mj, msl)
    else if mj > j then Zero
    else Add(CSum(sc, ScanSums(d, zeroImag, f, y, j, msl)),
             CSum(if msl < sl then co + 1 else co, CoilTerms(zeroImag, f, y, j, sc, msl)))
  }

  ghost predicate AdUpTo(s: seq<C>, start: seq<C>, d: Dims, pix: int, zeroImag: bool, f: Factors, y: (int, int, int) -> C,
                         j: int, sc: int, co: int, sl: int)
  {
    |s| == |start| && 0 < Pixels(d) &&
    forall q :: 0 <= q < |s| ==>
      s[q] == (if q % Pixels(d) == pix then Add(start[q], AdSoFar(d, zeroImag, f, y, j, sc, co, sl, q / Pixels(d))) else start[q])
  }

  lemma AdStart(s: seq<C>, d: Dims, pix: int, zeroImag: bool, f: Factors, y: (int, int, int) -> C)
    requires 0 < Pixels(d) && |s| == Pixels(d) * Entries(d)
    ensures AdUpTo(s, s, d, pix, zeroImag, f, y, 0, 0, 0, 0)
  {
    forall q | 0 <= q < |s|
      ensures 0 <= q / Pixels(d) && (d.NSl > 0 ==> 0 <= UnknownOf(d, q / Pixels(d)))
    {
      SlotBound(Pixels(d), Entries(d), q);
    }
  }

  /** A slot is rebuilt from its slice and its unknown. */
  lemma EntrySlotOf(d: Dims, m: int)
    requires 0 < d.NSl
    ensures m == EntrySlot(d, SliceOf(d, m), UnknownOf(d, m))
  {
  }

  /** Moving the slice cursor past sl adds term (sc, co) to slot (j, sl) and leaves
      every other slot as it was. */
  lemma AdSoFarStep(d: Dims, zeroImag: bool, f: Factors, y: (int, int, int) -> C, j: int, sc: int, co: int, sl: int, m: int)
    requires 0 <= sl < d.NSl && 0 <= co
    ensures m == EntrySlot(d, sl, j) ==>
      AdSoFar(d, zeroImag, f, y, j, sc, co, sl + 1, m) == Add(AdSoFar(d, zeroImag, f, y, j, sc, co, sl, m), AdTerm(zeroImag, f, y, j, sc, co, sl))
    ensures m != EntrySlot(d, sl, j) ==>
      AdSoFar(d, zeroImag, f, y, j, sc, co, sl + 1, m) == AdSoFar(d, zeroImag, f, y, j, sc, co, sl, m)
  {
    EntrySlotOf(d, m);
    if m == EntrySlot(d, sl, j) {
      IdxDivMod(d.NSl, sl, j);
      CSumStep(co, CoilTerms(zeroImag, f, y, j, sc, sl));
    }
  }

  /** Adding term (sc, co) to entry (j, sl) of the pixel moves the slice cursor on. */
  lemma AdStep(s: seq<C>, start: seq<C>, d: Dims, pix: int, zeroImag: bool, f: Factors, y: (int, int, int) -> C,
               j: int, sc: int, co: int, sl: int)
    requires 0 <= pix < Pixels(d) && |s| == Pixels(d) * Entries(d)
    requires 0 <= j < d.NUn && 0 <= sl < d.NSl && 0 <= co
    requires AdUpTo(s, start, d, pix, zeroImag, f, y, j, sc, co, sl)
    ensures 0 <= Idx(Pixels(d), pix, EntrySlot(d, sl, j)) < |s|
    ensures var q := Idx(Pixels(d), pix, EntrySlot(d, sl, j));
            AdUpTo(s[q := Add(s[q], AdTerm(zeroImag, f, y, j, sc, co, sl))], start, d, pix, zeroImag, f, y, j, sc, co, sl + 1)
  {
    var P, m := Pixels(d), EntrySlot(d, sl, j);
    EntrySlotDecode(d, sl, j);
    IdxInRange(P, Entries(d), pix, m);
    var q := Idx(P, pix, m);
    var s' := s[q := Add(s[q], AdTerm(zeroImag, f, y, j, sc, co, sl))];
    var t := AdTerm(zeroImag, f, y, j, sc, co, sl);
    forall q' | 0 <= q' < |s'|
      ensures s'[q'] == (if q' % P == pix then Add(start[q'], AdSoFar(d, zeroImag, f, y, j, sc, co, sl + 1, q' / P)) else start[q'])
    {
      var v, st := s[q'], start[q'];
      AdStepAt(d, zeroImag, f, y, j, sc, co, sl, P, pix, m, q, q', v, st, t);
    }
  }

  /** Slot q' of AdStep: the one entry that receives term t moves its cursor, the
      others keep their value. */
  lemma AdStepAt(d: Dims, zeroImag: bool, f: Factors, y: (int, int, int) -> C, j: int, sc: int, co: int, sl: int,
                 P: int, pix: int, m: int, q: int, q': int, v: C, st: C, t: C)
    requires P == Pixels(d) && 0 <= pix < P && 0 <= sl < d.NSl && 0 <= co
    requires m == EntrySlot(d, sl, j) && q == Idx(P, pix, m)
    requires t == AdTerm(zeroImag, f, y, j, sc, co, sl)
    requires v == (if q' % P == pix then Add(st, AdSoFar(d, zeroImag, f, y, j, sc, co, sl, q' / P)) else st)
    ensures (if q' == q then Add(v, t) else v)
         == (if q' % P == pix then Add(st, AdSoFar(d, zeroImag, f, y, j, sc, co, sl + 1, q' / P)) else st)
  {
    SlotOf(P, pix, m, q');
    AdSoFarStep(d, zeroImag, f, y, j, sc, co, sl, q' / P);
  }

  /** After the last slice the next coil starts. */
  lemma AdNextCoil(s: seq<C>, start: seq<C>, d: Dims, pix: int, zeroImag: bool, f: Factors, y: (int, int, int) -> C,
                   j: int, sc: int, co: int)
    requires |s| == Pixels(d) * Entries(d)
    requires AdUpTo(s, start, d, pix, zeroImag, f, y, j, sc, co, d.NSl)
    ensures AdUpTo(s, start, d, pix, zeroImag, f, y, j, sc, co + 1, 0)
  {
    if d.NSl == 0 {
      assert |s| == 0;
    } else {
      forall q | 0 <= q < |s|
        ensures AdSoFar(d, zeroImag, f, y, j, sc, co, d.NSl, q / Pixels(d)) == AdSoFar(d, zeroImag, f, y, j, sc, co + 1, 0, q / Pixels(d))
      {
        AdSoFarNextCoil(d, zeroImag, f, y, j, sc, co, q / Pixels(d));
      }
    }
  }

  /** A slot that holds coil co of every slice holds coil co + 1 of none. */
  lemma AdSoFarNextCoil(d: Dims, zeroImag: bool, f: Factors, y: (int, int, int) -> C, j: int, sc: int, co: int, m: int)
    requires 0 < d.NSl
    ensures AdSoFar(d, zeroImag, f, y, j, sc, co, d.NSl, m) == AdSoFar(d, zeroImag, f, y, j, sc, co + 1, 0, m)
  {
    assert 0 <= SliceOf(d, m) < d.NSl;
  }

  /** After the last coil the next scan starts. */
  lemma AdNextScan(s: seq<C>, start: seq<C>, d: Dims, pix: int, zeroImag: bool, f: Factors, y: (int, int, int) -> C,
                   j: int, sc: int)
    requires 0 <= sc && AdUpTo(s, start, d, pix, zeroImag, f, y, j, sc, d.NCo, 0)
    ensures AdUpTo(s, start, d, pix, zeroImag, f, y, j, sc + 1, 0, 0)
  {
    forall q | 0 <= q < |s| && q % Pixels(d) == pix && UnknownOf(d, q / Pixels(d)) == j
      ensures AdSoFar(d, zeroImag, f, y, j, sc, d.NCo, 0, q / Pixels(d)) == AdSoFar(d, zeroImag, f, y, j, sc + 1, 0, 0, q / Pixels(d))
    {
      CSumStep(sc, ScanSums(d, zeroImag, f, y, j, SliceOf(d, q / Pixels(d))));
    }
  }

  /** After the last scan the next unknown starts. */
  lemma AdNextUnknown(s: seq<C>, start: seq<C>, d: Dims, pix: int, zeroImag: bool, f: Factors, y: (int, int, int) -> C, j: int)
    requires AdUpTo(s, start, d, pix, zeroImag, f, y, j, d.NSc, 0, 0)
    ensures AdUpTo(s, start, d, pix, zeroImag, f, y, j + 1, 0, 0, 0)
  {
  }

  /** Once the unknowns are done, every slot of the pixel holds its whole entry. */
  lemma AdSoFarDone(d: Dims, zeroImag: bool, f: Factors, y: (int, int, int) -> C, m: int)
    requires 0 <= m < Entries(d)
    ensures AdSoFar(d, zeroImag, f, y, d.NUn, 0, 0, 0, m) == AdAtSlot(d, zeroImag, f, y, m)
  {
    SlotBound(d.NSl, d.NUn, m);
  }

  lemma AdDone(s: seq<C>, start: seq<C>, d: Dims, pix: int, zeroImag: bool, f: Factors, y: (int, int, int) -> C)
    requires |s| == Pixels(d) * Entries(d)
    requires AdUpTo(s, start, d, pix, zeroImag, f, y, d.NUn, 0, 0, 0)
    ensures forall q :: 0 <= q < |s| ==>
      s[q] == (if q % Pixels(d) == pix then Add(start[q], AdAtSlot(d, zeroImag, f, y, q / Pixels(d))) else start[q])
  {
    forall q | 0 <= q < |s|
      ensures s[q] == (if q % Pixels(d) == pix then Add(start[q], AdAtSlot(d, zeroImag, f, y, q / Pixels(d))) else start[q])
    {
      SlotBound(Pixels(d), Entries(d), q);
      AdSoFarDone(d, zeroImag, f, y, q / Pixels(d));
    }
  }

  /** The innermost loop of `operator_ad`: term (scan, coil) of every slice of
      entry j, the sample screened as line 318 does when zeroImag is set. */
  method AdSlices(out: array<C>, ghost start: seq<C>, d: Dims, pix: int, zeroImag: bool, f: Factors, y: (int, int, int) -> C,
                  j: nat, scan: nat, coil: nat)
    requires 0 <= pix < Pixels(d) && out.Length == Pixels(d) * Entries(d)
    requires j < d.NUn
    requires AdUpTo(out[..], start, d, pix, zeroImag, f, y, j, scan, coil, 0)
    modifies out
    ensures AdUpTo(out[..], start, d, pix, zeroImag, f, y, j, scan, coil + 1, 0)
  {
    var P := d.X * d.Y;
    var slice := 0;
    while slice < d.NSl
      invariant 0 <= slice <= d.NSl
      invariant AdUpTo(out[..], start, d, pix, zeroImag, f, y, j, scan, coil, slice)
    {
      var conjGrad := Conj(f.grad(j, scan, slice));
      var conjCoil := Conj(f.coil(coil, slice));
      var tmpIn := y(scan, coil, slice);
      if zeroImag && tmpIn.im != 0.0 {
        tmpIn := Zero;
      }
      var tmpMul := Mul(tmpIn, conjGrad);
      AdStep(out[..], start, d, pix, zeroImag, f, y, j, scan, coil, slice);
      var id := Idx(P, pix, EntrySlot(d, slice, j));
      out[id] := Add(out[id], Mul(tmpMul, conjCoil));
      slice := slice + 1;
    }
    AdNextCoil(out[..], start, d, pix, zeroImag, f, y, j, scan, coil);
  }

  /** The coil and slice loops of `operator_ad` for unknown j and one scan. */
  method AdCoils(out: array<C>, ghost start: seq<C>, d: Dims, pix: int, zeroImag: bool, f: Factors, y: (int, int, int) -> C,
                 j: nat, scan: nat)
    requires 0 <= pix < Pixels(d) && out.Length == Pixels(d) * Entries(d)
    requires j < d.NUn
    requires AdUpTo(out[..], start, d, pix, zeroImag, f, y, j, scan, 0, 0)
    modifies out
    ensures AdUpTo(out[..], start, d, pix, zeroImag, f, y, j, scan + 1, 0, 0)
  {
    var coil := 0;
    while coil < d.NCo
      invariant 0 <= coil <= d.NCo
      invariant AdUpTo(out[..], start, d, pix, zeroImag, f, y, j, scan, coil, 0)
    {
      AdSlices(out, start, d, pix, zeroImag, f, y, j, scan, coil);
      coil := coil + 1;
    }
    AdNextScan(out[..], start, d, pix, zeroImag, f, y, j, scan);
  }

  /** The work item of `operator_ad` at pixel pix: every entry (j, slice) of the pixel
      gains the sum over scans and coils; nothing else changes. */
  method AdItem(out: array<C>, d: Dims, pix: int, zeroImag: bool, f: Factors, y: (int, int, int) -> C)
    requires 0 <= pix < Pixels(d) && out.Length == Pixels(d) * Entries(d)
    modifies out
    ensures forall q :: 0 <= q < out.Length ==>
      out[q] == (if q % Pixels(d) == pix then Add(old(out[q]), AdAtSlot(d, zeroImag, f, y, q / Pixels(d))) else old(out[q]))
  {
    ghost var start := out[..];
    AdStart(out[..], d, pix, zeroImag, f, y);
    var j := 0;
    while j < d.NUn
      invariant 0 <= j <= d.NUn
      invariant AdUpTo(out[..], start, d, pix, zeroImag, f, y, j, 0, 0, 0)
    {
      var scan := 0;
      while scan < d.NSc
        invariant 0 <= scan <= d.NSc
        invariant AdUpTo(out[..], start, d, pix, zeroImag, f, y, j, scan, 0, 0)
      {
        AdCoils(out, start, d, pix, zeroImag, f, y, j, scan);
        scan := scan + 1;
      }
      AdNextUnknown(out[..], start, d, pix, zeroImag, f, y, j);
      j := j + 1;
    }
    AdDone(out[..], start, d, pix, zeroImag, f, y);
  }

  // ----- the launches over the X-by-Y image -----

  /** The first p pixels of s hold their start value plus val(pix, slot); the
      others hold their start value. */
  ghost predicate PixelsUpTo(s: seq<C>, start: seq<C>, P: int, p: int, val: (int, int) -> C)
  {
    0 < P && |s| == |start| &&
    forall q :: 0 <= q < |s| ==> s[q] == (if q % P < p then Add(start[q], val(q % P, q / P)) else start[q])
  }

  /** A work item that adds val at pixel p and nothing elsewhere finishes pixel p. */
  lemma PixelsStep(s: seq<C>, s': seq<C>, start: seq<C>, P: int, p: int, val: (int, int) -> C)
    requires PixelsUpTo(s, start, P, p, val) && 0 <= p
    requires |s'| == |s|
    requires forall q :: 0 <= q < |s'| ==> s'[q] == (if q % P == p then Add(s[q], val(p, q / P)) else s[q])
    ensures PixelsUpTo(s', start, P, p + 1, val)
  {
  }

  /** Once all P pixels are done, every index holds its start value plus val. */
  lemma PixelsDone(s: seq<C>, start: seq<C>, P: int, val: (int, int) -> C)
    requires PixelsUpTo(s, start, P, P, val)
    ensures forall q :: 0 <= q < |s| ==> s[q] == Add(start[q], val(q % P, q / P))
  {
  }

  /** Forward sample of slot m at pixel pix, read from the buffers. */
  function FwdAtPixel(d: Dims, inp: seq<C>, coils: seq<C>, grad: seq<C>, pix: int, m: int): C
  {
    FwdAtSlot(d, PixelFactors(d, coils, grad, pix), EntryView(d, inp, pix), m)
  }

  function FwdPixels(d: Dims, inp: seq<C>, coils: seq<C>, grad: seq<C>): (int, int) -> C
  {
    (pix, m) => FwdAtPixel(d, inp, coils, grad, pix, m)
  }

  /** The work item of pixel pix, seen from the launch: pixel pix is finished. */
  method FwdPixel(out: array<C>, ghost start: seq<C>, d: Dims, inp: seq<C>, coils: seq<C>, grad: seq<C>, pix: int)
    requires 0 <= pix < Pixels(d) && out.Length == Pixels(d) * Samples(d)
    requires PixelsUpTo(out[..], start, Pixels(d), pix, FwdPixels(d, inp, coils, grad))
    modifies out
    ensures PixelsUpTo(out[..], start, Pixels(d), pix + 1, FwdPixels(d, inp, coils, grad))
  {
    ghost var before := out[..];
    FwdItem(out, d, pix, PixelFactors(d, coils, grad, pix), EntryView(d, inp, pix));
    PixelsStep(before, out[..], start, Pixels(d), pix, FwdPixels(d, inp, coils, grad));
  }

  /** `operator_fwd` launched over the image: every sample of every pixel gains its
      forward value, computed from the pixel's unknowns, Jacobian and coils. */
  method FwdKernel(out: array<C>, inp: seq<C>, coils: seq<C>, grad: seq<C>, d: Dims)
    requires out.Length == Pixels(d) * Samples(d)
    modifies out
    ensures forall q :: 0 <= q < out.Length ==>
      out[q] == Add(old(out[q]), FwdAtPixel(d, inp, coils, grad, q % Pixels(d), q / Pixels(d)))
  {
    ghost var start := out[..];
    var y := 0;
    while y < d.Y
      invariant 0 <= y <= d.Y
      invariant 0 < Pixels(d) ==> PixelsUpTo(out[..], start, Pixels(d), Idx(d.X, 0, y), FwdPixels(d, inp, coils, grad))
      invariant Pixels(d) == 0 ==> out[..] == start
    {
      var x := 0;
      while x < d.X
        invariant 0 <= x <= d.X
        invariant 0 < Pixels(d) ==> PixelsUpTo(out[..], start, Pixels(d), Idx(d.X, x, y), FwdPixels(d, inp, coils, grad))
        invariant Pixels(d) == 0 ==> out[..] == start
      {
        IdxInRange(d.X, d.Y, x, y);
        FwdPixel(out, start, d, inp, coils, grad, Idx(d.X, x, y));
        IdxNeighbours(d.X, x, y);
        x := x + 1;
      }
      IdxNeighbours(d.X, 0, y);
      y := y + 1;
    }
    if 0 < Pixels(d) {
      assert Idx(d.X, 0, d.Y) == Pixels(d);
      PixelsDone(out[..], start, Pixels(d), FwdPixels(d, inp, coils, grad));
    } else {
      assert out.Length == 0;
    }
  }

  /** Adjoint entry of slot m at pixel pix, read from the buffers; inBuf holds the
      samples. */
  function AdAtPixel(d: Dims, zeroImag: bool, inBuf: seq<C>, coils: seq<C>, grad: seq<C>, pix: int, m: int): C
  {
    AdAtSlot(d, zeroImag, PixelFactors(d, coils, grad, pix), SampleView(d, inBuf, pix), m)
  }

  function AdPixels(d: Dims, zeroImag: bool, inBuf: seq<C>, coils: seq<C>, grad: seq<C>): (int, int) -> C
  {
    (pix, m) => AdAtPixel(d, zeroImag, inBuf, coils, grad, pix, m)
  }

  /** The adjoint work item of pixel pix, seen from the launch. */
  method AdPixel(out: array<C>, ghost start: seq<C>, d: Dims, zeroImag: bool, inBuf: seq<C>, coils: seq<C>, grad: seq<C>, pix: int)
    requires 0 <= pix < Pixels(d) && out.Length == Pixels(d) * Entries(d)
    requires PixelsUpTo(out[..], start, Pixels(d), pix, AdPixels(d, zeroImag, inBuf, coils, grad))
    modifies out
    ensures PixelsUpTo(out[..], start, Pixels(d), pix + 1, AdPixels(d, zeroImag, inBuf, coils, grad))
  {
    ghost var before := out[..];
    AdItem(out, d, pix, zeroImag, PixelFactors(d, coils, grad, pix), SampleView(d, inBuf, pix));
    PixelsStep(before, out[..], start, Pixels(d), pix, AdPixels(d, zeroImag, inBuf, coils, grad));
  }

  /** `operator_ad` launched over the image: every entry of every pixel gains its
      adjoint value, computed from the pixel's samples, Jacobian and coils; with
      zeroImag set the samples pass the test of line 318 first. */
  method AdKernel(out: array<C>, inBuf: seq<C>, coils: seq<C>, grad: seq<C>, d: Dims, zeroImag: bool)
    requires out.Length == Pixels(d) * Entries(d)
    modifies out
    ensures forall q :: 0 <= q < out.Length ==>
      out[q] == Add(old(out[q]), AdAtPixel(d, zeroImag, inBuf, coils, grad, q % Pixels(d), q / Pixels(d)))
  {
    ghost var start := out[..];
    var y := 0;
    while y < d.Y
      invariant 0 <= y <= d.Y
      invariant 0 < Pixels(d) ==> PixelsUpTo(out[..], start, Pixels(d), Idx(d.X, 0, y), AdPixels(d, zeroImag, inBuf, coils, grad))
      invariant Pixels(d) == 0 ==> out[..] == start
    {
      var x := 0;
      while x < d.X
        invariant 0 <= x <= d.X
        invariant 0 < Pixels(d) ==> PixelsUpTo(out[..], start, Pixels(d), Idx(d.X, x, y), AdPixels(d, zeroImag, inBuf, coils, grad))
        invariant Pixels(d) == 0 ==> out[..] == start
      {
        IdxInRange(d.X, d.Y, x, y);
        AdPixel(out, start, d, zeroImag, inBuf, coils, grad, Idx(d.X, x, y));
        IdxNeighbours(d.X, x, y);
        x := x + 1;
      }
      IdxNeighbours(d.X, 0, y);
      y := y + 1;
    }
    if 0 < Pixels(d) {
      assert Idx(d.X, 0, d.Y) == Pixels(d);
      PixelsDone(out[..], start, Pixels(d), AdPixels(d, zeroImag, inBuf, coils, grad));
    } else {
      assert out.Length == 0;
    }
  }

  // ----- adjointness over whole buffers -----

  /** <s, t> over the samples of slice sl of pixel pix. */
  function PixelSampleDot(d: Dims, s: seq<C>, t: seq<C>, pix: int): int -> C
  {
    sl => SampleDot(d, SampleView(d, s, pix), SampleView(d, t, pix), sl)
  }

  function PixelSampleInner(d: Dims, s: seq<C>, t: seq<C>): int -> C
  {
    pix => CSum(d.NSl, PixelSampleDot(d, s, t, pix))
  }

  /** <s, t> over all samples: pixels, slices, scans and coils. */
  function SampleInner(d: Dims, s: seq<C>, t: seq<C>): C
  {
    CSum(Pixels(d), PixelSampleInner(d, s, t))
  }

  /** <s, t> over the unknowns of slice sl of pixel pix. */
  function PixelEntryDot(d: Dims, s: seq<C>, t: seq<C>, pix: int): int -> C
  {
    sl => EntryDot(d, EntryView(d, s, pix), EntryView(d, t, pix), sl)
  }

  function PixelEntryInner(d: Dims, s: seq<C>, t: seq<C>): int -> C
  {
    pix => CSum(d.NSl, PixelEntryDot(d, s, t, pix))
  }

  /** <s, t> over all unknowns: pixels, slices and unknowns. */
  function EntryInner(d: Dims, s: seq<C>, t: seq<C>): C
  {
    CSum(Pixels(d), PixelEntryInner(d, s, t))
  }

  /** The sample inner product reads its left argument only inside the ranges. */
  lemma SampleDotExt(d: Dims, u: (int, int, int) -> C, u': (int, int, int) -> C, w: (int, int, int) -> C, sl: int)
    requires forall sc, co :: 0 <= sc < d.NSc && 0 <= co < d.NCo ==> u(sc, co, sl) == u'(sc, co, sl)
    ensures SampleDot(d, u, w, sl) == SampleDot(d, u', w, sl)
  {
    forall sc | 0 <= sc < d.NSc
      ensures SampleScans(d, u, w, sl)(sc) == SampleScans(d, u', w, sl)(sc)
    {
      CSumExt(d.NCo, SampleRow(u, w, sc, sl), SampleRow(u', w, sc, sl));
    }
    CSumExt(d.NSc, SampleScans(d, u, w, sl), SampleScans(d, u', w, sl));
  }

  /** The entry inner product reads its right argument only inside the range. */
  lemma EntryDotExt(d: Dims, a: (int, int) -> C, b: (int, int) -> C, b': (int, int) -> C, sl: int)
    requires forall j :: 0 <= j < d.NUn ==> b(j, sl) == b'(j, sl)
    ensures EntryDot(d, a, b, sl) == EntryDot(d, a, b', sl)
  {
    CSumExt(d.NUn, EntryProds(a, b, sl), EntryProds(a, b', sl));
  }

  /** A buffer holding the forward values holds, at every sample of a pixel, the
      forward operator applied to that pixel. */
  lemma FwdOutAt(d: Dims, inp: seq<C>, coils: seq<C>, grad: seq<C>, out: seq<C>, pix: int, sc: int, co: int, sl: int)
    requires 0 <= pix < Pixels(d) && |out| == Pixels(d) * Samples(d)
    requires forall q :: 0 <= q < |out| ==> out[q] == FwdAtPixel(d, inp, coils, grad, q % Pixels(d), q / Pixels(d))
    requires 0 <= sc < d.NSc && 0 <= co < d.NCo && 0 <= sl < d.NSl
    ensures SampleAt(d, out, pix, sc, co, sl) == FwdValue(d, PixelFactors(d, coils, grad, pix), EntryView(d, inp, pix), sc, co, sl)
  {
    var m := SampleSlot(d, sl, co, sc);
    SampleSlotDecode(d, sl, co, sc);
    IdxInRange(Pixels(d), Samples(d), pix, m);
    SlotOf(Pixels(d), pix, m, 0);
  }

  /** A buffer holding the adjoint values holds, at every entry of a pixel, the
      adjoint operator applied to that pixel. */
  lemma AdOutAt(d: Dims, zeroImag: bool, inBuf: seq<C>, coils: seq<C>, grad: seq<C>, out: seq<C>, pix: int, j: int, sl: int)
    requires 0 <= pix < Pixels(d) && |out| == Pixels(d) * Entries(d)
    requires forall q :: 0 <= q < |out| ==> out[q] == AdAtPixel(d, zeroImag, inBuf, coils, grad, q % Pixels(d), q / Pixels(d))
    requires 0 <= j < d.NUn && 0 <= sl < d.NSl
    ensures InAt(d, out, pix, j, sl) == AdValue(d, zeroImag, PixelFactors(d, coils, grad, pix), SampleView(d, inBuf, pix), j, sl)
  {
    var m := EntrySlot(d, sl, j);
    EntrySlotDecode(d, sl, j);
    IdxInRange(Pixels(d), Entries(d), pix, m);
    SlotOf(Pixels(d), pix, m, 0);
  }

  /** The forward buffer against y at one pixel and slice is the forward operator
      against y. */
  lemma FwdSliceDot(d: Dims, inp: seq<C>, coils: seq<C>, grad: seq<C>, yBuf: seq<C>, fwdOut: seq<C>, pix: int, sl: int)
    requires 0 <= pix < Pixels(d) && 0 <= sl < d.NSl
    requires |fwdOut| == Pixels(d) * Samples(d)
    requires forall q :: 0 <= q < |fwdOut| ==> fwdOut[q] == FwdAtPixel(d, inp, coils, grad, q % Pixels(d), q / Pixels(d))
    ensures PixelSampleDot(d, fwdOut, yBuf, pix)(sl)
         == SampleDot(d, FwdView(d, PixelFactors(d, coils, grad, pix), EntryView(d, inp, pix)), SampleView(d, yBuf, pix), sl)
  {
    var f, a, y := PixelFactors(d, coils, grad, pix), EntryView(d, inp, pix), SampleView(d, yBuf, pix);
    forall sc, co | 0 <= sc < d.NSc && 0 <= co < d.NCo
      ensures SampleView(d, fwdOut, pix)(sc, co, sl) == FwdView(d, f, a)(sc, co, sl)
    {
      FwdOutAt(d, inp, coils, grad, fwdOut, pix, sc, co, sl);
    }
    SampleDotExt(d, SampleView(d, fwdOut, pix), FwdView(d, f, a), y, sl);
  }

  /** inp against the adjoint buffer at one pixel and slice is inp against the
      corrected adjoint operator. */
  lemma AdSliceDot(d: Dims, inp: seq<C>, coils: seq<C>, grad: seq<C>, yBuf: seq<C>, adOut: seq<C>, pix: int, sl: int)
    requires 0 <= pix < Pixels(d) && 0 <= sl < d.NSl
    requires |adOut| == Pixels(d) * Entries(d)
    requires forall q :: 0 <= q < |adOut| ==> adOut[q] == AdAtPixel(d, false, yBuf, coils, grad, q % Pixels(d), q / Pixels(d))
    ensures EntryDot(d, EntryView(d, inp, pix), AdView(d, false, PixelFactors(d, coils, grad, pix), SampleView(d, yBuf, pix)), sl)
         == PixelEntryDot(d, inp, adOut, pix)(sl)
  {
    var f, a, y := PixelFactors(d, coils, grad, pix), EntryView(d, inp, pix), SampleView(d, yBuf, pix);
    forall j | 0 <= j < d.NUn
      ensures AdView(d, false, f, y)(j, sl) == EntryView(d, adOut, pix)(j, sl)
    {
      AdOutAt(d, false, yBuf, coils, grad, adOut, pix, j, sl);
    }
    EntryDotExt(d, a, AdView(d, false, f, y), EntryView(d, adOut, pix), sl);
  }

  /** Adjointness at one pixel and slice, read from the buffers. */
  lemma SliceAdjoint(d: Dims, inp: seq<C>, coils: seq<C>, grad: seq<C>, yBuf: seq<C>, fwdOut: seq<C>, adOut: seq<C>, pix: int, sl: int)
    requires 0 <= pix < Pixels(d) && 0 <= sl < d.NSl
    requires |fwdOut| == Pixels(d) * Samples(d) && |adOut| == Pixels(d) * Entries(d)
    requires forall q :: 0 <= q < |fwdOut| ==> fwdOut[q] == FwdAtPixel(d, inp, coils, grad, q % Pixels(d), q / Pixels(d))
    requires forall q :: 0 <= q < |adOut| ==> adOut[q] == AdAtPixel(d, false, yBuf, coils, grad, q % Pixels(d), q / Pixels(d))
    ensures PixelSampleDot(d, fwdOut, yBuf, pix)(sl) == PixelEntryDot(d, inp, adOut, pix)(sl)
  {
    var f, a, y := PixelFactors(d, coils, grad, pix), EntryView(d, inp, pix), SampleView(d, yBuf, pix);
    FwdSliceDot(d, inp, coils, grad, yBuf, fwdOut, pix, sl);
    OperatorAdjointAt(d, f, a, y, sl);
    AdSliceDot(d, inp, coils, grad, yBuf, adOut, pix, sl);
  }

  /** The launches are adjoint over whole buffers: if fwdOut holds the forward
      image of inp and adOut the corrected adjoint image of yBuf, then
      <fwdOut, yBuf> = <inp, adOut>. */
  lemma {:induction false} OperatorAdjoint(d: Dims, inp: seq<C>, coils: seq<C>, grad: seq<C>, yBuf: seq<C>, fwdOut: seq<C>, adOut: seq<C>)
    requires |fwdOut| == Pixels(d) * Samples(d) && |adOut| == Pixels(d) * Entries(d)
    requires forall q :: 0 <= q < |fwdOut| ==> fwdOut[q] == FwdAtPixel(d, inp, coils, grad, q % Pixels(d), q / Pixels(d))
    requires forall q :: 0 <= q < |adOut| ==> adOut[q] == AdAtPixel(d, false, yBuf, coils, grad, q % Pixels(d), q / Pixels(d))
    ensures SampleInner(d, fwdOut, yBuf) == EntryInner(d, inp, adOut)
  {
    forall pix | 0 <= pix < Pixels(d)
      ensures PixelSampleInner(d, fwdOut, yBuf)(pix) == PixelEntryInner(d, inp, adOut)(pix)
    {
      forall sl | 0 <= sl < d.NSl
        ensures PixelSampleDot(d, fwdOut, yBuf, pix)(sl) == PixelEntryDot(d, inp, adOut, pix)(sl)
      {
        SliceAdjoint(d, inp, coils, grad, yBuf, fwdOut, adOut, pix, sl);
      }
      CSumExt(d.NSl, PixelSampleDot(d, fwdOut, yBuf, pix), PixelEntryDot(d, inp, adOut, pix));
    }
    CSumExt(Pixels(d), PixelSampleInner(d, fwdOut, yBuf), PixelEntryInner(d, inp, adOut));
  }

  // ----- the two-dimensional wrappers -----

  /** The image-domain half of `operator_forward_2D`: a zeroed buffer of NScan*NC
      images, then `operator_fwd` with a single slice. The projector that follows
      is the Radon model. */
  method ForwardImages(inp: seq<C>, coils: seq<C>, grad: seq<C>, X: nat, Y: nat, NCo: nat, NSc: nat, NUn: nat)
    returns (out: array<C>)
    ensures var d := Dims(X, Y, NCo, 1, NSc, NUn);
            out.Length == Pixels(d) * Samples(d) &&
            forall q :: 0 <= q < out.Length ==> out[q] == FwdAtPixel(d, inp, coils, grad, q % Pixels(d), q / Pixels(d))
  {
    var d := Dims(X, Y, NCo, 1, NSc, NUn);
    out := new C[Pixels(d) * Samples(d)](_ => Zero);
    FwdKernel(out, inp, coils, grad, d);
    forall q | 0 <= q < out.Length
      ensures out[q] == FwdAtPixel(d, inp, coils, grad, q % Pixels(d), q / Pixels(d))
    {
      AddZero(FwdAtPixel(d, inp, coils, grad, q % Pixels(d), q / Pixels(d)));
    }
  }

  /** The image-domain half of `operator_adjoint_2D`: a zeroed buffer of unknowns,
      then `operator_ad` with a single slice on the back-projected samples inBuf.
      zeroImag selects the kernel as written (set) or the corrected one (unset). */
  method AdjointImages(inBuf: seq<C>, coils: seq<C>, grad: seq<C>, X: nat, Y: nat, NCo: nat, NSc: nat, NUn: nat, zeroImag: bool)
    returns (out: array<C>)
    ensures var d := Dims(X, Y, NCo, 1, NSc, NUn);
            out.Length == Pixels(d) * Entries(d) &&
            forall q :: 0 <= q < out.Length ==> out[q] == AdAtPixel(d, zeroImag, inBuf, coils, grad, q % Pixels(d), q / Pixels(d))
  {
    var d := Dims(X, Y, NCo, 1, NSc, NUn);
    out := new C[Pixels(d) * Entries(d)](_ => Zero);
    AdKernel(out, inBuf, coils, grad, d, zeroImag);
    forall q | 0 <= q < out.Length
      ensures out[q] == AdAtPixel(d, zeroImag, inBuf, coils, grad, q % Pixels(d), q / Pixels(d))
    {
      AddZero(AdAtPixel(d, zeroImag, inBuf, coils, grad, q % Pixels(d), q / Pixels(d)));
    }
  }
}
