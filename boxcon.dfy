/** The box-constraint kernel `box_con`.

    The work item at pixel (x, y) applies every constraint j < NCon, in order, to the
    single sample out[X*y + x]: the real part is clamped to [min[j], max[j]], the
    upper bound compared first; a constraint flagged real sets the imaginary part to
    zero, any other clamps it to the same interval. */
module BoxCon {
  import opened Sums
  import opened Complex
  import opened Images

  /** One lane clamped as the kernel does it: first down to hi, then up to lo. */
  function ClampLane(v: real, lo: real, hi: real): (r: real)
    ensures lo <= hi ==> lo <= r <= hi
    ensures lo <= v <= hi ==> r == v
    ensures hi < lo ==> r == lo
  {
    var a := if v >= hi then hi else v;
    if a <= lo then lo else a
  }

  /** The kernel's clamp is max(lo, min(hi, v)) for every bound pair, even an empty
      interval. */
  lemma ClampLaneIsMaxMin(v: real, lo: real, hi: real)
    ensures ClampLane(v, lo, hi) == Max(lo, Min(hi, v))
  {
  }

  /** Constraint (lo, hi, isReal) applied to one sample. */
  function Constrain(v: C, lo: real, hi: real, isReal: bool): (r: C)
    ensures lo <= hi ==> lo <= r.re <= hi
    ensures isReal ==> r.im == 0.0
    ensures !isReal && lo <= hi ==> lo <= r.im <= hi
  {
    if isReal then C(ClampLane(v.re, lo, hi), 0.0)
    else C(ClampLane(v.re, lo, hi), ClampLane(v.im, lo, hi))
  }

  /** A sample satisfies constraint (lo, hi, isReal). */
  predicate Satisfies(v: C, lo: real, hi: real, isReal: bool)
  {
    lo <= v.re <= hi && (if isReal then v.im == 0.0 else lo <= v.im <= hi)
  }

  /** A sample that satisfies the constraint is left as it is, and applying the
      constraint twice is applying it once. */
  lemma ConstrainFixes(v: C, lo: real, hi: real, isReal: bool)
    ensures Satisfies(v, lo, hi, isReal) ==> Constrain(v, lo, hi, isReal) == v
    ensures lo <= hi ==> Satisfies(Constrain(v, lo, hi, isReal), lo, hi, isReal)
    ensures lo <= hi ==> Constrain(Constrain(v, lo, hi, isReal), lo, hi, isReal) == Constrain(v, lo, hi, isReal)
  {
  }

  /** The first n constraints applied in order; `real` holds C ints, non-zero for a
      real-valued constraint. */
  function ConstrainAll(v: C, mn: seq<real>, mx: seq<real>, rl: seq<int>, n: int): C
    requires n <= |mn| && n <= |mx| && n <= |rl|
    decreases n
  {
    if n <= 0 then v
    else Constrain(ConstrainAll(v, mn, mx, rl, n - 1), mn[n - 1], mx[n - 1], rl[n - 1] != 0)
  }

  /** After all constraints the sample satisfies the last one whose interval is not
      empty. */
  lemma ConstrainAllLast(v: C, mn: seq<real>, mx: seq<real>, rl: seq<int>, n: int)
    requires 1 <= n <= |mn| && n <= |mx| && n <= |rl| && mn[n - 1] <= mx[n - 1]
    ensures Satisfies(ConstrainAll(v, mn, mx, rl, n), mn[n - 1], mx[n - 1], rl[n - 1] != 0)
  {
    ConstrainFixes(ConstrainAll(v, mn, mx, rl, n - 1), mn[n - 1], mx[n - 1], rl[n - 1] != 0);
  }

  /** A sample that satisfies every constraint passes through unchanged. */
  lemma {:induction false} ConstrainAllFixes(v: C, mn: seq<real>, mx: seq<real>, rl: seq<int>, n: int)
    requires n <= |mn| && n <= |mx| && n <= |rl|
    requires forall j :: 0 <= j < n ==> Satisfies(v, mn[j], mx[j], rl[j] != 0)
    ensures ConstrainAll(v, mn, mx, rl, n) == v
    decreases n
  {
    if n > 0 {
      ConstrainAllFixes(v, mn, mx, rl, n - 1);
      ConstrainFixes(v, mn[n - 1], mx[n - 1], rl[n - 1] != 0);
    }
  }

  /** Constraint j of the kernel's loop body, applied to out[id] in place. */
  method ApplyConstraint(out: array<C>, id: int, lo: real, hi: real, isReal: bool)
    requires 0 <= id < out.Length
    modifies out
    ensures out[..] == old(out[..])[id := Constrain(old(out[id]), lo, hi, isReal)]
  {
    if isReal {
      out[id] := out[id].(im := 0.0);
      if out[id].re >= hi {
        out[id] := out[id].(re := hi);
      }
      if out[id].re <= lo {
        out[id] := out[id].(re := lo);
      }
    } else {
      if out[id].re >= hi {
        out[id] := out[id].(re := hi);
      }
      if out[id].re <= lo {
        out[id] := out[id].(re := lo);
      }
      if out[id].im >= hi {
        out[id] := out[id].(im := hi);
      }
      if out[id].im <= lo {
        out[id] := out[id].(im := lo);
      }
    }
  }

  /** The work item of `box_con`: the constraints applied in order to out[id] alone. */
  method BoxConItem(out: array<C>, mn: seq<real>, mx: seq<real>, rl: seq<int>, NCon: int, id: int)
    requires 0 <= id < out.Length
    requires NCon <= |mn| && NCon <= |mx| && NCon <= |rl|
    modifies out
    ensures out[..] == old(out[..])[id := ConstrainAll(old(out[id]), mn, mx, rl, NCon)]
  {
    var j := 0;
    while j < NCon
      invariant 0 <= j || NCon <= 0
      invariant j <= NCon || j == 0
      invariant out[..] == old(out[..])[id := ConstrainAll(old(out[id]), mn, mx, rl, j)]
    {
      ApplyConstraint(out, id, mn[j], mx[j], rl[j] != 0);
      j := j + 1;
    }
  }

  /** The first p samples of s are the constrained samples of start, the others are
      still those of start. */
  ghost predicate ConstrainedUpTo(s: seq<C>, start: seq<C>, mn: seq<real>, mx: seq<real>, rl: seq<int>, NCon: int, p: int)
  {
    |s| == |start| && NCon <= |mn| && NCon <= |mx| && NCon <= |rl|
    && (forall q :: 0 <= q < p && q < |s| ==> s[q] == ConstrainAll(start[q], mn, mx, rl, NCon))
    && (forall q :: p <= q < |s| && 0 <= q ==> s[q] == start[q])
  }

  /** Constraining sample p extends the finished prefix by one. */
  lemma ConstrainedStep(s: seq<C>, start: seq<C>, mn: seq<real>, mx: seq<real>, rl: seq<int>, NCon: int, p: int)
    requires ConstrainedUpTo(s, start, mn, mx, rl, NCon, p) && 0 <= p < |s|
    ensures s[p] == start[p]
    ensures ConstrainedUpTo(s[p := ConstrainAll(s[p], mn, mx, rl, NCon)], start, mn, mx, rl, NCon, p + 1)
  {
  }

  /** `box_con` launched over the X-by-Y image: every sample is constrained on its
      own, in place. */
  method BoxConKernel(out: array<C>, mn: seq<real>, mx: seq<real>, rl: seq<int>, NCon: int, X: nat, Y: nat)
    requires out.Length == X * Y
    requires NCon <= |mn| && NCon <= |mx| && NCon <= |rl|
    modifies out
    ensures forall q :: 0 <= q < out.Length ==> out[q] == ConstrainAll(old(out[q]), mn, mx, rl, NCon)
  {
    ghost var start := out[..];
    ghost var p := 0;
    var y := 0;
    while y < Y
      invariant 0 <= y <= Y && p == Idx(X, 0, y)
      invariant ConstrainedUpTo(out[..], start, mn, mx, rl, NCon, p)
    {
      var x := 0;
      while x < X
        invariant 0 <= x <= X && p == Idx(X, x, y)
        invariant ConstrainedUpTo(out[..], start, mn, mx, rl, NCon, p)
      {
        var id := Idx(X, x, y);
        IdxInRange(X, Y, x, y);
        ConstrainedStep(out[..], start, mn, mx, rl, NCon, p);
        BoxConItem(out, mn, mx, rl, NCon, id);
        x := x + 1;
        p := p + 1;
      }
      IdxNeighbours(X, 0, y + 1);
      y := y + 1;
    }
    assert Idx(X, 0, Y) == out.Length;
  }
}
