/** Context maps of the prediction models: a bounding-box grid transform,
    additive stamping of trajectories as windows of a square mask, the
    guidance and social map builders, local crops and trajectory flattening. */
module Maps {
  import opened Wrappers

  // ---------------------------------------------------------------------
  // Values: positions, grid cells, maps
  // ---------------------------------------------------------------------

  /** A real-world position (metres). */
  datatype Pos = Pos(x: real, y: real)

  /** A grid cell: row index and column index. */
  datatype Cell = Cell(row: int, col: int)

  /** A map is a sequence of rows of reals. */
  type Grid = seq<seq<real>>

  function Sub(p: Pos, q: Pos): Pos { Pos(p.x - q.x, p.y - q.y) }

  function MinI(a: int, b: int): int { if a <= b then a else b }
  function MaxI(a: int, b: int): int { if a >= b then a else b }
  function MinR(a: real, b: real): real { if a <= b then a else b }
  function MaxR(a: real, b: real): real { if a >= b then a else b }

  /** Number of columns; a map without rows has none. */
  function Width(g: Grid): nat { if |g| == 0 then 0 else |g[0]| }

  /** Every row has the same length. */
  predicate IsGrid(g: Grid) {
    forall i :: 0 <= i < |g| ==> |g[i]| == Width(g)
  }

  /** A rectangular map with `h` rows of `w` columns. */
  predicate HasShape(g: Grid, h: int, w: int) {
    |g| == h && forall i :: 0 <= i < |g| ==> |g[i]| == w
  }

  predicate NonNeg(g: Grid) {
    forall i, j :: 0 <= i < |g| && 0 <= j < |g[i]| ==> g[i][j] >= 0.0
  }

  predicate InUnit(g: Grid) {
    forall i, j :: 0 <= i < |g| && 0 <= j < |g[i]| ==> 0.0 <= g[i][j] <= 1.0
  }

  /** A stamp mask of radius r: a non-negative (2r+1) x (2r+1) matrix. */
  predicate IsMask(m: Grid, r: nat) {
    HasShape(m, 2 * r + 1, 2 * r + 1) && NonNeg(m)
  }

  /** An all-zero map with h rows of w columns. */
  function Zeros(h: nat, w: nat): (g: Grid)
    ensures HasShape(g, h, w) && NonNeg(g)
    ensures forall i, j :: 0 <= i < h && 0 <= j < w ==> g[i][j] == 0.0
  {
    seq(h, i => seq(w, j => 0.0))
  }

  // ---------------------------------------------------------------------
  // Python/NumPy conventions
  // ---------------------------------------------------------------------

  /** Conversion of a real to an integer as `int()` and `astype(int32)`
      do it: truncation toward zero. */
  function Trunc(x: real): (t: int)
    ensures x >= 0.0 ==> t >= 0 && t as real <= x < t as real + 1.0
    ensures x < 0.0 ==> t <= 0 && t as real - 1.0 < x <= t as real
  {
    if x >= 0.0 then x.Floor else -((-x).Floor)
  }

  /** A slice bound normalised the way Python does for `s[lo:hi]`. */
  function SliceBound(i: int, n: nat): (b: nat)
    ensures b <= n
    ensures 0 <= i <= n ==> b == i
  {
    if i < 0 then (if i + n < 0 then 0 else i + n)
    else if i > n then n
    else i
  }

  /** Python's `s[lo:hi]`: negative bounds count from the end, bounds past
      either end are clamped, and a reversed range is empty. */
  function PySlice<T>(s: seq<T>, lo: int, hi: int): (r: seq<T>)
    ensures |r| <= |s|
    ensures 0 <= lo <= hi <= |s| ==> r == s[lo..hi]
  {
    var a := SliceBound(lo, |s|);
    var b := SliceBound(hi, |s|);
    if a < b then s[a..b] else []
  }

  /** A slice only holds elements of the sliced sequence. */
  lemma PySliceElements<T>(s: seq<T>, lo: int, hi: int)
    ensures forall k :: 0 <= k < |PySlice(s, lo, hi)| ==> PySlice(s, lo, hi)[k] in s
  {
  }

  /** NumPy's `np.sign`. */
  function Sign(x: real): (s: real)
    ensures s == -1.0 || s == 0.0 || s == 1.0
    ensures (s > 0.0 <==> x > 0.0) && (s < 0.0 <==> x < 0.0)
  {
    if x > 0.0 then 1.0 else if x < 0.0 then -1.0 else 0.0
  }

  /** Point i of `np.linspace(0, 1, n)`. */
  function LinspacePoint(i: nat, n: nat): (t: real)
    requires i < n
    ensures 0.0 <= t <= 1.0
  {
    if n == 1 then 0.0 else i as real / (n - 1) as real
  }

  predicate Increasing(xp: seq<real>) {
    forall i :: 0 <= i < |xp| - 1 ==> xp[i] < xp[i + 1]
  }

  /** NumPy's `np.interp(x, xp, fp)`: piecewise-linear through the knots
      (xp[i], fp[i]), constant beyond the first and the last knot. */
  function Interp(x: real, xp: seq<real>, fp: seq<real>): real
    requires |xp| == |fp| >= 1 && Increasing(xp)
    decreases |xp|
  {
    if x <= xp[0] || |xp| == 1 then fp[0]
    else if x <= xp[1] then fp[0] + (x - xp[0]) * (fp[1] - fp[0]) / (xp[1] - xp[0])
    else Interp(x, xp[1..], fp[1..])
  }

  /** At a knot, `np.interp` returns the knot's value. */
  lemma {:induction false} InterpAtKnot(xp: seq<real>, fp: seq<real>, k: nat)
    requires |xp| == |fp| >= 1 && Increasing(xp) && k < |xp|
    ensures Interp(xp[k], xp, fp) == fp[k]
    decreases k
  {
    if k == 1 {
      InterpAtSecondKnot(xp, fp);
    } else if k > 1 {
      assert xp[0] < xp[1];
      KnotsAbove(xp, 2, k);
      assert Increasing(xp[1..]) && xp[1..][k - 1] == xp[k] && fp[1..][k - 1] == fp[k];
      InterpAtKnot(xp[1..], fp[1..], k - 1);
      assert Interp(xp[k], xp, fp) == Interp(xp[k], xp[1..], fp[1..]);
    }
  }

  lemma InterpAtSecondKnot(xp: seq<real>, fp: seq<real>)
    requires |xp| == |fp| >= 2 && Increasing(xp)
    ensures Interp(xp[1], xp, fp) == fp[1]
  {
    var x0, x1, y0, y1 := xp[0], xp[1], fp[0], fp[1];
    assert x0 < x1;
    assert Interp(x1, xp, fp) == y0 + (x1 - x0) * (y1 - y0) / (x1 - x0);
    MulDivCancel(x1 - x0, y1 - y0);
  }

  lemma MulDivCancel(d: real, e: real)
    requires d != 0.0
    ensures d * e / d == e
  {
  }

  /** Knots after position i are above knot i - 1. */
  lemma {:induction false} KnotsAbove(xp: seq<real>, i: nat, k: nat)
    requires Increasing(xp) && 1 <= i <= k < |xp|
    ensures xp[i - 1] < xp[k]
    decreases k - i
  {
    if i < k {
      KnotsAbove(xp, i + 1, k);
    }
  }

  // ---------------------------------------------------------------------
  // Amplitude decay along a trajectory
  // ---------------------------------------------------------------------

  /** The default decay profile: knots at progress 0, 0.7 and 1. */
  const DecayX: seq<real> := [0.0, 0.7, 1.0]
  /** The default decay profile: full, full and half amplitude. */
  const DecayY: seq<real> := [1.0, 1.0, 0.5]

  /** Weight of point i of an n-point trajectory under the decay profile. */
  function DecayWeight(i: nat, n: nat): real
    requires i < n
  {
    Interp(LinspacePoint(i, n), DecayX, DecayY)
  }

  /** The decay profile in closed form for progress t in [0, 1]. */
  lemma DecayClosedForm(i: nat, n: nat)
    requires i < n
    ensures var t := LinspacePoint(i, n);
      DecayWeight(i, n) == (if t <= 0.7 then 1.0 else 1.0 - (t - 0.7) * 0.5 / 0.3)
  {
    assert Increasing(DecayX);
    var t := LinspacePoint(i, n);
    if t > 0.7 {
      assert DecayWeight(i, n) == Interp(t, DecayX[1..], DecayY[1..]);
    }
  }

  /** The first point keeps full amplitude, and so does every point up to
      70% progress; at least half the amplitude is always kept. */
  lemma DecayProfile(i: nat, n: nat)
    requires i < n
    ensures 0.5 <= DecayWeight(i, n) <= 1.0
    ensures LinspacePoint(i, n) <= 0.7 ==> DecayWeight(i, n) == 1.0
    ensures i == 0 ==> DecayWeight(i, n) == 1.0
  {
    DecayClosedForm(i, n);
  }

  /** The last point of a trajectory of two or more points gets half. */
  lemma DecayLast(n: nat)
    requires n >= 2
    ensures DecayWeight(n - 1, n) == 0.5
  {
    DecayClosedForm(n - 1, n);
    assert LinspacePoint(n - 1, n) == 1.0;
  }

  /** Later points never weigh more than earlier ones. */
  lemma DecayNonIncreasing(i: nat, j: nat, n: nat)
    requires i <= j < n
    ensures DecayWeight(j, n) <= DecayWeight(i, n)
  {
    DecayClosedForm(i, n);
    DecayClosedForm(j, n);
    LinspaceMono(i, j, n);
  }

  /** Progress grows with the point index. */
  lemma LinspaceMono(i: nat, j: nat, n: nat)
    requires i <= j < n
    ensures LinspacePoint(i, n) <= LinspacePoint(j, n)
  {
    if n > 1 {
      DivMono(i as real, j as real, (n - 1) as real);
    }
  }

  lemma DivMono(a: real, b: real, d: real)
    requires a <= b && d > 0.0
    ensures a / d <= b / d
  {
    var p, q := a / d, b / d;
    assert p * d == a && q * d == b;
    if p > q {
      assert p * d > q * d;
    }
  }

  // ---------------------------------------------------------------------
  // Stamping one trajectory
  // ---------------------------------------------------------------------

  /** The amplitude handed to one trajectory: one value, spread over the
      points by the decay profile, or one value per point. */
  datatype Amp = Scalar(v: real) | PerPoint(vs: seq<real>)

  /** A single value is only usable when decay is on (it is multiplied by
      the per-point profile); a per-point row scaled by the profile needs
      one value per point. */
  predicate AmpFits(amp: Amp, n: nat, decay: bool) {
    match amp
    case Scalar(_) => decay
    case PerPoint(vs) => decay ==> |vs| == n
  }

  function BaseAmp(amp: Amp, i: nat): real
    requires amp.Scalar? || i < |amp.vs|
  {
    match amp
    case Scalar(v) => v
    case PerPoint(vs) => vs[i]
  }

  /** The amplitude of every point after the optional decay. */
  function PointAmps(amp: Amp, n: nat, decay: bool): (r: seq<real>)
    requires AmpFits(amp, n, decay)
    ensures decay ==> |r| == n && forall i :: 0 <= i < n ==> r[i] == BaseAmp(amp, i) * DecayWeight(i, n)
    ensures !decay ==> r == amp.vs
  {
    if decay then Decayed(amp, n) else amp.vs
  }

  /** The amplitudes of n points scaled by the decay profile. */
  function Decayed(amp: Amp, n: nat): (r: seq<real>)
    requires amp.Scalar? || |amp.vs| == n
    ensures |r| == n && forall i :: 0 <= i < n ==> r[i] == BaseAmp(amp, i) * DecayWeight(i, n)
  {
    seq(n, i requires 0 <= i < n => PointWeight(amp, i, n))
  }

  function PointWeight(amp: Amp, i: nat, n: nat): real
    requires i < n && (amp.Scalar? || |amp.vs| == n)
  {
    BaseAmp(amp, i) * DecayWeight(i, n)
  }

  /** The bounds test a point's window must pass to be stamped: the window
      starts at or after row 0 and column 0, and its end `pos + r + 1` lies
      strictly below the map's size, so a window touching the last row or
      column is skipped. */
  predicate Accepted(c: Cell, r: int, h: int, w: int) {
    c.row - r >= 0 && c.col - r >= 0 && c.row + r + 1 < h && c.col + r + 1 < w
  }

  /** Cell (i, j) lies in the (2r+1) x (2r+1) window centred on c. */
  predicate InWindow(c: Cell, r: int, i: int, j: int) {
    c.row - r <= i <= c.row + r && c.col - r <= j <= c.col + r
  }

  /** The value the window of c adds at (i, j): a * mask there, 0 outside. */
  function WindowValue(c: Cell, a: real, r: nat, mask: Grid, i: int, j: int): real
    requires IsMask(mask, r)
  {
    if InWindow(c, r, i, j) then a * mask[i - (c.row - r)][j - (c.col - r)] else 0.0
  }

  /** What point c with amplitude a adds at (i, j) of an h x w map. */
  function Contribution(c: Cell, a: real, r: nat, mask: Grid, h: int, w: int, i: int, j: int): real
    requires IsMask(mask, r)
  {
    if Accepted(c, r, h, w) then WindowValue(c, a, r, mask, i, j) else 0.0
  }

  /** The stamp layer at (i, j) after the first n points. */
  function Layer(cells: seq<Cell>, amps: seq<real>, n: nat, r: nat, mask: Grid,
                 h: int, w: int, i: int, j: int): real
    requires n <= |cells| && n <= |amps| && IsMask(mask, r)
  {
    if n == 0 then 0.0
    else Layer(cells, amps, n - 1, r, mask, h, w, i, j) + Contribution(cells[n - 1], amps[n - 1], r, mask, h, w, i, j)
  }

  /** With `max_limit` the layer is replaced by its sign. */
  function Finish(maxLimit: bool, x: real): real {
    if maxLimit then Sign(x) else x
  }

  /** The map `_add_one_traj` returns: the source plus the (optionally
      signed) sum of the accepted windows. */
  function AddOneTrajSpec(source: Grid, traj: seq<Cell>, amp: Amp, r: nat, mask: Grid,
                          maxLimit: bool, decay: bool): (g: Grid)
    requires IsGrid(source) && IsMask(mask, r) && AmpFits(amp, |traj|, decay)
    ensures HasShape(g, |source|, Width(source)) && IsGrid(g) && Width(g) == Width(source)
  {
    var amps := PointAmps(amp, |traj|, decay);
    var n := MinI(|traj|, |amps|);
    var h := |source|;
    var w := Width(source);
    seq(h, i requires 0 <= i < h =>
      seq(w, j requires 0 <= j < w =>
        Finish(maxLimit, Layer(traj, amps, n, r, mask, h, w, i, j)) + source[i][j]))
  }

  /** Adds a * mask onto the window of p, in place. */
  method Stamp(layer: array2<real>, p: Cell, a: real, r: nat, mask: Grid)
    modifies layer
    requires IsMask(mask, r) && Accepted(p, r, layer.Length0, layer.Length1)
    ensures forall i, j :: 0 <= i < layer.Length0 && 0 <= j < layer.Length1 ==>
      layer[i, j] == old(layer[i, j]) + WindowValue(p, a, r, mask, i, j)
  {
    var r0 := p.row - r;
    var c0 := p.col - r;
    var di := 0;
    while di < 2 * r + 1
      invariant 0 <= di <= 2 * r + 1
      invariant forall i, j :: 0 <= i < layer.Length0 && 0 <= j < layer.Length1 ==>
        layer[i, j] == old(layer[i, j]) + (if i < r0 + di then WindowValue(p, a, r, mask, i, j) else 0.0)
    {
      var dj := 0;
      while dj < 2 * r + 1
        invariant 0 <= dj <= 2 * r + 1
        invariant forall i, j :: 0 <= i < layer.Length0 && 0 <= j < layer.Length1 ==>
          layer[i, j] == old(layer[i, j]) +
            (if i < r0 + di || (i == r0 + di && j < c0 + dj) then WindowValue(p, a, r, mask, i, j) else 0.0)
      {
        layer[r0 + di, c0 + dj] := a * mask[di][dj] + layer[r0 + di, c0 + dj];
        dj := dj + 1;
      }
      di := di + 1;
    }
  }

  /** `_add_one_traj`: stamps every accepted point of one trajectory onto a
      fresh all-zero layer, optionally takes its sign, and adds the source. */
  method AddOneTraj(source: Grid, traj: seq<Cell>, amp: Amp, r: nat, mask: Grid,
                    maxLimit: bool, decay: bool) returns (result: Grid)
    requires IsGrid(source) && IsMask(mask, r) && AmpFits(amp, |traj|, decay)
    ensures result == AddOneTrajSpec(source, traj, amp, r, mask, maxLimit, decay)
  {
    var h := |source|;
    var w := Width(source);
    var amps := PointAmps(amp, |traj|, decay);
    var n := MinI(|traj|, |amps|);
    var layer := new real[h, w]((i, j) => 0.0);
    var k := 0;
    while k < n
      invariant 0 <= k <= n
      invariant forall i, j :: 0 <= i < h && 0 <= j < w ==>
        layer[i, j] == Layer(traj, amps, k, r, mask, h, w, i, j)
    {
      var p := traj[k];
      if p.row - r >= 0 && p.col - r >= 0 && p.row + r + 1 < h && p.col + r + 1 < w {
        Stamp(layer, p, amps[k], r, mask);
      }
      k := k + 1;
    }
    result := seq(h, i requires 0 <= i < h reads layer =>
      seq(w, j requires 0 <= j < w reads layer => Finish(maxLimit, layer[i, j]) + source[i][j]));
    ghost var spec := AddOneTrajSpec(source, traj, amp, r, mask, maxLimit, decay);
    forall i | 0 <= i < h
      ensures result[i] == spec[i]
    {
      forall j | 0 <= j < w
        ensures result[i][j] == spec[i][j]
      {
        assert result[i][j] == Finish(maxLimit, layer[i, j]) + source[i][j];
        assert spec[i][j] == Finish(maxLimit, Layer(traj, amps, n, r, mask, h, w, i, j)) + source[i][j];
      }
      assert |result[i]| == |spec[i]| == w;
    }
  }

  /** The layer is additive: stamping c1 then c2 adds the two layers. */
  lemma {:induction false} LayerConcat(c1: seq<Cell>, a1: seq<real>, c2: seq<Cell>, a2: seq<real>,
                                       r: nat, mask: Grid, h: int, w: int, i: int, j: int)
    requires |c1| == |a1| && |c2| == |a2| && IsMask(mask, r)
    ensures Layer(c1 + c2, a1 + a2, |c1| + |c2|, r, mask, h, w, i, j)
            == Layer(c1, a1, |c1|, r, mask, h, w, i, j) + Layer(c2, a2, |c2|, r, mask, h, w, i, j)
    decreases |c2|
  {
    if |c2| > 0 {
      var c2' := c2[..|c2| - 1];
      var a2' := a2[..|a2| - 1];
      LayerConcat(c1, a1, c2', a2', r, mask, h, w, i, j);
      var n := |c1| + |c2'|;
      assert (c1 + c2)[..n] == c1 + c2' == (c1 + c2')[..n];
      assert (a1 + a2)[..n] == a1 + a2' == (a1 + a2')[..n];
      assert c2[..|c2'|] == c2' == c2'[..|c2'|];
      assert a2[..|c2'|] == a2' == a2'[..|c2'|];
      LayerPrefix(c1 + c2, a1 + a2, c1 + c2', a1 + a2', |c1| + |c2'|, r, mask, h, w, i, j);
      LayerPrefix(c2, a2, c2', a2', |c2'|, r, mask, h, w, i, j);
      assert (c1 + c2)[|c1| + |c2| - 1] == c2[|c2| - 1];
      assert (a1 + a2)[|a1| + |a2| - 1] == a2[|a2| - 1];
      var last := Contribution(c2[|c2| - 1], a2[|a2| - 1], r, mask, h, w, i, j);
      calc {
        Layer(c1 + c2, a1 + a2, |c1| + |c2|, r, mask, h, w, i, j);
        Layer(c1 + c2, a1 + a2, n, r, mask, h, w, i, j) + last;
        Layer(c1 + c2', a1 + a2', n, r, mask, h, w, i, j) + last;
        Layer(c1, a1, |c1|, r, mask, h, w, i, j) + Layer(c2', a2', |c2'|, r, mask, h, w, i, j) + last;
        Layer(c1, a1, |c1|, r, mask, h, w, i, j) + Layer(c2, a2, |c2'|, r, mask, h, w, i, j) + last;
        Layer(c1, a1, |c1|, r, mask, h, w, i, j) + Layer(c2, a2, |c2|, r, mask, h, w, i, j);
      }
    } else {
      assert c1 + c2 == c1 && a1 + a2 == a1;
    }
  }

  /** The layer after n points only reads the first n points. */
  lemma {:induction false} LayerPrefix(c: seq<Cell>, a: seq<real>, c': seq<Cell>, a': seq<real>, n: nat,
                                       r: nat, mask: Grid, h: int, w: int, i: int, j: int)
    requires n <= |c| && n <= |a| && n <= |c'| && n <= |a'| && IsMask(mask, r)
    requires c[..n] == c'[..n] && a[..n] == a'[..n]
    ensures Layer(c, a, n, r, mask, h, w, i, j) == Layer(c', a', n, r, mask, h, w, i, j)
  {
    if n > 0 {
      assert c[..n - 1] == c[..n][..n - 1] && c'[..n - 1] == c'[..n][..n - 1];
      assert a[..n - 1] == a[..n][..n - 1] && a'[..n - 1] == a'[..n][..n - 1];
      assert c[n - 1] == c[..n][n - 1] && c'[n - 1] == c'[..n][n - 1];
      assert a[n - 1] == a[..n][n - 1] && a'[n - 1] == a'[..n][n - 1];
      LayerPrefix(c, a, c', a', n - 1, r, mask, h, w, i, j);
    }
  }

  /** A point whose window fails the bounds test contributes nothing:
      dropping it (with its amplitude) leaves the layer unchanged. */
  lemma RejectedPointIrrelevant(c1: seq<Cell>, a1: seq<real>, p: Cell, x: real,
                                c2: seq<Cell>, a2: seq<real>,
                                r: nat, mask: Grid, h: int, w: int, i: int, j: int)
    requires |c1| == |a1| && |c2| == |a2| && IsMask(mask, r)
    requires !Accepted(p, r, h, w)
    ensures Layer(c1 + [p] + c2, a1 + [x] + a2, |c1| + 1 + |c2|, r, mask, h, w, i, j)
            == Layer(c1 + c2, a1 + a2, |c1| + |c2|, r, mask, h, w, i, j)
  {
    LayerConcat(c1 + [p], a1 + [x], c2, a2, r, mask, h, w, i, j);
    LayerConcat(c1, a1, [p], [x], r, mask, h, w, i, j);
    LayerConcat(c1, a1, c2, a2, r, mask, h, w, i, j);
  }

  /** The layer is 0 at every cell that no accepted window covers. */
  lemma {:induction false} LayerUncovered(cells: seq<Cell>, amps: seq<real>, n: nat, r: nat, mask: Grid,
                                          h: int, w: int, i: int, j: int)
    requires n <= |cells| && n <= |amps| && IsMask(mask, r)
    requires forall k :: 0 <= k < n ==> !(Accepted(cells[k], r, h, w) && InWindow(cells[k], r, i, j))
    ensures Layer(cells, amps, n, r, mask, h, w, i, j) == 0.0
  {
    if n > 0 {
      LayerUncovered(cells, amps, n - 1, r, mask, h, w, i, j);
    }
  }

  /** Every cell outside all accepted windows keeps its source value; in
      particular a trajectory whose points all fail the bounds test leaves
      the map unchanged. */
  lemma OutsideWindowsUnchanged(source: Grid, traj: seq<Cell>, amp: Amp, r: nat, mask: Grid,
                                maxLimit: bool, decay: bool, i: int, j: int)
    requires IsGrid(source) && IsMask(mask, r) && AmpFits(amp, |traj|, decay)
    requires 0 <= i < |source| && 0 <= j < Width(source)
    requires forall k :: 0 <= k < |traj| ==>
      !(Accepted(traj[k], r, |source|, Width(source)) && InWindow(traj[k], r, i, j))
    ensures AddOneTrajSpec(source, traj, amp, r, mask, maxLimit, decay)[i][j] == source[i][j]
  {
    var amps := PointAmps(amp, |traj|, decay);
    LayerUncovered(traj, amps, MinI(|traj|, |amps|), r, mask, |source|, Width(source), i, j);
  }

  /** Inside the map, each cell receives the sum of its accepted windows'
      values: overlapping stamps accumulate. */
  lemma StampsAccumulate(source: Grid, traj: seq<Cell>, amp: Amp, r: nat, mask: Grid,
                         decay: bool, i: int, j: int)
    requires IsGrid(source) && IsMask(mask, r) && AmpFits(amp, |traj|, decay)
    requires 0 <= i < |source| && 0 <= j < Width(source)
    ensures var amps := PointAmps(amp, |traj|, decay);
      AddOneTrajSpec(source, traj, amp, r, mask, false, decay)[i][j]
        == source[i][j] + Layer(traj, amps, MinI(|traj|, |amps|), r, mask, |source|, Width(source), i, j)
  {
  }

  /** With `max_limit`, every cell of result - source is -1, 0 or 1. */
  lemma MaxLimitUnitSteps(source: Grid, traj: seq<Cell>, amp: Amp, r: nat, mask: Grid,
                          decay: bool, i: int, j: int)
    requires IsGrid(source) && IsMask(mask, r) && AmpFits(amp, |traj|, decay)
    requires 0 <= i < |source| && 0 <= j < Width(source)
    ensures var d := AddOneTrajSpec(source, traj, amp, r, mask, true, decay)[i][j] - source[i][j];
      d == -1.0 || d == 0.0 || d == 1.0
  {
  }

  /** Non-negative amplitudes give a non-negative layer. */
  lemma {:induction false} LayerNonNeg(cells: seq<Cell>, amps: seq<real>, n: nat, r: nat, mask: Grid,
                                       h: int, w: int, i: int, j: int)
    requires n <= |cells| && n <= |amps| && IsMask(mask, r)
    requires forall k :: 0 <= k < n ==> amps[k] >= 0.0
    ensures Layer(cells, amps, n, r, mask, h, w, i, j) >= 0.0
  {
    if n > 0 {
      LayerNonNeg(cells, amps, n - 1, r, mask, h, w, i, j);
      var c := cells[n - 1];
      if Accepted(c, r, h, w) && InWindow(c, r, i, j) {
        assert mask[i - (c.row - r)][j - (c.col - r)] >= 0.0;
      }
    }
  }

  /** Stamping non-negative amplitudes onto a non-negative map keeps it
      non-negative and keeps its shape. */
  lemma AddOneTrajNonNeg(source: Grid, traj: seq<Cell>, amp: Amp, r: nat, mask: Grid, decay: bool)
    requires IsGrid(source) && IsMask(mask, r) && AmpFits(amp, |traj|, decay)
    requires NonNeg(source)
    requires forall k :: 0 <= k < |PointAmps(amp, |traj|, decay)| ==> PointAmps(amp, |traj|, decay)[k] >= 0.0
    ensures var g := AddOneTrajSpec(source, traj, amp, r, mask, false, decay);
      NonNeg(g) && HasShape(g, |source|, Width(source))
  {
    var amps := PointAmps(amp, |traj|, decay);
    var g := AddOneTrajSpec(source, traj, amp, r, mask, false, decay);
    forall i, j | 0 <= i < |g| && 0 <= j < |g[i]|
      ensures g[i][j] >= 0.0
    {
      LayerNonNeg(traj, amps, MinI(|traj|, |amps|), r, mask, |source|, Width(source), i, j);
    }
  }

  // ---------------------------------------------------------------------
  // Extremes of sequences and maps
  // ---------------------------------------------------------------------

  function SeqMax(xs: seq<real>): (m: real)
    requires |xs| > 0
    ensures forall i :: 0 <= i < |xs| ==> xs[i] <= m
    ensures exists i :: 0 <= i < |xs| && xs[i] == m
  {
    if |xs| == 1 then xs[0] else MaxR(SeqMax(xs[..|xs| - 1]), xs[|xs| - 1])
  }

  function SeqMin(xs: seq<real>): (m: real)
    requires |xs| > 0
    ensures forall i :: 0 <= i < |xs| ==> m <= xs[i]
    ensures exists i :: 0 <= i < |xs| && xs[i] == m
  {
    if |xs| == 1 then xs[0] else MinR(SeqMin(xs[..|xs| - 1]), xs[|xs| - 1])
  }

  /** A map with at least one cell, as `np.max` and `np.min` demand. */
  predicate NonEmptyGrid(g: Grid) {
    IsGrid(g) && |g| > 0 && Width(g) > 0
  }

  /** `np.max` of a map. */
  function GridMax(g: Grid): (m: real)
    requires NonEmptyGrid(g)
    ensures forall i, j :: 0 <= i < |g| && 0 <= j < |g[i]| ==> g[i][j] <= m
    ensures exists i, j :: 0 <= i < |g| && 0 <= j < |g[i]| && g[i][j] == m
  {
    var rowMax := seq(|g|, i requires 0 <= i < |g| => SeqMax(g[i]));
    var m := SeqMax(rowMax);
    assert forall i :: 0 <= i < |g| ==> rowMax[i] == SeqMax(g[i]);
    m
  }

  /** `np.min` of a map. */
  function GridMin(g: Grid): (m: real)
    requires NonEmptyGrid(g)
    ensures forall i, j :: 0 <= i < |g| && 0 <= j < |g[i]| ==> m <= g[i][j]
    ensures exists i, j :: 0 <= i < |g| && 0 <= j < |g[i]| && g[i][j] == m
  {
    var rowMin := seq(|g|, i requires 0 <= i < |g| => SeqMin(g[i]));
    var m := SeqMin(rowMin);
    assert forall i :: 0 <= i < |g| ==> rowMin[i] == SeqMin(g[i]);
    m
  }

  // ---------------------------------------------------------------------
  // get_trajectories: flattening agents into one point list
  // ---------------------------------------------------------------------

  /** The two agent kinds read here: a prediction agent with its observed
      trajectory, and an entire trajectory with the frame range in use. */
  datatype Agent =
    | Prediction(traj: seq<Pos>)
    | Entire(traj: seq<Pos>, startFrame: int, endFrame: int)

  /** The points an agent contributes: a prediction agent its whole
      trajectory; an entire trajectory its `[start_frame, end_frame)` slice,
      reduced to its last `destination_steps` points when destinations are
      asked for.  Python reads `[-0:]` as the whole slice, so 0 steps keep
      every point. */
  function AgentPoints(agent: Agent, destination: bool, steps: int): (t: seq<Pos>)
    ensures agent.Prediction? ==> t == agent.traj
    ensures agent.Entire? && 0 <= agent.startFrame <= agent.endFrame <= |agent.traj| && !destination
            ==> t == agent.traj[agent.startFrame..agent.endFrame]
    ensures agent.Entire? && destination ==>
      var span := PySlice(agent.traj, agent.startFrame, agent.endFrame);
      && (0 < steps <= |span| ==> t == span[|span| - steps..])
      && (steps == 0 || steps >= |span| ==> t == span)
  {
    match agent
    case Prediction(t) => t
    case Entire(t, s, e) =>
      var span := PySlice(t, s, e);
      if destination then PySlice(span, -steps, |span|) else span
  }

  /** The movement flag of one agent's points: set for an empty trajectory
      or one whose end-to-end displacement reaches the threshold. */
  function Moved(t: seq<Pos>, threshold: real, length: Pos -> real): bool {
    |t| == 0 || length(Sub(t[|t| - 1], t[0])) >= threshold
  }

  /** All agents' points, in agent order. */
  function AllPoints(agents: seq<Agent>, destination: bool, steps: int): seq<Pos>
  {
    if |agents| == 0 then []
    else AllPoints(agents[..|agents| - 1], destination, steps) + AgentPoints(agents[|agents| - 1], destination, steps)
  }

  /** One movement flag per point, constant over each agent's points. */
  function AllMovement(agents: seq<Agent>, destination: bool, steps: int, threshold: real,
                       length: Pos -> real): seq<bool>
  {
    if |agents| == 0 then []
    else
      var t := AgentPoints(agents[|agents| - 1], destination, steps);
      AllMovement(agents[..|agents| - 1], destination, steps, threshold, length)
        + seq(|t|, _ => Moved(t, threshold, length))
  }

  /** `get_trajectories`: appends each agent's points (and, when a movement
      threshold is given, one flag per point) in agent order. A threshold of
      0 means no flags are asked for. */
  method GetTrajectories(agents: seq<Agent>, threshold: real, destination: bool, steps: int,
                         length: Pos -> real)
    returns (points: seq<Pos>, movement: Option<seq<bool>>)
    ensures points == AllPoints(agents, destination, steps)
    ensures movement == if threshold == 0.0 then None
                        else Some(AllMovement(agents, destination, steps, threshold, length))
  {
    var all: seq<Pos> := [];
    var flags: seq<bool> := [];
    var i := 0;
    while i < |agents|
      invariant 0 <= i <= |agents|
      invariant all == AllPoints(agents[..i], destination, steps)
      invariant threshold != 0.0 ==> flags == AllMovement(agents[..i], destination, steps, threshold, length)
    {
      var t := AgentPoints(agents[i], destination, steps);
      if threshold != 0.0 {
        var flag := Moved(t, threshold, length);
        flags := flags + seq(|t|, _ => flag);
      }
      all := all + t;
      assert agents[..i + 1][..i] == agents[..i];
      i := i + 1;
    }
    assert agents[..i] == agents;
    points := all;
    movement := if threshold == 0.0 then None else Some(flags);
  }

  /** Flattening distributes over concatenation of agent lists. */
  lemma {:induction false} AllPointsConcat(a: seq<Agent>, b: seq<Agent>, destination: bool, steps: int)
    ensures AllPoints(a + b, destination, steps) == AllPoints(a, destination, steps) + AllPoints(b, destination, steps)
    decreases |b|
  {
    if |b| == 0 {
      assert a + b == a;
    } else {
      var init, last := b[..|b| - 1], b[|b| - 1];
      assert b == init + [last];
      assert a + b == (a + init) + [last];
      AllPointsConcat(a, init, destination, steps);
      AllPointsSnoc(a + init, last, destination, steps);
      AllPointsSnoc(init, last, destination, steps);
      AppendAssoc(AllPoints(a, destination, steps), AllPoints(init, destination, steps),
                  AgentPoints(last, destination, steps));
    }
  }

  /** One more agent appends its points. */
  lemma AllPointsSnoc(a: seq<Agent>, x: Agent, destination: bool, steps: int)
    ensures AllPoints(a + [x], destination, steps) == AllPoints(a, destination, steps) + AgentPoints(x, destination, steps)
  {
    assert (a + [x])[..|a|] == a;
  }

  /** Flags and points line up one to one, and every point of one agent
      carries that agent's flag. */
  lemma {:induction false} MovementAligned(agents: seq<Agent>, destination: bool, steps: int, threshold: real,
                                           length: Pos -> real)
    ensures |AllMovement(agents, destination, steps, threshold, length)| == |AllPoints(agents, destination, steps)|
  {
    if |agents| > 0 {
      MovementAligned(agents[..|agents| - 1], destination, steps, threshold, length);
    }
  }

  /** For prediction agents only, the point list is the concatenation of
      their trajectories. */
  lemma {:induction false} PredictionPoints(agents: seq<Agent>, destination: bool, steps: int)
    requires forall k :: 0 <= k < |agents| ==> agents[k].Prediction?
    ensures AllPoints(agents, destination, steps) == Concat(seq(|agents|, k requires 0 <= k < |agents| => agents[k].traj))
  {
    if |agents| > 0 {
      var front := agents[..|agents| - 1];
      PredictionPoints(front, destination, steps);
      var ts := seq(|agents|, k requires 0 <= k < |agents| => agents[k].traj);
      assert ts[..|ts| - 1] == seq(|front|, k requires 0 <= k < |front| => front[k].traj);
    }
  }

  /** Concatenation of a sequence of trajectories (NumPy's reshape to
      `[-1, 2]`). */
  function Concat(ts: seq<seq<Pos>>): seq<Pos> {
    if |ts| == 0 then [] else Concat(ts[..|ts| - 1]) + ts[|ts| - 1]
  }

  // ---------------------------------------------------------------------
  // The grid transform: init_guidance_map and real2grid
  // ---------------------------------------------------------------------

  /** What a map is built from: agents, a list of points, or a batch of
      equally long trajectories. */
  datatype TrajectorySource =
    | Agents(agents: seq<Agent>)
    | Points(points: seq<Pos>)
    | Batch(trajs: seq<seq<Pos>>)

  /** All trajectories of a batch have the same length (a NumPy array). */
  predicate SameLength<T>(ts: seq<seq<T>>) {
    forall k :: 0 <= k < |ts| ==> |ts[k]| == |ts[0]|
  }

  /** The points the bounding box is taken over. */
  function SourcePoints(src: TrajectorySource): seq<Pos> {
    match src
    case Agents(a) => AllPoints(a, false, 3)
    case Points(p) => p
    case Batch(t) => Concat(t)
  }

  /** The source can be read: agents start with a prediction agent (only the
      first one is inspected), a batch is rectangular, and there is at least
      one point to take extremes over. */
  predicate SourceReady(src: TrajectorySource) {
    && (src.Agents? ==> |src.agents| > 0 && src.agents[0].Prediction?)
    && (src.Batch? ==> SameLength(src.trajs))
    && |SourcePoints(src)| > 0
  }

  function Xs(p: seq<Pos>): seq<real> { seq(|p|, i requires 0 <= i < |p| => p[i].x) }
  function Ys(p: seq<Pos>): seq<real> { seq(|p|, i requires 0 <= i < |p| => p[i].y) }

  /** The map parameters: the all-zero void map, the scale `W` and the
      offset `b` of the real-to-grid transform. */
  datatype MapManager = MapManager(voidMap: Grid, w: Pos, b: Pos)

  /** Size of the void map along one axis for extent [lo, hi], expansion e
      and scale a. */
  function Extent(lo: real, hi: real, a: real, e: real): (n: int)
    ensures (hi - lo + 2.0 * e) * a >= 0.0 ==> n >= 1
  {
    Trunc((hi - lo + 2.0 * e) * a) + 1
  }

  /** NumPy refuses a negative size. */
  predicate InitReady(src: TrajectorySource, a: real, e: real) {
    SourceReady(src)
    && Extent(SeqMin(Xs(SourcePoints(src))), SeqMax(Xs(SourcePoints(src))), a, e) >= 0
    && Extent(SeqMin(Ys(SourcePoints(src))), SeqMax(Ys(SourcePoints(src))), a, e) >= 0
  }

  /** `init_guidance_map`: an all-zero map covering the bounding box of the
      points widened by e on every side, at a cells per metre. */
  function InitGuidanceMap(src: TrajectorySource, a: real, e: real): (m: MapManager)
    requires InitReady(src, a, e)
    ensures var p := SourcePoints(src);
      && HasShape(m.voidMap, Extent(SeqMin(Xs(p)), SeqMax(Xs(p)), a, e), Extent(SeqMin(Ys(p)), SeqMax(Ys(p)), a, e))
      && (forall i, j :: 0 <= i < |m.voidMap| && 0 <= j < |m.voidMap[i]| ==> m.voidMap[i][j] == 0.0)
      && m.w == Pos(a, a)
      && m.b == Pos(SeqMin(Xs(p)) - e, SeqMin(Ys(p)) - e)
  {
    var p := SourcePoints(src);
    var xMin := SeqMin(Xs(p));
    var yMin := SeqMin(Ys(p));
    MapManager(Zeros(Extent(xMin, SeqMax(Xs(p)), a, e), Extent(yMin, SeqMax(Ys(p)), a, e)),
               Pos(a, a), Pos(xMin - e, yMin - e))
  }

  /** `real2grid`: `(p - b) * W`, truncated toward zero. */
  function Real2Grid(m: MapManager, p: Pos): Cell {
    Cell(ToGrid(p.x, m.b.x, m.w.x), ToGrid(p.y, m.b.y, m.w.y))
  }

  /** One axis of `real2grid`. */
  function ToGrid(v: real, offset: real, scale: real): int {
    Trunc((v - offset) * scale)
  }

  function Real2GridAll(m: MapManager, t: seq<Pos>): (c: seq<Cell>)
    ensures |c| == |t| && forall i :: 0 <= i < |t| ==> c[i] == Real2Grid(m, t[i])
  {
    seq(|t|, i requires 0 <= i < |t| => Real2Grid(m, t[i]))
  }

  /** A point whose scaled offset is non-negative lands in the cell whose
      unit square contains it. */
  lemma CellContainsPoint(m: MapManager, p: Pos)
    requires (p.x - m.b.x) * m.w.x >= 0.0 && (p.y - m.b.y) * m.w.y >= 0.0
    ensures var c := Real2Grid(m, p);
      && c.row as real <= (p.x - m.b.x) * m.w.x < c.row as real + 1.0
      && c.col as real <= (p.y - m.b.y) * m.w.y < c.col as real + 1.0
  {
    assert Real2Grid(m, p).row == Trunc((p.x - m.b.x) * m.w.x);
    assert Real2Grid(m, p).col == Trunc((p.y - m.b.y) * m.w.y);
  }

  lemma MulMonoR(u: real, v: real, a: real)
    requires u <= v && a >= 0.0
    ensures u * a <= v * a
  {
  }

  /** One axis of the inside property. */
  lemma AxisInside(v: real, lo: real, hi: real, a: real, e: real)
    requires lo <= v <= hi && a >= 0.0 && e >= 0.0
    ensures 0 <= ToGrid(v, lo - e, a) < Extent(lo, hi, a, e)
  {
    var x, y := (v - (lo - e)) * a, (hi - lo + 2.0 * e) * a;
    MulMonoR(0.0, v - (lo - e), a);
    assert 0.0 * a == 0.0;
    MulMonoR(v - (lo - e), hi - lo + 2.0 * e, a);
    assert 0.0 <= x <= y;
    TruncMono(x, y);
  }

  lemma TruncMono(x: real, y: real)
    requires 0.0 <= x <= y
    ensures Trunc(x) <= Trunc(y)
  {
    assert Trunc(x) as real <= x <= y < Trunc(y) as real + 1.0;
  }

  /** With a >= 0 and e >= 0 every point the map was built from lands on a
      cell inside the void map. */
  lemma Real2GridInside(src: TrajectorySource, a: real, e: real, k: nat)
    requires InitReady(src, a, e) && a >= 0.0 && e >= 0.0
    requires k < |SourcePoints(src)|
    ensures var m := InitGuidanceMap(src, a, e);
      var c := Real2Grid(m, SourcePoints(src)[k]);
      0 <= c.row < |m.voidMap| && 0 <= c.col < Width(m.voidMap)
  {
    var p := SourcePoints(src);
    var xs, ys := Xs(p), Ys(p);
    assert xs[k] == p[k].x && ys[k] == p[k].y;
    CellInside(InitGuidanceMap(src, a, e), p[k], SeqMin(xs), SeqMax(xs), SeqMin(ys), SeqMax(ys), a, e);
  }

  lemma CellInside(m: MapManager, p: Pos, xMin: real, xMax: real, yMin: real, yMax: real, a: real, e: real)
    requires xMin <= p.x <= xMax && yMin <= p.y <= yMax && a >= 0.0 && e >= 0.0
    requires HasShape(m.voidMap, Extent(xMin, xMax, a, e), Extent(yMin, yMax, a, e))
    requires m.w == Pos(a, a) && m.b == Pos(xMin - e, yMin - e)
    ensures var c := Real2Grid(m, p);
      0 <= c.row < |m.voidMap| && 0 <= c.col < Width(m.voidMap)
  {
    AxisInside(p.x, xMin, xMax, a, e);
    AxisInside(p.y, yMin, yMax, a, e);
    assert |m.voidMap[0]| == Extent(yMin, yMax, a, e);
  }

  // ---------------------------------------------------------------------
  // _add_to_map: folding trajectories onto a map, with the mask cache
  // ---------------------------------------------------------------------

  /** Every cached mask is a mask of its radius. */
  ghost predicate ValidMasks(masks: map<int, Grid>) {
    forall r :: r in masks ==> r >= 0 && IsMask(masks[r], r)
  }

  /** What the image resize is relied on for: resizing a non-negative image
      to (2r+1) x (2r+1) gives a mask of radius r. */
  ghost predicate ResizeGivesMasks(resize: (Grid, nat) -> Grid) {
    forall m: Grid, r: nat {:trigger resize(m, r)} :: NonNeg(m) ==> IsMask(resize(m, r), r)
  }

  /** The module-wide cache of resized masks, keyed by radius. */
  class MaskCache {
    var masks: map<int, Grid>

    ghost predicate Valid()
      reads this
    {
      ValidMasks(masks)
    }

    /** The cache starts empty. */
    constructor ()
      ensures masks == map[] && Valid()
    {
      masks := map[];
    }
  }

  /** How amplitudes and radii are given: one value of each for every
      trajectory and point, or one amplitude and one radius per trajectory. */
  datatype Amplitude =
    | Uniform(amp: real, radius: real)
    | PerTrajectory(amps: seq<real>, radii: seq<real>)

  /** The amplitude each trajectory receives: a uniform value becomes a row
      of that value per point; per-trajectory values stay single values. */
  function StampAmps(amplitude: Amplitude, trajs: seq<seq<Cell>>): (r: seq<Amp>)
    ensures amplitude.Uniform? ==> |r| == |trajs|
    ensures amplitude.PerTrajectory? ==> |r| == |amplitude.amps|
  {
    match amplitude
    case Uniform(a, _) =>
      var t := if |trajs| == 0 then 0 else |trajs[0]|;
      seq(|trajs|, k => PerPoint(seq(t, _ => a)))
    case PerTrajectory(amps, _) =>
      seq(|amps|, k requires 0 <= k < |amps| => Scalar(amps[k]))
  }

  /** The radius each trajectory receives, truncated by `int()`. */
  function StampRadii(amplitude: Amplitude, trajs: seq<seq<Cell>>): (r: seq<int>)
    ensures amplitude.Uniform? ==> |r| == |trajs|
    ensures amplitude.PerTrajectory? ==> |r| == |amplitude.radii|
  {
    match amplitude
    case Uniform(_, radius) => seq(|trajs|, _ => Trunc(radius))
    case PerTrajectory(_, radii) => seq(|radii|, k requires 0 <= k < |radii| => Trunc(radii[k]))
  }

  /** How many trajectories are stamped: `zip` stops at the shortest of the
      trajectories, the amplitudes and the radii. */
  function StampCount(amplitude: Amplitude, trajs: seq<seq<Cell>>): (n: nat)
    ensures n <= |trajs| && n <= |StampAmps(amplitude, trajs)| && n <= |StampRadii(amplitude, trajs)|
  {
    MinI(|trajs|, MinI(|StampAmps(amplitude, trajs)|, |StampRadii(amplitude, trajs)|))
  }

  /** The trajectories form a NumPy array; single per-trajectory amplitudes
      need decay to become per-point values; every radius used is
      non-negative (a negative one cannot give a mask size). */
  predicate AddToMapReady(trajs: seq<seq<Cell>>, amplitude: Amplitude, decay: bool) {
    && SameLength(trajs)
    && (amplitude.PerTrajectory? ==> decay)
    && forall k :: 0 <= k < StampCount(amplitude, trajs) ==> StampRadii(amplitude, trajs)[k] >= 0
  }

  /** The mask used when none is given: a single 1. */
  function InitialMask(addMask: Option<Grid>): Grid {
    addMask.GetOr([[1.0]])
  }

  /** One amplitude and one non-negative radius per trajectory, each
      amplitude fitting its trajectory. */
  predicate StampReady(trajs: seq<seq<Cell>>, amps: seq<Amp>, radii: seq<int>, decay: bool) {
    && |trajs| == |amps| == |radii|
    && forall k :: 0 <= k < |trajs| ==> radii[k] >= 0 && AmpFits(amps[k], |trajs[k]|, decay)
  }

  /** The cache after looking up radius r: a missing radius gets the resize
      of the mask used last. */
  function FetchMask(masks: map<int, Grid>, current: Grid, r: int, resize: (Grid, nat) -> Grid)
    : (res: map<int, Grid>)
    requires ValidMasks(masks) && NonNeg(current) && ResizeGivesMasks(resize) && r >= 0
    ensures ValidMasks(res) && r in res && res.Keys == masks.Keys + {r}
    ensures forall q :: q in masks ==> res[q] == masks[q]
  {
    if r in masks then masks else masks[r := resize(current, r)]
  }

  /** The stamping fold from trajectory `from` on: for each trajectory,
      fetch (or first create, by resizing the mask used last) the mask of its
      radius, then add the trajectory onto the map. Returns the final map and
      the final cache. */
  function StampAll(target: Grid, masks: map<int, Grid>, current: Grid,
                    trajs: seq<seq<Cell>>, amps: seq<Amp>, radii: seq<int>, from: nat,
                    maxLimit: bool, decay: bool, resize: (Grid, nat) -> Grid): (res: (Grid, map<int, Grid>))
    requires IsGrid(target) && ValidMasks(masks) && NonNeg(current) && ResizeGivesMasks(resize)
    requires StampReady(trajs, amps, radii, decay) && from <= |trajs|
    ensures HasShape(res.0, |target|, Width(target)) && IsGrid(res.0) && Width(res.0) == Width(target)
    ensures ValidMasks(res.1)
    decreases |trajs| - from
  {
    if from == |trajs| then (target, masks)
    else
      var r := radii[from];
      var masks' := FetchMask(masks, current, r, resize);
      var m := masks'[r];
      var next := AddOneTrajSpec(target, trajs[from], amps[from], r, m, maxLimit, decay);
      StampAll(next, masks', m, trajs, amps, radii, from + 1, maxLimit, decay, resize)
  }

  /** The cache only grows: every cached radius keeps its mask, and every
      new key is a radius the fold used. */
  lemma {:induction false} StampAllCache(target: Grid, masks: map<int, Grid>, current: Grid,
                                         trajs: seq<seq<Cell>>, amps: seq<Amp>, radii: seq<int>, from: nat,
                                         maxLimit: bool, decay: bool, resize: (Grid, nat) -> Grid)
    requires IsGrid(target) && ValidMasks(masks) && NonNeg(current) && ResizeGivesMasks(resize)
    requires StampReady(trajs, amps, radii, decay) && from <= |trajs|
    ensures var res := StampAll(target, masks, current, trajs, amps, radii, from, maxLimit, decay, resize);
      && (forall r :: r in masks ==> r in res.1 && res.1[r] == masks[r])
      && (forall r :: r in res.1 ==> r in masks || r in radii[from..])
    decreases |trajs| - from
  {
    if from < |trajs| {
      var r := radii[from];
      var masks' := FetchMask(masks, current, r, resize);
      var next := AddOneTrajSpec(target, trajs[from], amps[from], r, masks'[r], maxLimit, decay);
      StampAllCache(next, masks', masks'[r], trajs, amps, radii, from + 1, maxLimit, decay, resize);
      assert radii[from..] == [r] + radii[from + 1..];
    }
  }

  /** What `_add_to_map` leaves behind: the stamping fold over as many
      trajectories as `zip` pairs with an amplitude and a radius, starting
      from the given mask (a single 1 by default). */
  function AddToMapSpec(target: Grid, masks: map<int, Grid>, addMask: Option<Grid>,
                        trajs: seq<seq<Cell>>, amplitude: Amplitude,
                        maxLimit: bool, decay: bool, resize: (Grid, nat) -> Grid): (res: (Grid, map<int, Grid>))
    requires IsGrid(target) && ValidMasks(masks) && ResizeGivesMasks(resize)
    requires NonNeg(InitialMask(addMask)) && AddToMapReady(trajs, amplitude, decay)
    ensures HasShape(res.0, |target|, Width(target)) && IsGrid(res.0) && Width(res.0) == Width(target)
    ensures ValidMasks(res.1)
  {
    var n := StampCount(amplitude, trajs);
    AmpsFit(trajs, amplitude, decay);
    StampAll(target, masks, InitialMask(addMask), trajs[..n], StampAmps(amplitude, trajs)[..n],
             StampRadii(amplitude, trajs)[..n], 0, maxLimit, decay, resize)
  }

  /** `_add_to_map`: stamps the trajectories one after another, filling the
      mask cache as new radii appear. */
  method AddToMap(cache: MaskCache, target: Grid, trajs: seq<seq<Cell>>, amplitude: Amplitude,
                  addMask: Option<Grid>, maxLimit: bool, decay: bool, resize: (Grid, nat) -> Grid)
    returns (result: Grid)
    modifies cache
    requires cache.Valid() && IsGrid(target) && ResizeGivesMasks(resize)
    requires NonNeg(InitialMask(addMask)) && AddToMapReady(trajs, amplitude, decay)
    ensures cache.Valid()
    ensures (result, cache.masks)
            == AddToMapSpec(target, old(cache.masks), addMask, trajs, amplitude, maxLimit, decay, resize)
  {
    var n := StampCount(amplitude, trajs);
    AmpsFit(trajs, amplitude, decay);
    result := StampLoop(cache, target, InitialMask(addMask), trajs[..n], StampAmps(amplitude, trajs)[..n],
                        StampRadii(amplitude, trajs)[..n], maxLimit, decay, resize);
  }

  /** The loop of `_add_to_map` over the zipped trajectories, amplitudes and
      radii, starting from mask `current`. */
  method StampLoop(cache: MaskCache, target: Grid, current: Grid,
                   trajs: seq<seq<Cell>>, amps: seq<Amp>, radii: seq<int>,
                   maxLimit: bool, decay: bool, resize: (Grid, nat) -> Grid)
    returns (result: Grid)
    modifies cache
    requires cache.Valid() && IsGrid(target) && NonNeg(current) && ResizeGivesMasks(resize)
    requires StampReady(trajs, amps, radii, decay)
    ensures cache.Valid()
    ensures (result, cache.masks)
            == StampAll(target, old(cache.masks), current, trajs, amps, radii, 0, maxLimit, decay, resize)
  {
    ghost var goal := StampAll(target, cache.masks, current, trajs, amps, radii, 0, maxLimit, decay, resize);
    var mask := current;
    result := target;
    var k := 0;
    while k < |trajs|
      invariant 0 <= k <= |trajs|
      invariant cache.Valid() && IsGrid(result) && NonNeg(mask)
      invariant StampAll(result, cache.masks, mask, trajs, amps, radii, k, maxLimit, decay, resize) == goal
    {
      var r := radii[k];
      ghost var fetched := FetchMask(cache.masks, mask, r, resize);
      if r !in cache.masks {
        cache.masks := cache.masks[r := resize(mask, r)];
      }
      assert cache.masks == fetched;
      mask := cache.masks[r];
      result := AddOneTraj(result, trajs[k], amps[k], r, mask, maxLimit, decay);
      k := k + 1;
    }
  }

  /** Every stamped trajectory's amplitude fits it. */
  lemma AmpsFit(trajs: seq<seq<Cell>>, amplitude: Amplitude, decay: bool)
    requires AddToMapReady(trajs, amplitude, decay)
    ensures forall k :: 0 <= k < StampCount(amplitude, trajs) ==>
      AmpFits(StampAmps(amplitude, trajs)[k], |trajs[k]|, decay)
  {
  }

  /** Every point amplitude is non-negative. */
  predicate AmpNonNeg(amp: Amp, n: nat, decay: bool)
    requires AmpFits(amp, n, decay)
  {
    forall k :: 0 <= k < |PointAmps(amp, n, decay)| ==> PointAmps(amp, n, decay)[k] >= 0.0
  }

  /** Folding non-negative amplitudes onto a non-negative map keeps it
      non-negative. */
  lemma {:induction false} StampAllNonNeg(target: Grid, masks: map<int, Grid>, current: Grid,
                                          trajs: seq<seq<Cell>>, amps: seq<Amp>, radii: seq<int>, from: nat,
                                          decay: bool, resize: (Grid, nat) -> Grid)
    requires IsGrid(target) && ValidMasks(masks) && NonNeg(current) && ResizeGivesMasks(resize)
    requires StampReady(trajs, amps, radii, decay) && from <= |trajs|
    requires forall k :: 0 <= k < |trajs| ==> AmpNonNeg(amps[k], |trajs[k]|, decay)
    requires NonNeg(target)
    ensures NonNeg(StampAll(target, masks, current, trajs, amps, radii, from, false, decay, resize).0)
    decreases |trajs| - from
  {
    if from < |trajs| {
      var r := radii[from];
      var masks' := if r in masks then masks else masks[r := resize(current, r)];
      var m := masks'[r];
      AddOneTrajNonNeg(target, trajs[from], amps[from], r, m, decay);
      var next := AddOneTrajSpec(target, trajs[from], amps[from], r, m, false, decay);
      StampAllNonNeg(next, masks', m, trajs, amps, radii, from + 1, decay, resize);
    }
  }

  /** A radius missing from the cache is resized from the mask used last,
      not from the original: with two new radii r1 then r2, the mask cached
      for r2 is the resize of the resized r1 mask. */
  lemma ResizeFromLastMask(target: Grid, masks: map<int, Grid>, current: Grid,
                           t1: seq<Cell>, t2: seq<Cell>, a1: Amp, a2: Amp, r1: nat, r2: nat,
                           maxLimit: bool, decay: bool, resize: (Grid, nat) -> Grid)
    requires IsGrid(target) && ValidMasks(masks) && NonNeg(current) && ResizeGivesMasks(resize)
    requires AmpFits(a1, |t1|, decay) && AmpFits(a2, |t2|, decay)
    requires r1 !in masks && r2 !in masks && r1 != r2
    ensures StampAll(target, masks, current, [t1, t2], [a1, a2], [r1, r2], 0, maxLimit, decay, resize).1
            == masks[r1 := resize(current, r1)][r2 := resize(resize(current, r1), r2)]
  {
    var masks1 := masks[r1 := resize(current, r1)];
    var next := AddOneTrajSpec(target, t1, a1, r1, masks1[r1], maxLimit, decay);
    var masks2 := masks1[r2 := resize(masks1[r1], r2)];
    var next2 := AddOneTrajSpec(next, t2, a2, r2, masks2[r2], maxLimit, decay);
    assert StampAll(next2, masks2, masks2[r2], [t1, t2], [a1, a2], [r1, r2], 2, maxLimit, decay, resize).1 == masks2;
  }

  // ---------------------------------------------------------------------
  // build_guidance_map
  // ---------------------------------------------------------------------

  /** The grid trajectories a guidance map stamps: the flattened agent
      points or the point list as one trajectory, or every trajectory of a
      batch. */
  function GuidanceTrajs(m: MapManager, src: TrajectorySource): (t: seq<seq<Cell>>)
    requires src.Batch? ==> SameLength(src.trajs)
    ensures SameLength(t)
  {
    match src
    case Agents(a) => [Real2GridAll(m, AllPoints(a, false, 3))]
    case Points(p) => [Real2GridAll(m, p)]
    case Batch(ts) => seq(|ts|, k requires 0 <= k < |ts| => Real2GridAll(m, ts[k]))
  }

  /** Guidance trajectories are stamped with amplitude 1 and radius 7. */
  lemma GuidanceReady(m: MapManager, src: TrajectorySource)
    requires src.Batch? ==> SameLength(src.trajs)
    ensures AddToMapReady(GuidanceTrajs(m, src), Uniform(1.0, 7.0), false)
    ensures forall k :: 0 <= k < StampCount(Uniform(1.0, 7.0), GuidanceTrajs(m, src)) ==>
      StampRadii(Uniform(1.0, 7.0), GuidanceTrajs(m, src))[k] == 7
  {
    assert Trunc(7.0) == 7;
  }

  /** What `build_guidance_map` can read: `agents[0]` exists; agents start
      with a prediction agent and give at least one point (`real2grid` of an
      empty point list does not broadcast); a batch is rectangular, and its
      trajectories may be empty. */
  predicate GuidanceSourceReady(src: TrajectorySource) {
    match src
    case Agents(a) => |a| > 0 && a[0].Prediction? && |AllPoints(a, false, 3)| > 0
    case Points(p) => |p| > 0
    case Batch(ts) => |ts| > 0 && SameLength(ts)
  }

  /** The map and cache `build_guidance_map` stamps before normalising. */
  function GuidanceStamp(m: MapManager, masks: map<int, Grid>, src: TrajectorySource, base: Grid,
                         mask: Grid, resize: (Grid, nat) -> Grid): (res: (Grid, map<int, Grid>))
    requires ValidMasks(masks) && ResizeGivesMasks(resize) && NonNeg(mask)
    requires (src.Batch? ==> SameLength(src.trajs)) && IsGrid(base)
    ensures HasShape(res.0, |base|, Width(base)) && IsGrid(res.0) && ValidMasks(res.1)
  {
    GuidanceReady(m, src);
    AddToMapSpec(base, masks, Some(mask), GuidanceTrajs(m, src), Uniform(1.0, 7.0), false, false, resize)
  }

  /** The positive guidance stamps keep a non-negative map non-negative. */
  lemma GuidanceStampNonNeg(m: MapManager, masks: map<int, Grid>, src: TrajectorySource, base: Grid,
                            mask: Grid, resize: (Grid, nat) -> Grid)
    requires ValidMasks(masks) && ResizeGivesMasks(resize) && NonNeg(mask)
    requires (src.Batch? ==> SameLength(src.trajs)) && IsGrid(base) && NonNeg(base)
    ensures NonNeg(GuidanceStamp(m, masks, src, base, mask, resize).0)
  {
    var trajs := GuidanceTrajs(m, src);
    var amplitude := Uniform(1.0, 7.0);
    var n := StampCount(amplitude, trajs);
    GuidanceReady(m, src);
    AmpsFit(trajs, amplitude, false);
    StampAllNonNeg(base, masks, mask, trajs[..n], StampAmps(amplitude, trajs)[..n],
                   StampRadii(amplitude, trajs)[..n], 0, false, resize);
  }

  /** Clamping at 30, then `1 - s / max`; a zero maximum divides by zero,
      which is the `None` case. */
  function NormaliseGuidance(g: Grid): Option<Grid>
    requires NonEmptyGrid(g)
  {
    var c := Clamp30(g);
    var mx := GridMax(c);
    if mx == 0.0 then None else Some(Inverted(c, mx))
  }

  /** `1 - c / mx` cell by cell. */
  function Inverted(c: Grid, mx: real): (r: Grid)
    requires IsGrid(c) && mx != 0.0
    ensures HasShape(r, |c|, Width(c))
    ensures forall i, j :: 0 <= i < |c| && 0 <= j < |c[i]| ==> r[i][j] == 1.0 - c[i][j] / mx
  {
    seq(|c|, i requires 0 <= i < |c| => seq(|c[i]|, j requires 0 <= j < |c[i]| => 1.0 - c[i][j] / mx))
  }

  /** `np.minimum(source, 30)`. */
  function Clamp30(g: Grid): (c: Grid)
    requires IsGrid(g)
    ensures HasShape(c, |g|, Width(g)) && IsGrid(c) && Width(c) == Width(g)
    ensures forall i, j :: 0 <= i < |g| && 0 <= j < |g[i]| ==> c[i][j] == MinR(g[i][j], 30.0)
  {
    seq(|g|, i requires 0 <= i < |g| => seq(|g[i]|, j requires 0 <= j < |g[i]| => MinR(g[i][j], 30.0)))
  }

  lemma InvertedCell(x: real, m: real)
    requires 0.0 <= x <= m && m > 0.0
    ensures 0.0 <= 1.0 - x / m <= 1.0
    ensures x == 0.0 ==> 1.0 - x / m == 1.0
    ensures x == m ==> 1.0 - x / m == 0.0
  {
    RatioInUnit(x, m);
    assert m / m == 1.0;
  }

  lemma RatioInUnit(x: real, m: real)
    requires 0.0 <= x <= m && m > 0.0
    ensures 0.0 <= x / m <= 1.0
  {
    var q := x / m;
    assert q * m == x;
    if q > 1.0 {
      assert false;
    }
  }

  /** For a non-negative map, normalisation fails exactly when the map is
      all zeros. */
  lemma NormaliseGuidanceNone(g: Grid)
    requires NonEmptyGrid(g) && NonNeg(g)
    ensures NormaliseGuidance(g).None? <==>
      forall i, j :: 0 <= i < |g| && 0 <= j < |g[i]| ==> g[i][j] == 0.0
  {
    var c := Clamp30(g);
    var mx := GridMax(c);
    if mx == 0.0 {
      forall i, j | 0 <= i < |g| && 0 <= j < |g[i]|
        ensures g[i][j] == 0.0
      {
        assert c[i][j] <= mx;
      }
    } else {
      var i, j :| 0 <= i < |c| && 0 <= j < |c[i]| && c[i][j] == mx;
      assert g[i][j] != 0.0;
    }
  }

  /** Otherwise it lands in [0, 1] and keeps the shape; empty cells become
      1 and the cells at the clamped maximum become 0. */
  lemma NormaliseGuidanceRange(g: Grid)
    requires NonEmptyGrid(g) && NonNeg(g)
    ensures var r := NormaliseGuidance(g);
      r.Some? ==>
        && HasShape(r.value, |g|, Width(g)) && InUnit(r.value)
        && (forall i, j :: 0 <= i < |g| && 0 <= j < |g[i]| && g[i][j] == 0.0 ==> r.value[i][j] == 1.0)
        && (forall i, j :: 0 <= i < |g| && 0 <= j < |g[i]| && MinR(g[i][j], 30.0) == GridMax(Clamp30(g))
              ==> r.value[i][j] == 0.0)
  {
    var c := Clamp30(g);
    var mx := GridMax(c);
    if mx != 0.0 {
      var r := Inverted(c, mx);
      forall i, j | 0 <= i < |g| && 0 <= j < |g[i]|
        ensures 0.0 <= r[i][j] <= 1.0
        ensures g[i][j] == 0.0 ==> r[i][j] == 1.0
        ensures c[i][j] == mx ==> r[i][j] == 0.0
      {
        InvertedCell(c[i][j], mx);
      }
    }
  }

  /** `build_guidance_map`: stamps the source trajectories with amplitude 1
      and radius 7, without decay and without `max_limit`, onto the given
      map (the void map by default), then clamps and normalises. */
  method BuildGuidanceMap(m: MapManager, cache: MaskCache, src: TrajectorySource, source: Option<Grid>,
                          mask: Grid, resize: (Grid, nat) -> Grid)
    returns (r: Option<Grid>)
    modifies cache
    requires cache.Valid() && ResizeGivesMasks(resize) && NonNeg(mask)
    requires GuidanceSourceReady(src) && NonEmptyGrid(source.GetOr(m.voidMap))
    ensures cache.Valid()
    ensures var stamped := GuidanceStamp(m, old(cache.masks), src, source.GetOr(m.voidMap), mask, resize);
      r == NormaliseGuidance(stamped.0) && cache.masks == stamped.1
    ensures NonNeg(source.GetOr(m.voidMap)) ==> r.None? || InUnit(r.value)
  {
    ghost var masks0 := cache.masks;
    var base := source.GetOr(m.voidMap);
    var trajs: seq<seq<Cell>>;
    match src {
      case Agents(agents) =>
        var points, _ := GetTrajectories(agents, 0.0, false, 3, _ => 0.0);
        trajs := [Real2GridAll(m, points)];
      case Points(p) =>
        trajs := [Real2GridAll(m, p)];
      case Batch(ts) =>
        trajs := seq(|ts|, k requires 0 <= k < |ts| => Real2GridAll(m, ts[k]));
    }
    assert trajs == GuidanceTrajs(m, src);
    GuidanceReady(m, src);
    var stamped := AddToMap(cache, base, trajs, Uniform(1.0, 7.0), Some(mask), false, false, resize);
    if NonNeg(base) {
      GuidanceStampNonNeg(m, masks0, src, base, mask, resize);
      NormaliseGuidanceRange(stamped);
    }
    r := NormaliseGuidance(stamped);
  }

  // ---------------------------------------------------------------------
  // argsort
  // ---------------------------------------------------------------------

  /** Index p sorts before index q: a smaller key, or an equal key and a
      smaller index. */
  predicate Before(p: nat, q: nat, d: seq<real>)
    requires p < |d| && q < |d|
  {
    d[p] < d[q] || (d[p] == d[q] && p < q)
  }

  predicate Indices(s: seq<nat>, n: nat) {
    forall k :: 0 <= k < |s| ==> s[k] < n
  }

  /** The indices are in ascending key order, ties by index. */
  predicate SortedBy(s: seq<nat>, d: seq<real>)
    requires Indices(s, |d|)
  {
    forall a, b :: 0 <= a < b < |s| ==> Before(s[a], s[b], d)
  }

  function Range(n: nat): (r: seq<nat>)
    ensures |r| == n && forall k :: 0 <= k < n ==> r[k] == k
  {
    seq(n, k => k)
  }

  /** Inserts index i in front of the first index with a larger key. */
  function InsertByKey(i: nat, s: seq<nat>, d: seq<real>): (r: seq<nat>)
    requires i < |d| && Indices(s, |d|)
    ensures multiset(r) == multiset(s) + multiset{i}
    ensures Indices(r, |d|)
  {
    if |s| == 0 then [i]
    else if d[i] < d[s[0]] then [i] + s
    else
      assert s == [s[0]] + s[1..];
      [s[0]] + InsertByKey(i, s[1..], d)
  }

  /** Inserting an index larger than every index present keeps the order. */
  lemma {:induction false} InsertSorted(i: nat, s: seq<nat>, d: seq<real>)
    requires i < |d| && Indices(s, |d|) && SortedBy(s, d)
    requires forall k :: 0 <= k < |s| ==> s[k] < i
    ensures SortedBy(InsertByKey(i, s, d), d)
    ensures |InsertByKey(i, s, d)| > 0
    ensures InsertByKey(i, s, d)[0] == i || (|s| > 0 && InsertByKey(i, s, d)[0] == s[0])
    decreases |s|
  {
    if |s| > 0 && d[i] >= d[s[0]] {
      var rest := InsertByKey(i, s[1..], d);
      InsertSorted(i, s[1..], d);
      var r := [s[0]] + rest;
      forall a, b | 0 <= a < b < |r|
        ensures Before(r[a], r[b], d)
      {
        if a == 0 {
          if b == 1 && rest[0] == i {
            assert Before(s[0], i, d);
          } else {
            var x := r[b];
            assert x == i || x in s[1..] by {
              assert x in multiset(rest);
            }
            if x != i {
              var c :| 1 <= c < |s| && s[c] == x;
              assert Before(s[0], s[c], d);
            }
          }
        }
      }
    }
  }

  /** `np.argsort` of the first n keys, as a stable sort. */
  function ArgSortPrefix(d: seq<real>, n: nat): (r: seq<nat>)
    requires n <= |d|
    ensures multiset(r) == multiset(Range(n))
    ensures Indices(r, n) && Indices(r, |d|) && |r| == n
    ensures SortedBy(r, d)
  {
    if n == 0 then []
    else
      var prev := ArgSortPrefix(d, n - 1);
      var last: nat := n - 1;
      RangeSnoc(last);
      assert forall k :: 0 <= k < |prev| ==> prev[k] < last;
      InsertSorted(last, prev, d);
      var r := InsertByKey(last, prev, d);
      InsertBound(r, prev, last);
      r
  }

  lemma RangeSnoc(n: nat)
    ensures multiset(Range(n + 1)) == multiset(Range(n)) + multiset{n}
  {
    assert Range(n + 1) == Range(n) + [n];
  }

  /** `np.argsort`: the indices of d in ascending key order. */
  function ArgSort(d: seq<real>): (r: seq<nat>)
    ensures multiset(r) == multiset(Range(|d|)) && Indices(r, |d|) && |r| == |d|
    ensures SortedBy(r, d)
  {
    ArgSortPrefix(d, |d|)
  }

  /** Every index appears in the argsort. */
  lemma ArgSortHas(d: seq<real>, i: nat)
    requires i < |d|
    ensures i in ArgSort(d)
  {
    assert i in multiset(Range(|d|)) by { assert Range(|d|)[i] == i; }
  }

  lemma InsertBound(r: seq<nat>, prev: seq<nat>, last: nat)
    requires multiset(r) == multiset(prev) + multiset{last} && Indices(prev, last)
    ensures Indices(r, last + 1) && |r| == |prev| + 1
  {
    assert |r| == |multiset(r)|;
    forall k | 0 <= k < |r|
      ensures r[k] <= last
    {
      assert r[k] in multiset(r);
      if r[k] != last {
        assert r[k] in multiset(prev);
      }
    }
  }

  // ---------------------------------------------------------------------
  // build_social_map
  // ---------------------------------------------------------------------

  /** The target's linear prediction has a point, at least one neighbour
      is given, and every neighbour is as long as the target's prediction
      (they are stacked into one array). */
  predicate SocialReady(pred: seq<Pos>, neighbors: seq<seq<Pos>>) {
    |pred| > 0 && |neighbors| > 0 && forall k :: 0 <= k < |neighbors| ==> |neighbors[k]| == |pred|
  }

  /** Last point minus first point. */
  function Displacement(t: seq<Pos>): Pos
    requires |t| > 0
  {
    Sub(t[|t| - 1], t[0])
  }

  /** The target's displacement is below 0.05: it counts as standing. */
  predicate Stationary(pred: seq<Pos>, length: Pos -> real)
    requires |pred| > 0
  {
    length(Displacement(pred)) < 0.05
  }

  /** Neighbour amplitudes: -2 each for a standing target; otherwise minus
      the activated cosine between the two displacements times the ratio of
      the neighbour's displacement length to the target's. */
  function NeighborAmps(pred: seq<Pos>, neighbors: seq<seq<Pos>>, length: Pos -> real,
                        cosAct: (Pos, Pos) -> real): (a: seq<real>)
    requires SocialReady(pred, neighbors)
    ensures |a| == |neighbors|
    ensures Stationary(pred, length) ==> forall k :: 0 <= k < |a| ==> a[k] == -2.0
    ensures !Stationary(pred, length) ==> forall k :: 0 <= k < |a| ==>
      a[k] == -cosAct(Displacement(pred), Displacement(neighbors[k]))
              * (length(Displacement(neighbors[k])) / length(Displacement(pred)))
  {
    var vt := Displacement(pred);
    if length(vt) >= 0.05 then
      seq(|neighbors|, k requires 0 <= k < |neighbors| =>
        var vn := Displacement(neighbors[k]);
        -cosAct(vt, vn) * (length(vn) / length(vt)))
    else seq(|neighbors|, _ => -2.0)
  }

  /** The trajectories a social map stamps, and the amplitude and radius
      lists handed over with them. */
  datatype StampPlan = StampPlan(trajs: seq<seq<Pos>>, amps: seq<real>, radii: seq<real>)

  /** Distance of every trajectory's first point to the target's first
      point. */
  function StartDistances(trajs: seq<seq<Pos>>, length: Pos -> real): (d: seq<real>)
    requires |trajs| > 0 && forall k :: 0 <= k < |trajs| ==> |trajs[k]| > 0
    ensures |d| == |trajs|
  {
    seq(|trajs|, k requires 0 <= k < |trajs| => length(Sub(trajs[0][0], trajs[k][0])))
  }

  /** `trajs[index]`. */
  function Pick(trajs: seq<seq<Pos>>, index: seq<nat>): (r: seq<seq<Pos>>)
    requires Indices(index, |trajs|)
    ensures |r| == |index| && forall k :: 0 <= k < |r| ==> r[k] == trajs[index[k]]
  {
    seq(|index|, k requires 0 <= k < |index| => trajs[index[k]])
  }

  /** The indices kept when there are more than `max_neighbor + 1`
      trajectories: `argsort(dis)[:max_neighbor + 1]`. */
  function KeptIndex(trajs: seq<seq<Pos>>, maxNeighbor: int, length: Pos -> real): (r: seq<nat>)
    requires |trajs| > 0 && forall k :: 0 <= k < |trajs| ==> |trajs[k]| > 0
    ensures Indices(r, |trajs|)
  {
    var index := ArgSort(StartDistances(trajs, length));
    PySliceElements(index, 0, maxNeighbor + 1);
    PySlice(index, 0, maxNeighbor + 1)
  }

  /** The lists as `build_social_map` assembles them: the target first
      with amplitude -2 and radius `interest_size`, then the neighbours with
      their amplitudes and radius `avoid_size`; pruning reorders and cuts
      the trajectory list only. */
  function SocialPlan(pred: seq<Pos>, neighbors: seq<seq<Pos>>, interestSize: real, avoidSize: real,
                      maxNeighbor: int, length: Pos -> real, cosAct: (Pos, Pos) -> real): (p: StampPlan)
    requires SocialReady(pred, neighbors)
    ensures SameLength(p.trajs) && forall k :: 0 <= k < |p.trajs| ==> |p.trajs[k]| == |pred|
  {
    var trajs := [pred] + neighbors;
    var amps := [-2.0] + NeighborAmps(pred, neighbors, length, cosAct);
    var radii := [interestSize] + seq(|neighbors|, _ => avoidSize);
    assert forall k :: 0 <= k < |trajs| ==> |trajs[k]| == |pred|;
    var kept := if |trajs| > maxNeighbor + 1 then Pick(trajs, KeptIndex(trajs, maxNeighbor, length)) else trajs;
    assert forall k :: 0 <= k < |kept| ==> |kept[k]| == |pred|;
    StampPlan(kept, amps, radii)
  }

  /** The target comes first with amplitude -2 and radius `interest_size`;
      every neighbour has radius `avoid_size`; for a standing target every
      neighbour amplitude is -2, otherwise it is the cosine-velocity term. */
  lemma SocialLists(pred: seq<Pos>, neighbors: seq<seq<Pos>>, interestSize: real, avoidSize: real,
                    maxNeighbor: int, length: Pos -> real, cosAct: (Pos, Pos) -> real)
    requires SocialReady(pred, neighbors)
    ensures var p := SocialPlan(pred, neighbors, interestSize, avoidSize, maxNeighbor, length, cosAct);
      && |p.amps| == |p.radii| == |neighbors| + 1
      && p.amps[0] == -2.0 && p.radii[0] == interestSize
      && (forall k :: 1 <= k <= |neighbors| ==> p.radii[k] == avoidSize)
      && (Stationary(pred, length) ==> forall k :: 1 <= k <= |neighbors| ==> p.amps[k] == -2.0)
      && (!Stationary(pred, length) ==> forall k :: 1 <= k <= |neighbors| ==>
            p.amps[k] == -cosAct(Displacement(pred), Displacement(neighbors[k - 1]))
                         * (length(Displacement(neighbors[k - 1])) / length(Displacement(pred))))
  {
    var p := SocialPlan(pred, neighbors, interestSize, avoidSize, maxNeighbor, length, cosAct);
    var na := NeighborAmps(pred, neighbors, length, cosAct);
    var radii := seq(|neighbors|, _ => avoidSize);
    assert p.amps == [-2.0] + na && p.radii == [interestSize] + radii;
    forall k | 1 <= k <= |neighbors|
      ensures p.amps[k] == na[k - 1] && p.radii[k] == avoidSize
    {
      assert p.radii[k] == radii[k - 1];
    }
  }

  /** With at most `max_neighbor + 1` trajectories nothing is pruned. */
  lemma SocialUnpruned(pred: seq<Pos>, neighbors: seq<seq<Pos>>, interestSize: real, avoidSize: real,
                       maxNeighbor: int, length: Pos -> real, cosAct: (Pos, Pos) -> real)
    requires SocialReady(pred, neighbors) && |neighbors| + 1 <= maxNeighbor + 1
    ensures SocialPlan(pred, neighbors, interestSize, avoidSize, maxNeighbor, length, cosAct).trajs
            == [pred] + neighbors
  {
  }

  /** Pruning keeps exactly `max_neighbor + 1` trajectories, the nearest by
      start-point distance: no dropped trajectory is nearer than a kept one.
      The amplitude and radius lists are not reordered with them, so stamp
      k pairs trajectory `index[k]` with the amplitude and radius of list
      position k. */
  lemma SocialPruned(pred: seq<Pos>, neighbors: seq<seq<Pos>>, interestSize: real, avoidSize: real,
                     maxNeighbor: int, length: Pos -> real, cosAct: (Pos, Pos) -> real)
    requires SocialReady(pred, neighbors)
    requires maxNeighbor >= -1 && |neighbors| + 1 > maxNeighbor + 1
    ensures var trajs := [pred] + neighbors;
      var d := StartDistances(trajs, length);
      var index := ArgSort(d);
      var p := SocialPlan(pred, neighbors, interestSize, avoidSize, maxNeighbor, length, cosAct);
      && |p.trajs| == maxNeighbor + 1
      && (forall k :: 0 <= k < |p.trajs| ==> p.trajs[k] == trajs[index[k]])
      && (forall a, b :: 0 <= a <= maxNeighbor < b < |trajs| ==> d[index[a]] <= d[index[b]])
      && p.amps == [-2.0] + NeighborAmps(pred, neighbors, length, cosAct)
      && p.radii == [interestSize] + seq(|neighbors|, _ => avoidSize)
  {
    var trajs := [pred] + neighbors;
    var d := StartDistances(trajs, length);
    var index := ArgSort(d);
    assert KeptIndex(trajs, maxNeighbor, length) == index[0..maxNeighbor + 1];
    forall a, b | 0 <= a <= maxNeighbor < b < |trajs|
      ensures d[index[a]] <= d[index[b]]
    {
      assert Before(index[a], index[b], d);
    }
  }

  /** When distances are never negative and the zero displacement has
      length 0, the target stays the first stamped trajectory after
      pruning. */
  lemma SocialTargetFirst(pred: seq<Pos>, neighbors: seq<seq<Pos>>, interestSize: real, avoidSize: real,
                          maxNeighbor: int, length: Pos -> real, cosAct: (Pos, Pos) -> real)
    requires SocialReady(pred, neighbors) && maxNeighbor >= 0
    requires length(Pos(0.0, 0.0)) == 0.0 && forall v :: length(v) >= 0.0
    ensures var p := SocialPlan(pred, neighbors, interestSize, avoidSize, maxNeighbor, length, cosAct);
      |p.trajs| > 0 && p.trajs[0] == pred
  {
    var trajs := [pred] + neighbors;
    if |trajs| > maxNeighbor + 1 {
      var d := StartDistances(trajs, length);
      var index := ArgSort(d);
      assert Sub(trajs[0][0], trajs[0][0]) == Pos(0.0, 0.0);
      assert d[0] == 0.0;
      ArgSortHas(d, 0);
      var a :| 0 <= a < |index| && index[a] == 0;
      assert d[index[0]] == length(Sub(trajs[0][0], trajs[index[0]][0]));
      if a > 0 {
        assert false;
      }
      assert KeptIndex(trajs, maxNeighbor, length) == index[0..maxNeighbor + 1];
    }
  }

  /** The grid trajectories of a plan. */
  function PlanCells(m: MapManager, p: StampPlan): (c: seq<seq<Cell>>)
    ensures |c| == |p.trajs| && forall k :: 0 <= k < |c| ==> |c[k]| == |p.trajs[k]|
  {
    seq(|p.trajs|, k requires 0 <= k < |p.trajs| => Real2GridAll(m, p.trajs[k]))
  }

  /** `regulation`: a value range of at most 0.01 gives a uniform 0.5 map,
      otherwise min-max scaling. */
  function Regulate(g: Grid): Grid
    requires NonEmptyGrid(g)
  {
    RegulateWith(g, GridMin(g), GridMax(g))
  }

  /** Regulation given the extremes. */
  function RegulateWith(g: Grid, mn: real, mx: real): Grid
    requires IsGrid(g)
  {
    if mx - mn <= 0.01 then Filled(g, 0.5) else Scaled(g, mn, mx - mn)
  }

  /** Every cell lies between mn and mx. */
  predicate Between(g: Grid, mn: real, mx: real) {
    forall i, j :: 0 <= i < |g| && 0 <= j < |g[i]| ==> mn <= g[i][j] <= mx
  }

  /** `v * np.ones_like(g)`. */
  function Filled(g: Grid, v: real): (r: Grid)
    requires IsGrid(g)
    ensures HasShape(r, |g|, Width(g))
    ensures forall i, j :: 0 <= i < |g| && 0 <= j < |g[i]| ==> r[i][j] == v
  {
    seq(|g|, i requires 0 <= i < |g| => seq(|g[i]|, j => v))
  }

  /** `(g - mn) / span` cell by cell. */
  function Scaled(g: Grid, mn: real, span: real): (r: Grid)
    requires IsGrid(g) && span != 0.0
    ensures HasShape(r, |g|, Width(g))
    ensures forall i, j :: 0 <= i < |g| && 0 <= j < |g[i]| ==> r[i][j] == (g[i][j] - mn) / span
  {
    seq(|g|, i requires 0 <= i < |g| => seq(|g[i]|, j requires 0 <= j < |g[i]| => (g[i][j] - mn) / span))
  }

  /** Regulation always lands in [0, 1] and keeps the shape. */
  lemma RegulateRange(g: Grid)
    requires NonEmptyGrid(g)
    ensures HasShape(Regulate(g), |g|, Width(g)) && InUnit(Regulate(g))
  {
    if GridMax(g) - GridMin(g) <= 0.01 {
      RegulateFlat(g);
    } else {
      RegulateSpread(g);
    }
  }

  /** A value range of at most 0.01 gives 0.5 everywhere. */
  lemma RegulateFlat(g: Grid)
    requires NonEmptyGrid(g) && GridMax(g) - GridMin(g) <= 0.01
    ensures HasShape(Regulate(g), |g|, Width(g))
    ensures forall i, j :: 0 <= i < |g| && 0 <= j < |g[i]| ==> Regulate(g)[i][j] == 0.5
  {
  }

  /** Otherwise min-max scaling lands in [0, 1], sends the minimum cells to
      0 and the maximum cells to 1. */
  lemma RegulateSpread(g: Grid)
    requires NonEmptyGrid(g) && GridMax(g) - GridMin(g) > 0.01
    ensures var r := Regulate(g);
      && HasShape(r, |g|, Width(g)) && InUnit(r)
      && (forall i, j :: 0 <= i < |g| && 0 <= j < |g[i]| && g[i][j] == GridMin(g) ==> r[i][j] == 0.0)
      && (forall i, j :: 0 <= i < |g| && 0 <= j < |g[i]| && g[i][j] == GridMax(g) ==> r[i][j] == 1.0)
  {
    var mn, mx := GridMin(g), GridMax(g);
    assert Between(g, mn, mx);
    assert Regulate(g) == RegulateWith(g, mn, mx);
    RegulateWithSpread(g, mn, mx);
    ScaledRange(g, mn, mx);
  }

  lemma RegulateWithSpread(g: Grid, mn: real, mx: real)
    requires IsGrid(g) && mx - mn > 0.01
    ensures RegulateWith(g, mn, mx) == Scaled(g, mn, mx - mn)
  {
  }

  lemma ScaledRange(g: Grid, mn: real, mx: real)
    requires IsGrid(g) && mx - mn > 0.0 && Between(g, mn, mx)
    ensures var r := Scaled(g, mn, mx - mn);
      && InUnit(r)
      && (forall i, j :: 0 <= i < |g| && 0 <= j < |g[i]| && g[i][j] == mn ==> r[i][j] == 0.0)
      && (forall i, j :: 0 <= i < |g| && 0 <= j < |g[i]| && g[i][j] == mx ==> r[i][j] == 1.0)
  {
    var r := Scaled(g, mn, mx - mn);
    forall i, j | 0 <= i < |g| && 0 <= j < |g[i]|
      ensures 0.0 <= r[i][j] <= 1.0
      ensures g[i][j] == mn ==> r[i][j] == 0.0
      ensures g[i][j] == mx ==> r[i][j] == 1.0
    {
      ScaledCell(g[i][j], mn, mx);
    }
  }

  /** A social plan can be stamped: its trajectories all have the length of
      the target and every radius is `interest_size` or `avoid_size`. */
  lemma SocialStampReady(m: MapManager, pred: seq<Pos>, neighbors: seq<seq<Pos>>,
                         interestSize: real, avoidSize: real, maxNeighbor: int,
                         length: Pos -> real, cosAct: (Pos, Pos) -> real)
    requires SocialReady(pred, neighbors) && Trunc(interestSize) >= 0 && Trunc(avoidSize) >= 0
    ensures var p := SocialPlan(pred, neighbors, interestSize, avoidSize, maxNeighbor, length, cosAct);
      AddToMapReady(PlanCells(m, p), PerTrajectory(p.amps, p.radii), true)
  {
    var p := SocialPlan(pred, neighbors, interestSize, avoidSize, maxNeighbor, length, cosAct);
    SocialLists(pred, neighbors, interestSize, avoidSize, maxNeighbor, length, cosAct);
    var cells := PlanCells(m, p);
    var amplitude := PerTrajectory(p.amps, p.radii);
    forall k | 0 <= k < StampCount(amplitude, cells)
      ensures StampRadii(amplitude, cells)[k] >= 0
    {
      assert StampRadii(amplitude, cells)[k] == Trunc(p.radii[k]);
      assert k == 0 || p.radii[k] == avoidSize;
    }
  }

  /** The map and cache `build_social_map` stamps before regulating. */
  function SocialStamp(m: MapManager, masks: map<int, Grid>, pred: seq<Pos>, neighbors: seq<seq<Pos>>,
                       base: Grid, maxNeighbor: int, interestSize: real, avoidSize: real, mask: Grid,
                       length: Pos -> real, cosAct: (Pos, Pos) -> real, resize: (Grid, nat) -> Grid)
    : (res: (Grid, map<int, Grid>))
    requires ValidMasks(masks) && ResizeGivesMasks(resize) && NonNeg(mask)
    requires SocialReady(pred, neighbors) && IsGrid(base)
    requires Trunc(interestSize) >= 0 && Trunc(avoidSize) >= 0
    ensures HasShape(res.0, |base|, Width(base)) && IsGrid(res.0) && ValidMasks(res.1)
  {
    var p := SocialPlan(pred, neighbors, interestSize, avoidSize, maxNeighbor, length, cosAct);
    SocialStampReady(m, pred, neighbors, interestSize, avoidSize, maxNeighbor, length, cosAct);
    AddToMapSpec(base, masks, Some(mask), PlanCells(m, p), PerTrajectory(p.amps, p.radii), false, true, resize)
  }

  /** `build_social_map`: assembles the stamp lists, prunes to the nearest
      `max_neighbor + 1` trajectories, stamps them with decay onto the given
      map (the void map by default) and optionally regulates. */
  method BuildSocialMap(m: MapManager, cache: MaskCache, pred: seq<Pos>, neighbors: seq<seq<Pos>>,
                        source: Option<Grid>, regulation: bool, maxNeighbor: int,
                        interestSize: real, avoidSize: real, mask: Grid,
                        length: Pos -> real, cosAct: (Pos, Pos) -> real, resize: (Grid, nat) -> Grid)
    returns (r: Grid)
    modifies cache
    requires cache.Valid() && ResizeGivesMasks(resize) && NonNeg(mask)
    requires SocialReady(pred, neighbors) && IsGrid(source.GetOr(m.voidMap))
    requires Trunc(interestSize) >= 0 && Trunc(avoidSize) >= 0
    requires regulation ==> NonEmptyGrid(source.GetOr(m.voidMap))
    ensures cache.Valid()
    ensures var stamped := SocialStamp(m, old(cache.masks), pred, neighbors, source.GetOr(m.voidMap),
                                       maxNeighbor, interestSize, avoidSize, mask, length, cosAct, resize);
      cache.masks == stamped.1
      && r == if regulation then Regulate(stamped.0) else stamped.0
    ensures regulation ==> InUnit(r)
  {
    var base := source.GetOr(m.voidMap);
    var trajs := [pred];
    var amps := [-2.0];
    var rads := [interestSize];
    var radsNeighbors := seq(|neighbors|, _ => avoidSize);
    var ampNeighbors := NeighborAmps(pred, neighbors, length, cosAct);
    amps := amps + ampNeighbors;
    trajs := trajs + neighbors;
    rads := rads + radsNeighbors;
    if |trajs| > maxNeighbor + 1 {
      trajs := Pick(trajs, KeptIndex(trajs, maxNeighbor, length));
    }
    ghost var p := SocialPlan(pred, neighbors, interestSize, avoidSize, maxNeighbor, length, cosAct);
    assert p == StampPlan(trajs, amps, rads);
    var cells := seq(|trajs|, k requires 0 <= k < |trajs| => Real2GridAll(m, trajs[k]));
    assert cells == PlanCells(m, p);
    var amplitude := PerTrajectory(amps, rads);
    SocialStampReady(m, pred, neighbors, interestSize, avoidSize, maxNeighbor, length, cosAct);
    var stamped := AddToMap(cache, base, cells, amplitude, Some(mask), false, true, resize);
    if regulation {
      RegulateRange(stamped);
      r := Regulate(stamped);
    } else {
      r := stamped;
    }
  }

  lemma ScaledCell(x: real, mn: real, mx: real)
    requires mn <= x <= mx && mx - mn > 0.0
    ensures 0.0 <= (x - mn) / (mx - mn) <= 1.0
    ensures x == mn ==> (x - mn) / (mx - mn) == 0.0
    ensures x == mx ==> (x - mn) / (mx - mn) == 1.0
  {
    RatioInUnit(x - mn, mx - mn);
    assert (mx - mn) / (mx - mn) == 1.0;
  }

  // ---------------------------------------------------------------------
  // cut_map
  // ---------------------------------------------------------------------

  /** A batch of maps of one shape (a NumPy array `(batch, a, b)`). */
  predicate Stacked(maps: seq<Grid>) {
    forall k :: 0 <= k < |maps| ==> HasShape(maps[k], |maps[0]|, Width(maps[0]))
  }

  /** The map height and width of a batch. */
  function Rows(maps: seq<Grid>): nat { if |maps| == 0 then 0 else |maps[0]| }
  function Cols(maps: seq<Grid>): nat { if |maps| == 0 then 0 else Width(maps[0]) }

  /** A crop centre: truncated to integers, raised to at least h, then
      lowered to at most `a - h` (rows) and `b - h` (columns). */
  function ClampCenter(c: Pos, a: int, b: int, h: int): Cell {
    Cell(MinI(MaxI(Trunc(c.x), h), a - h), MinI(MaxI(Trunc(c.y), h), b - h))
  }

  /** Every centre clamped. */
  function ClampAll(centers: seq<Pos>, a: int, b: int, h: int): (r: seq<Cell>)
    ensures |r| == |centers| && forall k :: 0 <= k < |r| ==> r[k] == ClampCenter(centers[k], a, b, h)
  {
    seq(|centers|, k requires 0 <= k < |centers| => ClampCenter(centers[k], a, b, h))
  }

  /** `m[c0 - h : c0 + h, c1 - h : c1 + h]` with Python slice rules. */
  function Crop(m: Grid, c: Cell, h: int): (r: Grid)
    ensures |r| <= |m|
  {
    var rows := PySlice(m, c.row - h, c.row + h);
    seq(|rows|, i requires 0 <= i < |rows| => PySlice(rows[i], c.col - h, c.col + h))
  }

  /** `cut_map`: clamps every centre, then crops map k around centre k, for
      as many pairs as both lists have. */
  method CutMap(maps: seq<Grid>, centers: seq<Pos>, h: int) returns (cuts: seq<Grid>)
    requires Stacked(maps)
    ensures |cuts| == MinI(|maps|, |centers|)
    ensures forall k :: 0 <= k < |cuts| ==>
      cuts[k] == Crop(maps[k], ClampCenter(centers[k], Rows(maps), Cols(maps), h), h)
  {
    var clamped := ClampAll(centers, Rows(maps), Cols(maps), h);
    cuts := CropEach(maps, clamped, h);
  }

  /** The crop loop of `cut_map`: map k cropped around clamped centre k. */
  method CropEach(maps: seq<Grid>, clamped: seq<Cell>, h: int) returns (cuts: seq<Grid>)
    ensures |cuts| == MinI(|maps|, |clamped|)
    ensures forall k :: 0 <= k < |cuts| ==> cuts[k] == Crop(maps[k], clamped[k], h)
  {
    var n := MinI(|maps|, |clamped|);
    cuts := [];
    var k := 0;
    while k < n
      invariant 0 <= k <= n
      invariant |cuts| == k
      invariant forall i :: 0 <= i < k ==> cuts[i] == Crop(maps[i], clamped[i], h)
    {
      cuts := cuts + [Crop(maps[k], clamped[k], h)];
      k := k + 1;
    }
  }

  /** The crop around c is the 2h x 2h window of m whose top-left cell is
      (c0 - h, c1 - h), and that window lies inside m. */
  predicate CropIsWindow(m: Grid, c: Cell, h: int) {
    && 0 <= h && h <= c.row && c.row + h <= |m| && h <= c.col
    && (forall i :: 0 <= i < |m| ==> c.col + h <= |m[i]|)
    && HasShape(Crop(m, c, h), 2 * h, 2 * h)
    && forall i, j :: 0 <= i < 2 * h && 0 <= j < 2 * h ==>
         Crop(m, c, h)[i][j] == m[c.row - h + i][c.col - h + j]
  }

  /** With 0 <= h and 2h within both sides, the clamped centre keeps the
      window inside the map, each crop is 2h x 2h, and crop cell (i, j) is
      map cell (c0 - h + i, c1 - h + j). */
  lemma CropWindow(m: Grid, a: int, b: int, center: Pos, h: int)
    requires HasShape(m, a, b) && 0 <= h && 2 * h <= a && 2 * h <= b
    ensures CropIsWindow(m, ClampCenter(center, a, b, h), h)
  {
    ClampBounds(center, a, b, h);
    CropAt(m, a, b, ClampCenter(center, a, b, h), h);
  }

  /** With room for the window, a clamped centre is at least h from every side. */
  lemma ClampBounds(center: Pos, a: int, b: int, h: int)
    requires 0 <= h && 2 * h <= a && 2 * h <= b
    ensures h <= ClampCenter(center, a, b, h).row <= a - h
    ensures h <= ClampCenter(center, a, b, h).col <= b - h
  {
  }

  /** A crop around a centre at least h from every side. */
  lemma CropAt(m: Grid, a: int, b: int, c: Cell, h: int)
    requires HasShape(m, a, b) && 0 <= h && h <= c.row <= a - h && h <= c.col <= b - h
    ensures CropIsWindow(m, c, h)
  {
    var rows := PySlice(m, c.row - h, c.row + h);
    assert rows == m[c.row - h..c.row + h];
    var crop := Crop(m, c, h);
    forall i | 0 <= i < 2 * h
      ensures |crop[i]| == 2 * h
      ensures forall j :: 0 <= j < 2 * h ==> crop[i][j] == m[c.row - h + i][c.col - h + j]
    {
      assert rows[i] == m[c.row - h + i];
      assert |rows[i]| == b;
      assert crop[i] == PySlice(rows[i], c.col - h, c.col + h) == rows[i][c.col - h..c.col + h];
    }
  }

  /** A centre whose window already fits is left where it is. */
  lemma ClampKeepsInnerCenter(center: Pos, a: int, b: int, h: int)
    requires h <= Trunc(center.x) <= a - h && h <= Trunc(center.y) <= b - h
    ensures ClampCenter(center, a, b, h) == Cell(Trunc(center.x), Trunc(center.y))
  {
  }
}
