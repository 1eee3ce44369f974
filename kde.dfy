/** Kernel density estimation (src/utils/spatialAnalysis.js): the regular grid of
    `generateGrid`, Silverman's bandwidth of `calculateOptimalBandwidth`, and
    `performKDE`, which writes a density into every grid cell and then normalises the
    densities by their maximum. */
module Kde {
  import opened Wrappers
  import opened Numerics
  import opened Points
  import opened Lists

  datatype Bounds = Bounds(minLat: real, maxLat: real, minLng: real, maxLng: real)

  /** A grid point. `density` and `normalizedDensity` are `None` until `performKDE`
      assigns them. */
  datatype GridCell = GridCell(
    lat: real, lng: real, row: nat, col: nat,
    density: Option<real>, normalizedDensity: Option<real>)

  // ---------------------------------------------------------------- generateGrid

  /** The cell in row `i` and column `j` of a grid of `res` steps per side. */
  function Cell(b: Bounds, res: nat, i: nat, j: nat): GridCell
    requires res > 0
  {
    var latStep := (b.maxLat - b.minLat) / (res as real);
    var lngStep := (b.maxLng - b.minLng) / (res as real);
    GridCell(b.minLat + (i as real) * latStep, b.minLng + (j as real) * lngStep, i, j, None, None)
  }

  /** The grid in row-major order: index k holds row k / (res + 1), column k % (res + 1). */
  function Grid(b: Bounds, res: nat): (g: seq<GridCell>)
    requires res > 0
    ensures |g| == (res + 1) * (res + 1)
  {
    seq((res + 1) * (res + 1), k requires 0 <= k < (res + 1) * (res + 1) => Cell(b, res, k / (res + 1), k % (res + 1)))
  }

  lemma MulMonotone(a: int, b: int, w: nat)
    requires a <= b
    ensures a * w <= b * w
  {
    assert b * w - a * w == (b - a) * w;
  }

  lemma DivModUnique(k: int, w: int, q: int, r: int)
    requires w > 0 && k == q * w + r && 0 <= r < w
    ensures k / w == q && k % w == r
  {
    var q', r' := k / w, k % w;
    assert (q - q') * w == r' - r;
    if q > q' {
      MulMonotone(1, q - q', w);
      assert false;
    }
    if q < q' {
      MulMonotone(1, q' - q, w);
      assert false;
    }
  }

  /** Index i * w + j of a w-by-w row-major layout is in range, in row i and column j. */
  lemma RowMajorIndex(w: nat, i: nat, j: nat)
    requires 0 < w && i < w && j < w
    ensures i * w + j < w * w
    ensures (i * w + j) / w == i && (i * w + j) % w == j
  {
    MulMonotone(i, w - 1, w);
    assert (w - 1) * w == w * w - w;
    DivModUnique(i * w + j, w, i, j);
  }

  /** The grid has (res + 1)^2 cells, and the one at index i * (res + 1) + j lies in row i
      and column j, at latitude minLat + i * latStep and longitude minLng + j * lngStep. */
  lemma GridIndexing(b: Bounds, res: nat, i: nat, j: nat)
    requires res > 0 && i <= res && j <= res
    ensures i * (res + 1) + j < |Grid(b, res)|
    ensures Grid(b, res)[i * (res + 1) + j] == Cell(b, res, i, j)
    ensures Grid(b, res)[i * (res + 1) + j].row == i && Grid(b, res)[i * (res + 1) + j].col == j
    ensures Grid(b, res)[i * (res + 1) + j].lat == b.minLat + (i as real) * ((b.maxLat - b.minLat) / (res as real))
    ensures Grid(b, res)[i * (res + 1) + j].lng == b.minLng + (j as real) * ((b.maxLng - b.minLng) / (res as real))
  {
    var w := res + 1;
    var k := i * w + j;
    RowMajorIndex(w, i, j);
    assert Grid(b, res)[k] == Cell(b, res, k / w, k % w);
  }

  /** `generateGrid`: the two nested loops that push one cell per (row, column). */
  method GenerateGrid(b: Bounds, res: nat) returns (grid: seq<GridCell>)
    requires res > 0
    ensures grid == Grid(b, res)
  {
    ghost var w := res + 1;
    ghost var all := Grid(b, res);
    grid := [];
    var i := 0;
    while i <= res
      invariant 0 <= i <= w
      invariant |grid| == i * w && |grid| <= |all|
      invariant forall k :: 0 <= k < |grid| ==> grid[k] == all[k]
    {
      var j := 0;
      while j <= res
        invariant 0 <= j <= w
        invariant |grid| == i * w + j && |grid| <= |all|
        invariant forall k :: 0 <= k < |grid| ==> grid[k] == all[k]
      {
        GridIndexing(b, res, i, j);
        grid := grid + [Cell(b, res, i, j)];
        j := j + 1;
      }
      assert i * w + w == (i + 1) * w;
      i := i + 1;
    }
  }

  // ---------------------------------------------------------------- bandwidth

  /** Silverman's rule of thumb, scaled by 111 km per degree: 1 with fewer than two
      points, otherwise 1.06 * avgStd * n^(-0.2) * 111 with avgStd the mean of the
      standard deviations of the latitudes and of the longitudes. */
  function OptimalBandwidth(m: Math, ps: seq<Point>): real {
    if |ps| < 2 then 1.0
    else
      var avgStd := (StdDev(m, Lats(ps)) + StdDev(m, Lngs(ps))) / 2.0;
      1.06 * avgStd * m.pow(|ps| as real, -0.2) * 111.0
  }

  /** The bandwidth is never negative, and it is 0 exactly when there are at least two
      points and they all share one position, so that both standard deviations vanish. */
  lemma OptimalBandwidthSign(m: Math, ps: seq<Point>)
    requires Sound(m)
    ensures OptimalBandwidth(m, ps) >= 0.0
    ensures OptimalBandwidth(m, ps) == 0.0 <==>
      |ps| >= 2 && forall i :: 0 <= i < |ps| ==> ps[i].lat == ps[0].lat && ps[i].lng == ps[0].lng
  {
    if |ps| >= 2 {
      var lats, lngs := Lats(ps), Lngs(ps);
      StdDevNonNegative(m, lats);
      StdDevNonNegative(m, lngs);
      ZeroStdDevIffConstant(m, lats);
      ZeroStdDevIffConstant(m, lngs);
      var avgStd := (StdDev(m, lats) + StdDev(m, lngs)) / 2.0;
      var p := m.pow(|ps| as real, -0.2);
      assert p > 0.0;
      var h := 1.06 * avgStd * p * 111.0;
      assert h == (1.06 * 111.0) * (avgStd * p);
      if avgStd > 0.0 {
        assert avgStd * p > 0.0;
      }
      if h == 0.0 {
        ProductZero(avgStd, p);
      }
    }
  }

  // ---------------------------------------------------------------- density

  /** `kernel === 'epanechnikov' ? epanechnikovKernel : gaussianKernel`, applied. */
  function KernelValue(m: Math, epanechnikov: bool, d: real, h: real): real
  {
    if epanechnikov then EpanechnikovKernel(d, h) else GaussianKernel(m, d, h)
  }

  /** `weights ? weights[idx] : 1`. */
  function WeightOf(weights: Option<seq<real>>, idx: nat): real
    requires weights.Some? ==> idx < |weights.value|
  {
    if weights.Some? then weights.value[idx] else 1.0
  }

  /** The density accumulated at `c` over the first `k` points. */
  function DensityUpTo(m: Math, ps: seq<Point>, weights: Option<seq<real>>, epanechnikov: bool,
                       h: real, c: GridCell, k: nat): real
    requires k <= |ps|
    requires weights.Some? ==> |weights.value| >= |ps|
  {
    if k == 0 then 0.0
    else
      var point := ps[k - 1];
      var distance := m.haversine(c.lat, c.lng, point.lat, point.lng);
      DensityUpTo(m, ps, weights, epanechnikov, h, c, k - 1)
        + WeightOf(weights, k - 1) * KernelValue(m, epanechnikov, distance, h)
  }

  /** With unit weights and a non-negative bandwidth every density is non-negative. */
  lemma {:induction false} DensityNonNegative(m: Math, ps: seq<Point>, epanechnikov: bool,
                                              h: real, c: GridCell, k: nat)
    requires Sound(m) && k <= |ps| && h >= 0.0
    ensures DensityUpTo(m, ps, None, epanechnikov, h, c, k) >= 0.0
  {
    if k > 0 {
      DensityNonNegative(m, ps, epanechnikov, h, c, k - 1);
      var point := ps[k - 1];
      var distance := m.haversine(c.lat, c.lng, point.lat, point.lng);
      if h > 0.0 {
        KernelsNonNegative(m, distance, h);
      }
    }
  }

  /** With unit weights and a negative bandwidth no density is positive. */
  lemma {:induction false} DensityNonPositive(m: Math, ps: seq<Point>, epanechnikov: bool,
                                              h: real, c: GridCell, k: nat)
    requires Sound(m) && k <= |ps| && h < 0.0
    ensures DensityUpTo(m, ps, None, epanechnikov, h, c, k) <= 0.0
  {
    if k > 0 {
      DensityNonPositive(m, ps, epanechnikov, h, c, k - 1);
      var point := ps[k - 1];
      var distance := m.haversine(c.lat, c.lng, point.lat, point.lng);
      KernelsNonPositive(m, distance, h);
    }
  }

  /** `maxDensity > 0 ? g.density / maxDensity : 0`. */
  function Normalized(d: real, maxDensity: real): (r: real)
    ensures maxDensity <= 0.0 ==> r == 0.0
    ensures maxDensity > 0.0 && 0.0 <= d <= maxDensity ==> 0.0 <= r <= 1.0
    ensures maxDensity > 0.0 && d == maxDensity ==> r == 1.0
  {
    if maxDensity > 0.0 then d / maxDensity else 0.0
  }

  // ---------------------------------------------------------------- performKDE

  /** The options of `performKDE`; `None` is an option left undefined. A `null` acts the
      same for the bandwidth, kernel, bounds and weights, but not for the resolution,
      which takes its default of 50 only when undefined. */
  datatype KdeOptions = KdeOptions(
    bandwidth: Option<real>,
    resolution: Option<nat>,
    kernel: Option<string>,
    bounds: Option<Bounds>,
    weights: Option<seq<real>>)

  datatype KdeResult = KdeResult(
    grid: seq<GridCell>,
    maxDensity: real,
    minDensity: real,
    bandwidth: real,
    bounds: Option<Bounds>,
    resolution: Option<nat>)

  /** What the caller must supply: a resolution of at least 1 and, when weights are
      given, one weight per point. */
  predicate ValidOptions(ps: seq<Point>, o: KdeOptions) {
    && (o.resolution.Some? ==> o.resolution.value > 0)
    && (o.weights.Some? ==> |o.weights.value| >= |ps|)
  }

  /** The bounding box of the points widened by 0.1 degree on every side. */
  function PaddedBounds(ps: seq<Point>): Bounds
    requires |ps| > 0
  {
    Bounds(MinOf(Lats(ps)) - 0.1, MaxOf(Lats(ps)) + 0.1, MinOf(Lngs(ps)) - 0.1, MaxOf(Lngs(ps)) + 0.1)
  }

  /** `bandwidth || calculateOptimalBandwidth(points)`: 0 falls through. */
  function ChooseBandwidth(m: Math, ps: seq<Point>, o: KdeOptions): real {
    if o.bandwidth.Some? && o.bandwidth.value != 0.0 then o.bandwidth.value else OptimalBandwidth(m, ps)
  }

  function Resolution(o: KdeOptions): nat {
    o.resolution.GetOr(50)
  }

  function UsesEpanechnikov(o: KdeOptions): bool {
    o.kernel == Some("epanechnikov")
  }

  /** The densities of the cells of the grid, in grid order. */
  function Densities(m: Math, ps: seq<Point>, o: KdeOptions, h: real, cells: seq<GridCell>): (ds: seq<real>)
    requires ValidOptions(ps, o)
    ensures |ds| == |cells|
  {
    seq(|cells|, k requires 0 <= k < |cells| =>
      DensityUpTo(m, ps, o.weights, UsesEpanechnikov(o), h, cells[k], |ps|))
  }

  /** The grid after both passes: each cell carries its density and its normalised density. */
  function Annotated(cells: seq<GridCell>, ds: seq<real>, maxDensity: real): (g: seq<GridCell>)
    requires |ds| == |cells|
    ensures |g| == |cells|
  {
    seq(|cells|, k requires 0 <= k < |cells| =>
      cells[k].(density := Some(ds[k]), normalizedDensity := Some(Normalized(ds[k], maxDensity))))
  }

  /** `bounds || { padded bounding box }`. */
  function KdeBounds(ps: seq<Point>, o: KdeOptions): Bounds
    requires ps != []
  {
    if o.bounds.Some? then o.bounds.value else PaddedBounds(ps)
  }

  function KdeCells(ps: seq<Point>, o: KdeOptions): (cells: seq<GridCell>)
    requires ps != [] && ValidOptions(ps, o)
    ensures |cells| == (Resolution(o) + 1) * (Resolution(o) + 1) > 0
  {
    MulMonotone(1, Resolution(o) + 1, Resolution(o) + 1);
    Grid(KdeBounds(ps, o), Resolution(o))
  }

  function KdeDensities(m: Math, ps: seq<Point>, o: KdeOptions): (ds: seq<real>)
    requires ps != [] && ValidOptions(ps, o)
    ensures |ds| == |KdeCells(ps, o)|
  {
    Densities(m, ps, o, ChooseBandwidth(m, ps, o), KdeCells(ps, o))
  }

  /** The result of `performKDE`. */
  function Kde(m: Math, ps: seq<Point>, o: KdeOptions): (r: KdeResult)
    requires ValidOptions(ps, o)
    ensures ps == [] ==> r == KdeResult([], 0.0, 0.0, 0.0, None, None)
    ensures ps != [] ==> |r.grid| == (Resolution(o) + 1) * (Resolution(o) + 1)
  {
    if ps == [] then KdeResult([], 0.0, 0.0, 0.0, None, None)
    else
      var ds := KdeDensities(m, ps, o);
      KdeResult(Annotated(KdeCells(ps, o), ds, MaxOf(ds)), MaxOf(ds), MinOf(ds),
                ChooseBandwidth(m, ps, o), Some(KdeBounds(ps, o)), Some(Resolution(o)))
  }

  /** The inner loop of `performKDE` for one grid point. */
  method DensityAt(m: Math, ps: seq<Point>, weights: Option<seq<real>>, epanechnikov: bool,
                   h: real, c: GridCell) returns (density: real)
    requires weights.Some? ==> |weights.value| >= |ps|
    ensures density == DensityUpTo(m, ps, weights, epanechnikov, h, c, |ps|)
  {
    density := 0.0;
    var idx := 0;
    while idx < |ps|
      invariant 0 <= idx <= |ps|
      invariant density == DensityUpTo(m, ps, weights, epanechnikov, h, c, idx)
    {
      var point := ps[idx];
      var distance := m.haversine(c.lat, c.lng, point.lat, point.lng);
      var weight := WeightOf(weights, idx);
      var k := KernelValue(m, epanechnikov, distance, h);
      density := density + weight * k;
      idx := idx + 1;
    }
  }

  /** The first pass of `performKDE`: every cell gets its density, in place. */
  method FillDensities(m: Math, ps: seq<Point>, o: KdeOptions, h: real, grid: array<GridCell>)
    requires ValidOptions(ps, o)
    modifies grid
    ensures var ds := Densities(m, ps, o, h, old(grid[..]));
      forall q :: 0 <= q < grid.Length ==> grid[q] == old(grid[q]).(density := Some(ds[q]))
  {
    ghost var ds := Densities(m, ps, o, h, grid[..]);
    var k := 0;
    while k < grid.Length
      invariant 0 <= k <= grid.Length
      invariant forall q :: 0 <= q < k ==> grid[q] == old(grid[q]).(density := Some(ds[q]))
      invariant forall q :: k <= q < grid.Length ==> grid[q] == old(grid[q])
    {
      var density := DensityAt(m, ps, o.weights, UsesEpanechnikov(o), h, grid[k]);
      grid[k] := grid[k].(density := Some(density));
      k := k + 1;
    }
  }

  /** The second pass of `performKDE`: every cell gets its density divided by the
      maximum density (or 0 when the maximum is not positive), in place. */
  method NormalizeGrid(grid: array<GridCell>, maxDensity: real)
    requires forall q :: 0 <= q < grid.Length ==> grid[q].density.Some?
    modifies grid
    ensures forall q :: 0 <= q < grid.Length ==>
      grid[q] == old(grid[q]).(normalizedDensity := Some(Normalized(old(grid[q]).density.value, maxDensity)))
  {
    var k := 0;
    while k < grid.Length
      invariant 0 <= k <= grid.Length
      invariant forall q :: 0 <= q < k ==>
        grid[q] == old(grid[q]).(normalizedDensity := Some(Normalized(old(grid[q]).density.value, maxDensity)))
      invariant forall q :: k <= q < grid.Length ==> grid[q] == old(grid[q])
    {
      var g := grid[k];
      var normalized := if maxDensity > 0.0 then g.density.value / maxDensity else 0.0;
      grid[k] := g.(normalizedDensity := Some(normalized));
      k := k + 1;
    }
  }

  /** The two passes of `performKDE` over a fresh grid: densities, then normalisation. */
  method AnnotateGrid(m: Math, ps: seq<Point>, o: KdeOptions, h: real, cells: seq<GridCell>)
    returns (grid: seq<GridCell>, maxDensity: real, minDensity: real)
    requires ValidOptions(ps, o) && |cells| > 0
    ensures var ds := Densities(m, ps, o, h, cells);
      && maxDensity == MaxOf(ds) && minDensity == MinOf(ds)
      && grid == Annotated(cells, ds, maxDensity)
  {
    var a := new GridCell[|cells|](q requires 0 <= q < |cells| => cells[q]);
    ghost var ds := Densities(m, ps, o, h, cells);
    FillDensities(m, ps, o, h, a);
    var densities := seq(a.Length, q requires 0 <= q < a.Length && a[q].density.Some? reads a => a[q].density.value);
    assert densities == ds;
    maxDensity, minDensity := MaxOf(densities), MinOf(densities);
    ghost var filled := a[..];
    NormalizeGrid(a, maxDensity);
    grid := a[..];
    PassesAnnotate(cells, ds, maxDensity, filled, grid);
  }

  /** Setting the densities and then the normalised densities yields `Annotated`. */
  lemma PassesAnnotate(cells: seq<GridCell>, ds: seq<real>, maxDensity: real,
                       filled: seq<GridCell>, grid: seq<GridCell>)
    requires |ds| == |cells| == |filled| == |grid|
    requires forall q :: 0 <= q < |filled| ==> filled[q] == cells[q].(density := Some(ds[q]))
    requires forall q :: 0 <= q < |grid| ==>
      grid[q] == filled[q].(normalizedDensity := Some(Normalized(filled[q].density.value, maxDensity)))
    ensures grid == Annotated(cells, ds, maxDensity)
  {
  }

  /** `performKDE`. */
  method PerformKde(m: Math, ps: seq<Point>, o: KdeOptions) returns (r: KdeResult)
    requires ValidOptions(ps, o)
    ensures r == Kde(m, ps, o)
  {
    if |ps| == 0 {
      return KdeResult([], 0.0, 0.0, 0.0, None, None);
    }
    var calcBounds := if o.bounds.Some? then o.bounds.value else PaddedBounds(ps);
    var h := if o.bandwidth.Some? && o.bandwidth.value != 0.0 then o.bandwidth.value else OptimalBandwidth(m, ps);
    var resolution := o.resolution.GetOr(50);
    var cells := GenerateGrid(calcBounds, resolution);
    assert cells == KdeCells(ps, o);
    var grid, maxDensity, minDensity := AnnotateGrid(m, ps, o, h, cells);
    r := KdeResult(grid, maxDensity, minDensity, h, Some(calcBounds), Some(resolution));
  }

  // ---------------------------------------------------------------- properties

  /** Normalising non-negative densities by their maximum puts every cell in [0, 1],
      and a positive maximum is reached by some cell with value exactly 1. */
  lemma NormalizedRange(cells: seq<GridCell>, ds: seq<real>)
    requires |ds| == |cells| > 0
    requires forall k :: 0 <= k < |ds| ==> ds[k] >= 0.0
    ensures var g := Annotated(cells, ds, MaxOf(ds));
      forall k :: 0 <= k < |g| ==> g[k].normalizedDensity.Some? && 0.0 <= g[k].normalizedDensity.value <= 1.0
    ensures var g := Annotated(cells, ds, MaxOf(ds));
      MaxOf(ds) > 0.0 ==> exists k :: 0 <= k < |g| && g[k].normalizedDensity == Some(1.0)
  {
    var mx := MaxOf(ds);
    var g := Annotated(cells, ds, mx);
    forall k | 0 <= k < |g| ensures g[k].normalizedDensity.Some? && 0.0 <= g[k].normalizedDensity.value <= 1.0 {
      assert 0.0 <= ds[k] <= mx;
    }
    if mx > 0.0 {
      var k :| 0 <= k < |ds| && ds[k] == mx;
      assert g[k].normalizedDensity == Some(1.0);
    }
  }

  /** With unit weights the densities of the grid are non-negative whenever the
      bandwidth is: left to Silverman's rule (never negative) or given as a
      non-negative number. */
  lemma DensitiesNonNegative(m: Math, ps: seq<Point>, o: KdeOptions, cells: seq<GridCell>)
    requires Sound(m) && ValidOptions(ps, o)
    requires o.weights.None?
    requires o.bandwidth.Some? ==> o.bandwidth.value >= 0.0
    ensures var ds := Densities(m, ps, o, ChooseBandwidth(m, ps, o), cells);
      forall k :: 0 <= k < |ds| ==> ds[k] >= 0.0
  {
    var h := ChooseBandwidth(m, ps, o);
    OptimalBandwidthSign(m, ps);
    var ds := Densities(m, ps, o, h, cells);
    forall k | 0 <= k < |ds| ensures ds[k] >= 0.0 {
      DensityNonNegative(m, ps, UsesEpanechnikov(o), h, cells[k], |ps|);
    }
  }

  /** With unit weights every normalised density of the result lies in [0, 1], whatever
      the bandwidth; when the maximum density is positive some cell reaches exactly 1.
      A negative bandwidth makes every density non-positive, so every cell normalises
      to 0. */
  lemma NormalizedInUnitInterval(m: Math, ps: seq<Point>, o: KdeOptions)
    requires Sound(m) && ValidOptions(ps, o) && ps != []
    requires o.weights.None?
    ensures var g := Kde(m, ps, o).grid;
      forall k :: 0 <= k < |g| ==> g[k].normalizedDensity.Some? && 0.0 <= g[k].normalizedDensity.value <= 1.0
    ensures var g := Kde(m, ps, o).grid;
      Kde(m, ps, o).maxDensity > 0.0 ==> exists k :: 0 <= k < |g| && g[k].normalizedDensity == Some(1.0)
  {
    var cells := KdeCells(ps, o);
    var h := ChooseBandwidth(m, ps, o);
    var ds := KdeDensities(m, ps, o);
    if h >= 0.0 {
      OptimalBandwidthSign(m, ps);
      DensitiesNonNegative(m, ps, o, cells);
      NormalizedRange(cells, ds);
    } else {
      forall k | 0 <= k < |ds| ensures ds[k] <= 0.0 {
        DensityNonPositive(m, ps, UsesEpanechnikov(o), h, cells[k], |ps|);
      }
      var mx := MaxOf(ds);
      assert mx <= 0.0;
      NormalizedZeroWithoutPositiveMax(m, ps, o);
    }
  }

  /** When no density is positive every normalised density is 0. */
  lemma NormalizedZeroWithoutPositiveMax(m: Math, ps: seq<Point>, o: KdeOptions)
    requires ValidOptions(ps, o)
    requires Kde(m, ps, o).maxDensity <= 0.0
    ensures var g := Kde(m, ps, o).grid;
      forall k :: 0 <= k < |g| ==> g[k].normalizedDensity == Some(0.0)
  {
  }
}
