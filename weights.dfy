/** Spatial weight matrices over a list of points (src/utils/spatialAnalysis.js): the
    binary matrix built inside the Gi* analysis, `calculateSpatialWeights` and
    `calculateInverseDistanceWeights`, each as a specification function and as the
    nested loop that fills it, plus the row sums the Gi* statistic takes of a row. */
module Weights {
  import opened Numerics
  import opened Points

  /** `w` is an n-by-n matrix. */
  predicate IsSquare(w: seq<seq<real>>, n: nat) {
    |w| == n && forall i :: 0 <= i < n ==> |w[i]| == n
  }

  /** Every entry of `row` is 0 or 1. */
  predicate BinaryRow(row: seq<real>) {
    forall j :: 0 <= j < |row| ==> row[j] == 0.0 || row[j] == 1.0
  }

  // ---------------------------------------------------------------- Gi* matrix

  /** The Gi* weight: 1 within the threshold, 0 beyond it. There is no special case for
      the diagonal: the self-weight comes out of the same test, at distance 0. */
  function GiEntry(m: Math, ps: seq<Point>, t: real, i: nat, j: nat): real
    requires i < |ps| && j < |ps|
  {
    if Distance(m, ps[i], ps[j]) <= t then 1.0 else 0.0
  }

  function GiRow(m: Math, ps: seq<Point>, t: real, i: nat): (row: seq<real>)
    requires i < |ps|
    ensures |row| == |ps| && BinaryRow(row)
    ensures forall j :: 0 <= j < |ps| ==> (row[j] == 1.0 <==> Distance(m, ps[i], ps[j]) <= t)
  {
    seq(|ps|, j requires 0 <= j < |ps| => GiEntry(m, ps, t, i, j))
  }

  /** The n-by-n binary matrix of the Gi* analysis. */
  function GiWeights(m: Math, ps: seq<Point>, t: real): (w: seq<seq<real>>)
    ensures IsSquare(w, |ps|)
    ensures forall i :: 0 <= i < |ps| ==> BinaryRow(w[i])
  {
    seq(|ps|, i requires 0 <= i < |ps| => GiRow(m, ps, t, i))
  }

  /** The nested loop of the Gi* analysis that fills `weights[i][j]`. */
  method BuildGiWeights(m: Math, ps: seq<Point>, t: real) returns (w: seq<seq<real>>)
    ensures w == GiWeights(m, ps, t)
  {
    var n := |ps|;
    w := [];
    var i := 0;
    while i < n
      invariant 0 <= i <= n
      invariant |w| == i && forall k :: 0 <= k < i ==> w[k] == GiRow(m, ps, t, k)
    {
      var row: seq<real> := [];
      var j := 0;
      while j < n
        invariant 0 <= j <= n
        invariant |row| == j && forall k :: 0 <= k < j ==> row[k] == GiEntry(m, ps, t, i, k)
      {
        var distance := m.haversine(ps[i].lat, ps[i].lng, ps[j].lat, ps[j].lng);
        if distance <= t {
          row := row + [1.0];
        } else {
          row := row + [0.0];
        }
        j := j + 1;
      }
      w := w + [row];
      i := i + 1;
    }
  }

  /** With a non-negative threshold every point is its own neighbour. */
  lemma GiDiagonal(m: Math, ps: seq<Point>, t: real, i: nat)
    requires Sound(m) && t >= 0.0 && i < |ps|
    ensures GiWeights(m, ps, t)[i][i] == 1.0
  {
    assert Distance(m, ps[i], ps[i]) == 0.0;
  }

  /** With a negative threshold no entry, not even the diagonal, is 1. */
  lemma GiNegativeThresholdEmpty(m: Math, ps: seq<Point>, t: real, i: nat, j: nat)
    requires Sound(m) && t < 0.0 && i < |ps| && j < |ps|
    ensures GiWeights(m, ps, t)[i][j] == 0.0
  {
    assert Distance(m, ps[i], ps[j]) >= 0.0;
  }

  /** The matrix is symmetric. */
  lemma GiSymmetric(m: Math, ps: seq<Point>, t: real, i: nat, j: nat)
    requires Sound(m) && i < |ps| && j < |ps|
    ensures GiWeights(m, ps, t)[i][j] == GiWeights(m, ps, t)[j][i]
  {
    assert Distance(m, ps[i], ps[j]) == Distance(m, ps[j], ps[i]);
  }

  // ---------------------------------------------------------------- calculateSpatialWeights

  /** The weight of `calculateSpatialWeights`: the diagonal is set to 1 explicitly. */
  function SpatialEntry(m: Math, ps: seq<Point>, t: real, i: nat, j: nat): real
    requires i < |ps| && j < |ps|
  {
    if i == j then 1.0
    else if Distance(m, ps[i], ps[j]) <= t then 1.0 else 0.0
  }

  function SpatialRow(m: Math, ps: seq<Point>, t: real, i: nat): (row: seq<real>)
    requires i < |ps|
    ensures |row| == |ps| && BinaryRow(row) && row[i] == 1.0
  {
    seq(|ps|, j requires 0 <= j < |ps| => SpatialEntry(m, ps, t, i, j))
  }

  function SpatialWeights(m: Math, ps: seq<Point>, t: real): (w: seq<seq<real>>)
    ensures IsSquare(w, |ps|)
    ensures forall i :: 0 <= i < |ps| ==> BinaryRow(w[i]) && w[i][i] == 1.0
  {
    seq(|ps|, i requires 0 <= i < |ps| => SpatialRow(m, ps, t, i))
  }

  method CalculateSpatialWeights(m: Math, ps: seq<Point>, t: real) returns (w: seq<seq<real>>)
    ensures w == SpatialWeights(m, ps, t)
  {
    var n := |ps|;
    w := [];
    var i := 0;
    while i < n
      invariant 0 <= i <= n
      invariant |w| == i && forall k :: 0 <= k < i ==> w[k] == SpatialRow(m, ps, t, k)
    {
      var row: seq<real> := [];
      var j := 0;
      while j < n
        invariant 0 <= j <= n
        invariant |row| == j && forall k :: 0 <= k < j ==> row[k] == SpatialEntry(m, ps, t, i, k)
      {
        if i == j {
          row := row + [1.0];
        } else {
          var distance := m.haversine(ps[i].lat, ps[i].lng, ps[j].lat, ps[j].lng);
          row := row + [if distance <= t then 1.0 else 0.0];
        }
        j := j + 1;
      }
      w := w + [row];
      i := i + 1;
    }
  }

  /** With a non-negative threshold the explicit diagonal changes nothing: the two
      binary matrices coincide. With a negative one they differ exactly on the diagonal. */
  lemma SpatialMatchesGi(m: Math, ps: seq<Point>, t: real)
    requires Sound(m)
    ensures t >= 0.0 ==> SpatialWeights(m, ps, t) == GiWeights(m, ps, t)
    ensures t < 0.0 ==> forall i, j :: 0 <= i < |ps| && 0 <= j < |ps| ==>
      (SpatialWeights(m, ps, t)[i][j] == GiWeights(m, ps, t)[i][j] <==> i != j)
  {
    var s, g := SpatialWeights(m, ps, t), GiWeights(m, ps, t);
    if t >= 0.0 {
      forall i | 0 <= i < |ps| ensures s[i] == g[i] {
        forall j | 0 <= j < |ps| ensures s[i][j] == g[i][j] {
          if i == j { GiDiagonal(m, ps, t, i); }
        }
      }
    } else {
      forall i, j | 0 <= i < |ps| && 0 <= j < |ps|
        ensures s[i][j] == g[i][j] <==> i != j
      {
        GiNegativeThresholdEmpty(m, ps, t, i, j);
      }
    }
  }

  // ---------------------------------------------------------------- inverse distance

  /** The weight of `calculateInverseDistanceWeights`: 1 on the diagonal,
      1 / distance^power for a distinct point within the threshold (inclusive) and not
      at distance 0, and 0 otherwise. */
  function InverseEntry(m: Math, ps: seq<Point>, t: real, power: real, i: nat, j: nat): real
    requires Sound(m) && i < |ps| && j < |ps|
  {
    if i == j then 1.0
    else
      var d := Distance(m, ps[i], ps[j]);
      if d <= t && d > 0.0 then
        assert m.pow(d, power) > 0.0;
        1.0 / m.pow(d, power)
      else 0.0
  }

  function InverseRow(m: Math, ps: seq<Point>, t: real, power: real, i: nat): (row: seq<real>)
    requires Sound(m) && i < |ps|
    ensures |row| == |ps|
  {
    seq(|ps|, j requires 0 <= j < |ps| => InverseEntry(m, ps, t, power, i, j))
  }

  function InverseDistanceWeights(m: Math, ps: seq<Point>, t: real, power: real): (w: seq<seq<real>>)
    requires Sound(m)
    ensures IsSquare(w, |ps|)
  {
    seq(|ps|, i requires 0 <= i < |ps| => InverseRow(m, ps, t, power, i))
  }

  method CalculateInverseDistanceWeights(m: Math, ps: seq<Point>, t: real, power: real)
    returns (w: seq<seq<real>>)
    requires Sound(m)
    ensures w == InverseDistanceWeights(m, ps, t, power)
  {
    var n := |ps|;
    w := [];
    var i := 0;
    while i < n
      invariant 0 <= i <= n
      invariant |w| == i && forall k :: 0 <= k < i ==> w[k] == InverseRow(m, ps, t, power, k)
    {
      var row: seq<real> := [];
      var j := 0;
      while j < n
        invariant 0 <= j <= n
        invariant |row| == j && forall k :: 0 <= k < j ==> row[k] == InverseEntry(m, ps, t, power, i, k)
      {
        if i == j {
          row := row + [1.0];
        } else {
          var distance := m.haversine(ps[i].lat, ps[i].lng, ps[j].lat, ps[j].lng);
          if distance <= t && distance > 0.0 {
            row := row + [1.0 / m.pow(distance, power)];
          } else {
            row := row + [0.0];
          }
        }
        j := j + 1;
      }
      w := w + [row];
      i := i + 1;
    }
  }

  /** Inverse-distance weights are positive exactly on the diagonal and for distinct
      points at a distance in (0, threshold]; they are symmetric. */
  lemma InverseWeightsSupport(m: Math, ps: seq<Point>, t: real, power: real, i: nat, j: nat)
    requires Sound(m) && i < |ps| && j < |ps|
    ensures InverseDistanceWeights(m, ps, t, power)[i][j] >= 0.0
    ensures InverseDistanceWeights(m, ps, t, power)[i][j] > 0.0 <==>
      i == j || 0.0 < Distance(m, ps[i], ps[j]) <= t
    ensures InverseDistanceWeights(m, ps, t, power)[i][j] == InverseDistanceWeights(m, ps, t, power)[j][i]
  {
    var d := Distance(m, ps[i], ps[j]);
    assert d == Distance(m, ps[j], ps[i]);
    if i != j && d <= t && d > 0.0 {
      assert m.pow(d, power) > 0.0;
      assert 1.0 / m.pow(d, power) > 0.0;
    }
  }

  // ---------------------------------------------------------------- row sums

  /** `row.reduce((a, b) => a + b * b, 0)`. */
  function SumOfSquares(row: seq<real>): real {
    if row == [] then 0.0 else SumOfSquares(row[..|row| - 1]) + row[|row| - 1] * row[|row| - 1]
  }

  /** `row.reduce((sum, w, j) => sum + w * xs[j], 0)`. */
  function WeightedSum(row: seq<real>, xs: seq<real>): real
    requires |row| == |xs|
  {
    if row == [] then 0.0
    else WeightedSum(row[..|row| - 1], xs[..|xs| - 1]) + row[|row| - 1] * xs[|xs| - 1]
  }

  /** On a binary row the sum of squares equals the sum, which lies between 0 and the
      length, and is at least 1 when some entry is 1. */
  lemma {:induction false} BinaryRowSums(row: seq<real>)
    requires BinaryRow(row)
    ensures SumOfSquares(row) == Sum(row)
    ensures 0.0 <= Sum(row) <= |row| as real
    ensures (exists k :: 0 <= k < |row| && row[k] == 1.0) ==> Sum(row) >= 1.0
  {
    if row != [] {
      var init := row[..|row| - 1];
      assert forall k :: 0 <= k < |init| ==> init[k] == row[k];
      BinaryRowSums(init);
      var last := row[|row| - 1];
      assert last * last == last by { assert last == 0.0 || last == 1.0; }
      if exists k :: 0 <= k < |row| && row[k] == 1.0 {
        var k :| 0 <= k < |row| && row[k] == 1.0;
        if k < |init| { assert init[k] == 1.0; }
      }
    }
  }

  /** A row of ones sums to its length, and so does the sum of its squares. */
  lemma {:induction false} AllOnesSums(row: seq<real>)
    requires forall j :: 0 <= j < |row| ==> row[j] == 1.0
    ensures Sum(row) == |row| as real
    ensures SumOfSquares(row) == |row| as real
  {
    if row != [] {
      var init := row[..|row| - 1];
      assert forall k :: 0 <= k < |init| ==> init[k] == row[k];
      AllOnesSums(init);
    }
  }

  /** With every weight 1 the weighted sum is the plain sum of the values. */
  lemma {:induction false} AllOnesWeightedSum(row: seq<real>, xs: seq<real>)
    requires |row| == |xs|
    requires forall j :: 0 <= j < |row| ==> row[j] == 1.0
    ensures WeightedSum(row, xs) == Sum(xs)
  {
    if row != [] {
      var init := row[..|row| - 1];
      assert forall k :: 0 <= k < |init| ==> init[k] == row[k];
      AllOnesWeightedSum(init, xs[..|xs| - 1]);
    }
  }
}
