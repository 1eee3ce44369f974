/** `calculateAdaptiveThreshold` (src/utils/spatialAnalysis.js): 2.5 times the average
    nearest-neighbour distance, capped by a quarter of the study-area diagonal and by
    15 km, with a floor of 1 km; 10 km when there are fewer than two points. */
module Threshold {
  import opened Wrappers
  import opened Numerics
  import opened Points
  import opened Lists

  /** The running minimum `minDist` of the inner loop for point `i` after it has looked
      at the points before `k`. `None` stands for the initial `Infinity`: no other point
      has been seen yet. */
  function NearestUpTo(m: Math, ps: seq<Point>, i: nat, k: nat): (r: Option<real>)
    requires i < |ps| && k <= |ps|
    ensures r.None? <==> k == 0 || (k == 1 && i == 0)
    ensures r.Some? ==> forall j :: 0 <= j < k && j != i ==> r.value <= Distance(m, ps[i], ps[j])
    ensures r.Some? ==> exists j :: 0 <= j < k && j != i && r.value == Distance(m, ps[i], ps[j])
  {
    if k == 0 then None
    else
      var prev := NearestUpTo(m, ps, i, k - 1);
      if k - 1 == i then prev
      else
        var d := Distance(m, ps[i], ps[k - 1]);
        if prev.None? || d < prev.value then
          assert forall j :: 0 <= j < k - 1 && j != i ==> d <= Distance(m, ps[i], ps[j]);
          Some(d)
        else
          prev
  }

  /** The distance from point `i` to its nearest other point (`None`: there is none). */
  function Nearest(m: Math, ps: seq<Point>, i: nat): Option<real>
    requires i < |ps|
  {
    NearestUpTo(m, ps, i, |ps|)
  }

  /** `totalNearestDist` after the first `k` points: a point without a neighbour adds
      nothing. */
  function TotalNearest(m: Math, ps: seq<Point>, k: nat): real
    requires k <= |ps|
  {
    if k == 0 then 0.0
    else TotalNearest(m, ps, k - 1) + Nearest(m, ps, k - 1).GetOr(0.0)
  }

  function AverageNearest(m: Math, ps: seq<Point>): real
    requires |ps| > 0
  {
    TotalNearest(m, ps, |ps|) / (|ps| as real)
  }

  /** The distance between the south-west and north-east corners of the bounding box. */
  function Diagonal(m: Math, ps: seq<Point>): real
    requires |ps| > 0
  {
    m.haversine(MinOf(Lats(ps)), MinOf(Lngs(ps)), MaxOf(Lats(ps)), MaxOf(Lngs(ps)))
  }

  /** The threshold, in kilometres. */
  function AdaptiveThreshold(m: Math, ps: seq<Point>): (t: real)
    ensures |ps| < 2 ==> t == 10.0
    ensures |ps| >= 2 ==> 1.0 <= t <= 15.0
    ensures |ps| >= 2 ==> t <= Max(AverageNearest(m, ps) * 2.5, 1.0)
    ensures |ps| >= 2 ==> t <= Max(Diagonal(m, ps) / 4.0, 1.0)
    ensures |ps| >= 2 ==> t >= 15.0 || t >= AverageNearest(m, ps) * 2.5 || t >= Diagonal(m, ps) / 4.0
    ensures |ps| >= 2 && t > 1.0 ==>
      t == 15.0 || t == AverageNearest(m, ps) * 2.5 || t == Diagonal(m, ps) / 4.0
  {
    if |ps| < 2 then 10.0
    else
      var threshold := Min(Min(AverageNearest(m, ps) * 2.5, Diagonal(m, ps) / 4.0), 15.0);
      Max(threshold, 1.0)
  }

  /** With two or more points every point has a nearest neighbour, and with a sound
      distance the average nearest-neighbour distance is not negative. */
  lemma {:induction false} NearestNeighbours(m: Math, ps: seq<Point>, k: nat)
    requires Sound(m) && |ps| >= 2 && k <= |ps|
    ensures forall i :: 0 <= i < |ps| ==> Nearest(m, ps, i).Some?
    ensures TotalNearest(m, ps, k) >= 0.0
  {
    if k > 0 {
      NearestNeighbours(m, ps, k - 1);
      var r := Nearest(m, ps, k - 1);
      var j :| 0 <= j < |ps| && j != k - 1 && r.value == Distance(m, ps[k - 1], ps[j]);
    }
  }

  /** The inner loop of `calculateAdaptiveThreshold`, for point `i`. */
  method NearestDistance(m: Math, ps: seq<Point>, i: nat) returns (minDist: Option<real>)
    requires i < |ps|
    ensures minDist == Nearest(m, ps, i)
  {
    var n := |ps|;
    minDist := None;
    var j := 0;
    while j < n
      invariant 0 <= j <= n
      invariant minDist == NearestUpTo(m, ps, i, j)
    {
      if i != j {
        var dist := m.haversine(ps[i].lat, ps[i].lng, ps[j].lat, ps[j].lng);
        if minDist.None? || dist < minDist.value {
          minDist := Some(dist);
        }
      }
      j := j + 1;
    }
  }

  /** The outer loop of `calculateAdaptiveThreshold`: the sum of the nearest-neighbour
      distances. */
  method TotalNearestDistance(m: Math, ps: seq<Point>) returns (totalNearestDist: real)
    ensures totalNearestDist == TotalNearest(m, ps, |ps|)
  {
    var n := |ps|;
    totalNearestDist := 0.0;
    var i := 0;
    while i < n
      invariant 0 <= i <= n
      invariant totalNearestDist == TotalNearest(m, ps, i)
    {
      var minDist := NearestDistance(m, ps, i);
      if minDist.Some? {
        totalNearestDist := totalNearestDist + minDist.value;
      }
      i := i + 1;
    }
  }

  /** `calculateAdaptiveThreshold`. */
  method CalculateAdaptiveThreshold(m: Math, ps: seq<Point>) returns (t: real)
    ensures t == AdaptiveThreshold(m, ps)
  {
    var n := |ps|;
    if n < 2 {
      return 10.0;
    }
    var lats, lngs := Lats(ps), Lngs(ps);
    var minLat, maxLat := MinOf(lats), MaxOf(lats);
    var minLng, maxLng := MinOf(lngs), MaxOf(lngs);
    var diagonal := m.haversine(minLat, minLng, maxLat, maxLng);
    var totalNearestDist := TotalNearestDistance(m, ps);
    var avgNearestNeighbor := totalNearestDist / (n as real);
    var threshold := Min(Min(avgNearestNeighbor * 2.5, diagonal / 4.0), 15.0);
    t := Max(threshold, 1.0);
  }
}
