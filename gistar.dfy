/** `performGetisOrdGiStar` (src/utils/spatialAnalysis.js): the Getis-Ord Gi* hot-spot
    statistic of every point, its classification and the summary of the run. */
module GiStar {
  import opened Wrappers
  import opened Numerics
  import opened Points
  import opened Lists
  import opened Classification
  import opened Weights
  import opened Threshold

  /** The options the function reads. `weightType` is destructured but never used; the
      attribute field is always `value` in this model. */
  datatype GiOptions = GiOptions(
    distanceThreshold: Option<real>,
    weightType: string,
    fixedDistanceKm: Option<real>)

  /** One entry of `results`: the input point followed by the fields the analysis adds.
      A field the branch that produced the entry does not set is `None`. */
  datatype GiPoint = GiPoint(
    point: Point,
    giStar: real,
    zScore: real,
    pValue: real,
    classification: Tier,
    confidenceLevel: Option<nat>,
    isHotspot: Option<bool>,
    isColdspot: Option<bool>,
    neighborsCount: Option<real>,
    sumWij: Option<real>,
    sumWijXj: Option<real>)

  /** The summary fields beyond the seven counters; absent for fewer than three points. */
  datatype GiTotals = GiTotals(
    totalHotspots: nat,
    totalColdspots: nat,
    distanceThreshold: real,
    globalMean: real,
    globalStdDev: real)

  datatype GiSummary = GiSummary(counts: TierCounts, totals: Option<GiTotals>)

  datatype GiOutput = GiOutput(results: seq<GiPoint>, summary: GiSummary, weights: Option<seq<seq<real>>>)

  /** The attribute value of a point: a number that is not NaN is kept, anything else
      counts as 1. */
  function Coerce(v: Scalar): (x: real)
    ensures v.Num? ==> x == v.x
    ensures !v.Num? ==> x == 1.0
  {
    if v.Num? then v.x else 1.0
  }

  function Values(ps: seq<Point>): (xs: seq<real>)
    ensures |xs| == |ps|
    ensures forall i :: 0 <= i < |ps| ==> xs[i] == Coerce(ps[i].value)
  {
    seq(|ps|, i requires 0 <= i < |ps| => Coerce(ps[i].value))
  }

  /** `fixedDistanceKm || distanceThreshold || calculateAdaptiveThreshold(points)`: a
      falsy option (absent or 0) falls through, so the threshold is never 0. */
  function ChooseThreshold(m: Math, ps: seq<Point>, o: GiOptions): (t: real)
    ensures t != 0.0
    ensures !Falsy(o.fixedDistanceKm) ==> t == o.fixedDistanceKm.value
    ensures Falsy(o.fixedDistanceKm) && !Falsy(o.distanceThreshold) ==> t == o.distanceThreshold.value
    ensures Falsy(o.fixedDistanceKm) && Falsy(o.distanceThreshold) ==> t == AdaptiveThreshold(m, ps)
  {
    if !Falsy(o.fixedDistanceKm) then o.fixedDistanceKm.value
    else if !Falsy(o.distanceThreshold) then o.distanceThreshold.value
    else AdaptiveThreshold(m, ps)
  }

  /** An absent or zero option, which `||` passes over. */
  predicate Falsy(x: Option<real>) {
    x.None? || x.value == 0.0
  }

  /** The `(n * Σ wij² - (Σ wij)²) / (n - 1)` under the square root. */
  function VarianceComponent(row: seq<real>): real
    requires |row| >= 2
  {
    var n := |row| as real;
    (n * SumOfSquares(row) - Sum(row) * Sum(row)) / (n - 1.0)
  }

  /** The z-score of one point from its weight row; 0 when the denominator is not
      positive. */
  function ZScore(m: Math, row: seq<real>, values: seq<real>, xBar: real, s: real): real
    requires |row| == |values| && |row| >= 2
  {
    Quotient(WeightedSum(row, values) - xBar * Sum(row), s, m.sqrt(Max(0.0, VarianceComponent(row))))
  }

  /** `numerator / (s * root)` when that denominator is positive, otherwise 0. */
  function Quotient(numerator: real, s: real, root: real): real {
    var denominator := s * root;
    if denominator > 0.0 then numerator / denominator else 0.0
  }

  /** The result record of one point in the main branch. */
  function GiRecord(m: Math, p: Point, row: seq<real>, values: seq<real>, xBar: real, s: real): GiPoint
    requires |row| == |values| && |row| >= 2
  {
    var z := ZScore(m, row, values, xBar, s);
    var tier := Classify(z);
    GiPoint(p, z, z, ZScoreToPValue(m, z), tier, Some(Confidence(tier)),
            Some(IsHotspot(z)), Some(IsColdspot(z)),
            Some(Sum(row) - 1.0), Some(Sum(row)), Some(WeightedSum(row, values)))
  }

  /** The record of a point when there are fewer than three points. */
  function SmallRecord(p: Point): GiPoint {
    GiPoint(p, 0.0, 0.0, 1.0, NotSignificant, None, None, None, None, None, None)
  }

  /** The record of a point when every attribute value is the same. */
  function FlatRecord(p: Point): GiPoint {
    GiPoint(p, 0.0, 0.0, 1.0, NotSignificant, Some(0), Some(false), Some(false), Some(0.0), None, None)
  }

  function ZScores(rs: seq<GiPoint>): (zs: seq<real>)
    ensures |zs| == |rs|
    ensures forall i :: 0 <= i < |rs| ==> zs[i] == rs[i].zScore
  {
    seq(|rs|, i requires 0 <= i < |rs| => rs[i].zScore)
  }

  function AllNotSignificant(n: nat): TierCounts {
    TierCounts(0, 0, 0, 0, 0, 0, n)
  }

  /** The main branch: weights, one record per point, and the summary over them. */
  function GiMain(m: Math, ps: seq<Point>, o: GiOptions): GiOutput
    requires |ps| >= 3
  {
    var values := Values(ps);
    var xBar := Mean(values);
    var s := StdDev(m, values);
    var t := ChooseThreshold(m, ps, o);
    var w := GiWeights(m, ps, t);
    var results := seq(|ps|, i requires 0 <= i < |ps| => GiRecord(m, ps[i], w[i], values, xBar, s));
    var zs := ZScores(results);
    GiOutput(results,
             GiSummary(Tally(zs), Some(GiTotals(Count(zs, IsHotspot), Count(zs, IsColdspot), t, xBar, s))),
             Some(w))
  }

  /** `performGetisOrdGiStar` as a function of its inputs. */
  function GiStar(m: Math, ps: seq<Point>, o: GiOptions): (r: GiOutput)
    ensures |r.results| == |ps|
    ensures forall i :: 0 <= i < |ps| ==> r.results[i].point == ps[i]
  {
    if |ps| < 3 then
      GiOutput(seq(|ps|, i requires 0 <= i < |ps| => SmallRecord(ps[i])),
               GiSummary(AllNotSignificant(|ps|), None), None)
    else
      var values := Values(ps);
      var s := StdDev(m, values);
      if s == 0.0 then
        GiOutput(seq(|ps|, i requires 0 <= i < |ps| => FlatRecord(ps[i])),
                 GiSummary(AllNotSignificant(|ps|), Some(GiTotals(0, 0, 0.0, Mean(values), s))), None)
      else
        GiMain(m, ps, o)
  }

  /** `performGetisOrdGiStar`: the weight loops, then the per-point records and the
      summary. */
  method PerformGetisOrdGiStar(m: Math, ps: seq<Point>, o: GiOptions) returns (out: GiOutput)
    ensures out == GiStar(m, ps, o)
  {
    var n := |ps|;
    if n < 3 {
      var results := seq(n, i requires 0 <= i < n => SmallRecord(ps[i]));
      return GiOutput(results, GiSummary(AllNotSignificant(n), None), None);
    }
    var values := Values(ps);
    var xBar := Mean(values);
    var s := StdDev(m, values);
    if s == 0.0 {
      var results := seq(n, i requires 0 <= i < n => FlatRecord(ps[i]));
      return GiOutput(results, GiSummary(AllNotSignificant(n), Some(GiTotals(0, 0, 0.0, xBar, s))), None);
    }
    var threshold: real;
    if !Falsy(o.fixedDistanceKm) {
      threshold := o.fixedDistanceKm.value;
    } else if !Falsy(o.distanceThreshold) {
      threshold := o.distanceThreshold.value;
    } else {
      threshold := CalculateAdaptiveThreshold(m, ps);
    }
    var weights := BuildGiWeights(m, ps, threshold);
    var results := seq(n, i requires 0 <= i < n => GiRecord(m, ps[i], weights[i], values, xBar, s));
    var zs := ZScores(results);
    var summary := GiSummary(Tally(zs), Some(GiTotals(Count(zs, IsHotspot), Count(zs, IsColdspot), threshold, xBar, s)));
    out := GiOutput(results, summary, Some(weights));
  }

  // ---------------------------------------------------------------- properties

  /** The sign of a z-score is the sign of its numerator `Σ wij xj - x̄ Σ wij`; once the
      spread and the variance component are positive the two agree both ways; a
      variance component that is not positive gives a z-score of 0. */
  lemma ZScoreSign(m: Math, row: seq<real>, values: seq<real>, xBar: real, s: real)
    requires Sound(m) && |row| == |values| && |row| >= 2 && s >= 0.0
    ensures ZScore(m, row, values, xBar, s) > 0.0 ==> WeightedSum(row, values) > xBar * Sum(row)
    ensures ZScore(m, row, values, xBar, s) < 0.0 ==> WeightedSum(row, values) < xBar * Sum(row)
    ensures VarianceComponent(row) <= 0.0 ==> ZScore(m, row, values, xBar, s) == 0.0
    ensures s > 0.0 && VarianceComponent(row) > 0.0 && WeightedSum(row, values) > xBar * Sum(row) ==>
      ZScore(m, row, values, xBar, s) > 0.0
  {
    var vc := VarianceComponent(row);
    var root := m.sqrt(Max(0.0, vc));
    assert vc <= 0.0 ==> root == 0.0;
    assert vc > 0.0 ==> root > 0.0;
    SignOfQuotient(ZScore(m, row, values, xBar, s), WeightedSum(row, values), xBar * Sum(row), s, root, vc);
  }

  /** The sign facts of `ZScoreSign` over plain numbers: `z` is the guarded quotient of
      `local - expected` by `s * root`, and `root` is positive exactly when `vc` is. */
  lemma SignOfQuotient(z: real, local: real, expected: real, s: real, root: real, vc: real)
    requires z == Quotient(local - expected, s, root)
    requires s >= 0.0 && root >= 0.0
    requires vc <= 0.0 ==> root == 0.0
    requires vc > 0.0 ==> root > 0.0
    ensures z > 0.0 ==> local > expected
    ensures z < 0.0 ==> local < expected
    ensures vc <= 0.0 ==> z == 0.0
    ensures s > 0.0 && vc > 0.0 && local > expected ==> z > 0.0
  {
    QuotientSign(local - expected, s, root);
  }

  lemma QuotientSign(numerator: real, s: real, root: real)
    requires s >= 0.0 && root >= 0.0
    ensures Quotient(numerator, s, root) > 0.0 ==> numerator > 0.0
    ensures Quotient(numerator, s, root) < 0.0 ==> numerator < 0.0
    ensures root == 0.0 ==> Quotient(numerator, s, root) == 0.0
    ensures s > 0.0 && root > 0.0 ==> (Quotient(numerator, s, root) > 0.0 <==> numerator > 0.0)
  {
    var denominator := s * root;
    if denominator > 0.0 {
      DivisionSign(numerator, denominator);
    }
    if s > 0.0 && root > 0.0 {
      assert denominator > 0.0;
    }
  }

  lemma DivisionSign(a: real, b: real)
    requires b > 0.0
    ensures a / b > 0.0 <==> a > 0.0
    ensures a / b < 0.0 <==> a < 0.0
  {
  }

  /** Fewer than three points: every record is neutral with z = 0 and p = 1, everything
      is counted as not significant, and neither totals nor weights are reported. */
  lemma SmallSampleGuard(m: Math, ps: seq<Point>, o: GiOptions)
    requires |ps| < 3
    ensures forall i :: 0 <= i < |ps| ==>
      var r := GiStar(m, ps, o).results[i];
      r.zScore == 0.0 && r.giStar == 0.0 && r.pValue == 1.0 && r.classification == NotSignificant &&
      r.confidenceLevel.None? && r.isHotspot.None? && r.isColdspot.None? && r.neighborsCount.None? &&
      r.sumWij.None? && r.sumWijXj.None?
    ensures GiStar(m, ps, o).summary == GiSummary(TierCounts(0, 0, 0, 0, 0, 0, |ps|), None)
    ensures GiStar(m, ps, o).weights.None?
  {
  }

  /** From three points on, the zero-variance branch is taken exactly when every
      attribute value coerces to the same number; it reports that number as the mean, a
      threshold of 0, and neutral records with no neighbours and no flags. */
  lemma ZeroVarianceGuard(m: Math, ps: seq<Point>, o: GiOptions)
    requires Sound(m) && |ps| >= 3
    ensures GiStar(m, ps, o).weights.None? <==>
      forall i :: 0 <= i < |ps| ==> Coerce(ps[i].value) == Coerce(ps[0].value)
    ensures (forall i :: 0 <= i < |ps| ==> Coerce(ps[i].value) == Coerce(ps[0].value)) ==>
      GiStar(m, ps, o).summary ==
        GiSummary(TierCounts(0, 0, 0, 0, 0, 0, |ps|), Some(GiTotals(0, 0, 0.0, Coerce(ps[0].value), 0.0)))
    ensures (forall i :: 0 <= i < |ps| ==> Coerce(ps[i].value) == Coerce(ps[0].value)) ==>
      forall i :: 0 <= i < |ps| ==>
        var r := GiStar(m, ps, o).results[i];
        r.zScore == 0.0 && r.pValue == 1.0 && r.classification == NotSignificant &&
        r.confidenceLevel == Some(0) && r.isHotspot == Some(false) && r.isColdspot == Some(false) &&
        r.neighborsCount == Some(0.0)
  {
    var values := Values(ps);
    ZeroStdDevIffConstant(m, values);
    if forall i :: 0 <= i < |ps| ==> Coerce(ps[i].value) == Coerce(ps[0].value) {
      ConstantHasZeroDeviations(values);
    }
  }

  /** In the main branch every record is its point's Gi* record over its own weight
      row. */
  lemma MainRecords(m: Math, ps: seq<Point>, o: GiOptions)
    requires |ps| >= 3 && StdDev(m, Values(ps)) != 0.0
    ensures GiStar(m, ps, o) == GiMain(m, ps, o)
    ensures forall i :: 0 <= i < |ps| ==>
      GiStar(m, ps, o).results[i] ==
        GiRecord(m, ps[i], GiWeights(m, ps, ChooseThreshold(m, ps, o))[i], Values(ps),
                 Mean(Values(ps)), StdDev(m, Values(ps)))
  {
  }

  /** Every record is classified by the tier chain applied to its own z-score, carries
      its z-score as `giStar`, and its confidence and flags agree with its tier. */
  lemma RecordsClassified(m: Math, ps: seq<Point>, o: GiOptions)
    ensures forall i :: 0 <= i < |ps| ==>
      var r := GiStar(m, ps, o).results[i];
      && r.classification == Classify(r.zScore)
      && r.giStar == r.zScore
      && (r.confidenceLevel.Some? ==> r.confidenceLevel.value == Confidence(r.classification))
      && (r.isHotspot.Some? ==> (r.isHotspot.value <==> IsHotspot(r.zScore)))
      && (r.isColdspot.Some? ==> (r.isColdspot.value <==> IsColdspot(r.zScore)))
  {
  }

  /** The seven counters partition the points, and the two totals count the hotspot
      and coldspot tiers. */
  lemma SummaryPartitions(m: Math, ps: seq<Point>, o: GiOptions)
    ensures Total(GiStar(m, ps, o).summary.counts) == |ps|
    ensures GiStar(m, ps, o).summary.totals.Some? ==>
      var c := GiStar(m, ps, o).summary.counts;
      var t := GiStar(m, ps, o).summary.totals.value;
      t.totalHotspots == c.hotspots99 + c.hotspots95 + c.hotspots90 &&
      t.totalColdspots == c.coldspots90 + c.coldspots95 + c.coldspots99
    ensures GiStar(m, ps, o).summary.counts == Tally(ZScores(GiStar(m, ps, o).results))
  {
    var r := GiStar(m, ps, o);
    var zs := ZScores(r.results);
    if |ps| >= 3 && StdDev(m, Values(ps)) != 0.0 {
      TallyPartitions(zs);
    } else {
      assert forall i :: 0 <= i < |zs| ==> zs[i] == 0.0;
      ZeroScoresTally(zs);
    }
  }

  /** Scores that are all 0 fall in the not-significant counter only. */
  lemma ZeroScoresTally(zs: seq<real>)
    requires forall i :: 0 <= i < |zs| ==> zs[i] == 0.0
    ensures Tally(zs) == TierCounts(0, 0, 0, 0, 0, 0, |zs|)
  {
    CountExtremes(zs, InHot99);
    CountExtremes(zs, InHot95);
    CountExtremes(zs, InHot90);
    CountExtremes(zs, InCold90);
    CountExtremes(zs, InCold95);
    CountExtremes(zs, InCold99);
    CountExtremes(zs, InNeither);
  }

  /** A hotspot's weighted sum exceeds the mean times its weight total. */
  predicate HotExcess(r: GiPoint, xBar: real) {
    r.isHotspot == Some(true) ==>
      r.sumWij.Some? && r.sumWijXj.Some? && r.sumWijXj.value > xBar * r.sumWij.value
  }

  /** A coldspot's weighted sum falls short of the mean times its weight total. */
  predicate ColdShortfall(r: GiPoint, xBar: real) {
    r.isColdspot == Some(true) ==>
      r.sumWij.Some? && r.sumWijXj.Some? && r.sumWijXj.value < xBar * r.sumWij.value
  }

  /** A point flagged as a hotspot has a local weighted sum above the global mean times
      its weight total, and a coldspot one below it. */
  lemma FlagsMeanExcess(m: Math, ps: seq<Point>, o: GiOptions, i: nat)
    requires Sound(m) && i < |ps|
    ensures var r := GiStar(m, ps, o);
      (r.results[i].isHotspot == Some(true) || r.results[i].isColdspot == Some(true)) ==>
        && r.summary.totals.Some?
        && HotExcess(r.results[i], r.summary.totals.value.globalMean)
        && ColdShortfall(r.results[i], r.summary.totals.value.globalMean)
  {
    if |ps| >= 3 && StdDev(m, Values(ps)) != 0.0 {
      MainRecords(m, ps, o);
      var values := Values(ps);
      StdDevNonNegative(m, values);
      var row := GiWeights(m, ps, ChooseThreshold(m, ps, o))[i];
      var r := GiStar(m, ps, o);
      assert r.summary.totals.value.globalMean == Mean(values);
      assert r.results[i] == GiRecord(m, ps[i], row, values, Mean(values), StdDev(m, values));
      RecordFlags(m, ps[i], row, values, Mean(values), StdDev(m, values));
    } else {
      GuardRecordsUnflagged(m, ps, o, i);
    }
  }

  lemma RecordFlags(m: Math, p: Point, row: seq<real>, values: seq<real>, xBar: real, s: real)
    requires Sound(m) && |row| == |values| && |row| >= 2 && s >= 0.0
    ensures HotExcess(GiRecord(m, p, row, values, xBar, s), xBar)
    ensures ColdShortfall(GiRecord(m, p, row, values, xBar, s), xBar)
  {
    ZScoreSign(m, row, values, xBar, s);
  }

  /** The two guard branches never flag a point. */
  lemma GuardRecordsUnflagged(m: Math, ps: seq<Point>, o: GiOptions, i: nat)
    requires i < |ps| && (|ps| < 3 || StdDev(m, Values(ps)) == 0.0)
    ensures GiStar(m, ps, o).results[i].isHotspot != Some(true)
    ensures GiStar(m, ps, o).results[i].isColdspot != Some(true)
  {
  }

  /** With non-negative thresholds every point is its own neighbour, so the weight total
      lies between 1 and n and `neighborsCount` lies between 0 and n - 1. (That the weight
      total also equals the sum of squared weights is `Weights.BinaryRowSums`.) */
  lemma NeighbourCounts(m: Math, ps: seq<Point>, o: GiOptions, i: nat)
    requires Sound(m) && i < |ps|
    requires o.fixedDistanceKm.Some? ==> o.fixedDistanceKm.value >= 0.0
    requires o.distanceThreshold.Some? ==> o.distanceThreshold.value >= 0.0
    ensures var r := GiStar(m, ps, o).results[i];
      r.neighborsCount.Some? ==> 0.0 <= r.neighborsCount.value <= (|ps| - 1) as real
    ensures var r := GiStar(m, ps, o).results[i];
      r.sumWij.Some? ==> 1.0 <= r.sumWij.value <= |ps| as real
  {
    if |ps| >= 3 && StdDev(m, Values(ps)) != 0.0 {
      MainRecords(m, ps, o);
      var t := ChooseThreshold(m, ps, o);
      assert t >= 0.0;
      var row := GiWeights(m, ps, t)[i];
      GiDiagonal(m, ps, t, i);
      assert row[i] == 1.0;
      BinaryRowSums(row);
    }
  }

  /** When the threshold reaches every pair of points, every weight is 1, the variance
      component vanishes and no point is significant. */
  lemma FullNeighbourhoodNeutral(m: Math, ps: seq<Point>, o: GiOptions)
    requires Sound(m)
    requires forall i, j :: 0 <= i < |ps| && 0 <= j < |ps| ==> Distance(m, ps[i], ps[j]) <= ChooseThreshold(m, ps, o)
    ensures forall i :: 0 <= i < |ps| ==>
      GiStar(m, ps, o).results[i].zScore == 0.0 && GiStar(m, ps, o).results[i].classification == NotSignificant
    ensures GiStar(m, ps, o).summary.counts == TierCounts(0, 0, 0, 0, 0, 0, |ps|)
  {
    var r := GiStar(m, ps, o);
    ZeroScores(m, ps, o);
    RecordsClassified(m, ps, o);
    SummaryPartitions(m, ps, o);
    ZeroScoresTally(ZScores(r.results));
  }

  lemma ZeroScores(m: Math, ps: seq<Point>, o: GiOptions)
    requires Sound(m)
    requires forall i, j :: 0 <= i < |ps| && 0 <= j < |ps| ==> Distance(m, ps[i], ps[j]) <= ChooseThreshold(m, ps, o)
    ensures forall i :: 0 <= i < |ps| ==> GiStar(m, ps, o).results[i].zScore == 0.0
  {
    forall i | 0 <= i < |ps| ensures GiStar(m, ps, o).results[i].zScore == 0.0 {
      ZeroScoreAt(m, ps, o, i);
    }
  }

  lemma ZeroScoreAt(m: Math, ps: seq<Point>, o: GiOptions, i: nat)
    requires Sound(m) && i < |ps|
    requires forall j :: 0 <= j < |ps| ==> Distance(m, ps[i], ps[j]) <= ChooseThreshold(m, ps, o)
    ensures GiStar(m, ps, o).results[i].zScore == 0.0
  {
    if |ps| >= 3 && StdDev(m, Values(ps)) != 0.0 {
      MainRecords(m, ps, o);
      var w := GiWeights(m, ps, ChooseThreshold(m, ps, o));
      assert forall j :: 0 <= j < |ps| ==> w[i][j] == 1.0;
      AllOnesRowNeutral(m, w[i], Values(ps), Mean(Values(ps)), StdDev(m, Values(ps)));
    }
  }

  lemma AllOnesRowNeutral(m: Math, row: seq<real>, values: seq<real>, xBar: real, s: real)
    requires Sound(m) && |row| == |values| && |row| >= 2
    requires forall j :: 0 <= j < |row| ==> row[j] == 1.0
    ensures VarianceComponent(row) == 0.0
    ensures ZScore(m, row, values, xBar, s) == 0.0
  {
    AllOnesSums(row);
    var n := |row| as real;
    assert n * SumOfSquares(row) - Sum(row) * Sum(row) == 0.0;
  }

  /** The weight type option has no effect on the result. */
  lemma WeightTypeIgnored(m: Math, ps: seq<Point>, o: GiOptions, weightType: string)
    ensures GiStar(m, ps, o.(weightType := weightType)) == GiStar(m, ps, o)
  {
    assert ChooseThreshold(m, ps, o.(weightType := weightType)) == ChooseThreshold(m, ps, o);
  }
}
