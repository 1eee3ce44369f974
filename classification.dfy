/** The seven significance tiers of the Getis-Ord Gi* analysis, the two label helpers
    and the summary tally (src/utils/spatialAnalysis.js). */
module Classification {
  import opened Lists

  /** The tiers, from the hottest to the coldest. */
  datatype Tier = Hotspot99 | Hotspot95 | Hotspot90 | NotSignificant | Coldspot90 | Coldspot95 | Coldspot99

  // The z-score cut points of the SIGNIFICANCE_LEVELS table.
  const HOT_99: real := 2.58
  const HOT_95: real := 1.96
  const HOT_90: real := 1.65
  const COLD_90: real := -1.65
  const COLD_95: real := -1.96
  const COLD_99: real := -2.58

  /** The classification chain of the Gi* loop: the first matching test wins. Each tier
      covers exactly one band of z-scores, so the classification is total and ordered. */
  function Classify(z: real): (t: Tier)
    ensures t == Hotspot99 <==> z >= 2.58
    ensures t == Hotspot95 <==> 1.96 <= z < 2.58
    ensures t == Hotspot90 <==> 1.65 <= z < 1.96
    ensures t == Coldspot99 <==> z <= -2.58
    ensures t == Coldspot95 <==> -2.58 < z <= -1.96
    ensures t == Coldspot90 <==> -1.96 < z <= -1.65
    ensures t == NotSignificant <==> -1.65 < z < 1.65
  {
    if z >= HOT_99 then Hotspot99
    else if z >= HOT_95 then Hotspot95
    else if z >= HOT_90 then Hotspot90
    else if z <= COLD_99 then Coldspot99
    else if z <= COLD_95 then Coldspot95
    else if z <= COLD_90 then Coldspot90
    else NotSignificant
  }

  /** The `confidenceLevel` that accompanies a tier. */
  function Confidence(t: Tier): (c: nat)
    ensures c == 0 || c == 90 || c == 95 || c == 99
    ensures c == 0 <==> t == NotSignificant
    ensures c == 99 <==> t == Hotspot99 || t == Coldspot99
  {
    match t
    case Hotspot99 => 99
    case Hotspot95 => 95
    case Hotspot90 => 90
    case NotSignificant => 0
    case Coldspot90 => 90
    case Coldspot95 => 95
    case Coldspot99 => 99
  }

  /** The `classification` string a Gi* result carries. */
  function GiLabel(t: Tier): string {
    match t
    case Hotspot99 => "Hotspot (99% Confidence)"
    case Hotspot95 => "Hotspot (95% Confidence)"
    case Hotspot90 => "Hotspot (90% Confidence)"
    case NotSignificant => "Not Significant"
    case Coldspot90 => "Coldspot (90% Confidence)"
    case Coldspot95 => "Coldspot (95% Confidence)"
    case Coldspot99 => "Coldspot (99% Confidence)"
  }

  /** The short label of the visualisation helper for a tier. */
  function CiLabel(t: Tier): string {
    match t
    case Hotspot99 => "Hotspot (99% CI)"
    case Hotspot95 => "Hotspot (95% CI)"
    case Hotspot90 => "Hotspot (90% CI)"
    case NotSignificant => "Not Significant"
    case Coldspot90 => "Coldspot (90% CI)"
    case Coldspot95 => "Coldspot (95% CI)"
    case Coldspot99 => "Coldspot (99% CI)"
  }

  /** `getClassificationLabel`: its own chain of tests on the same cut points, which
      always agrees with the tier of the Gi* classification. */
  function ClassificationLabel(z: real): (text: string)
    ensures text == CiLabel(Classify(z))
  {
    if z >= 2.58 then "Hotspot (99% CI)"
    else if z >= 1.96 then "Hotspot (95% CI)"
    else if z >= 1.65 then "Hotspot (90% CI)"
    else if z <= -2.58 then "Coldspot (99% CI)"
    else if z <= -1.96 then "Coldspot (95% CI)"
    else if z <= -1.65 then "Coldspot (90% CI)"
    else "Not Significant"
  }

  /** `isHotspot` of a Gi* result. */
  predicate IsHotspot(z: real) { z >= HOT_90 }

  /** `isColdspot` of a Gi* result. */
  predicate IsColdspot(z: real) { z <= COLD_90 }

  /** The two flags never hold together, and each holds exactly for the three tiers on
      its side. */
  lemma FlagsMatchTiers(z: real)
    ensures !(IsHotspot(z) && IsColdspot(z))
    ensures IsHotspot(z) <==> Classify(z) in {Hotspot99, Hotspot95, Hotspot90}
    ensures IsColdspot(z) <==> Classify(z) in {Coldspot90, Coldspot95, Coldspot99}
    ensures !IsHotspot(z) && !IsColdspot(z) <==> Classify(z) == NotSignificant
  {
  }

  // ---------------------------------------------------------------- summary

  // The filters of the summary, one per counter, as the source writes them.
  predicate InHot99(z: real) { z >= HOT_99 }
  predicate InHot95(z: real) { z >= HOT_95 && z < HOT_99 }
  predicate InHot90(z: real) { z >= HOT_90 && z < HOT_95 }
  predicate InCold90(z: real) { z <= COLD_90 && z > COLD_95 }
  predicate InCold95(z: real) { z <= COLD_95 && z > COLD_99 }
  predicate InCold99(z: real) { z <= COLD_99 }
  predicate InNeither(z: real) { !IsHotspot(z) && !IsColdspot(z) }

  datatype TierCounts = TierCounts(
    hotspots99: nat, hotspots95: nat, hotspots90: nat,
    coldspots90: nat, coldspots95: nat, coldspots99: nat,
    notSignificant: nat)

  /** The seven counters of the summary, each a `filter(..).length` over the z-scores. */
  function Tally(zs: seq<real>): TierCounts {
    TierCounts(
      Count(zs, InHot99), Count(zs, InHot95), Count(zs, InHot90),
      Count(zs, InCold90), Count(zs, InCold95), Count(zs, InCold99),
      Count(zs, InNeither))
  }

  function Total(c: TierCounts): nat {
    c.hotspots99 + c.hotspots95 + c.hotspots90 + c.coldspots90 + c.coldspots95 + c.coldspots99 + c.notSignificant
  }

  // Unions of the filters, used to assemble the partition.
  predicate InHot95Or90(z: real) { InHot95(z) || InHot90(z) }
  predicate InCold90Or95(z: real) { InCold90(z) || InCold95(z) }
  predicate Flagged(z: real) { IsHotspot(z) || IsColdspot(z) }
  predicate AnyScore(z: real) { true }

  /** The counters partition the results: every z-score is counted exactly once, and the
      hotspot (coldspot) flags count exactly the three hotspot (coldspot) tiers. */
  lemma TallyPartitions(zs: seq<real>)
    ensures Total(Tally(zs)) == |zs|
    ensures Count(zs, IsHotspot) == Tally(zs).hotspots99 + Tally(zs).hotspots95 + Tally(zs).hotspots90
    ensures Count(zs, IsColdspot) == Tally(zs).coldspots90 + Tally(zs).coldspots95 + Tally(zs).coldspots99
  {
    TallyTotal(zs);
    TallyFlags(zs);
  }

  lemma TallyTotal(zs: seq<real>)
    ensures Total(Tally(zs)) == |zs|
  {
    HotSplits(zs);
    ColdSplits(zs);
    FlagSplits(zs);
  }

  lemma TallyFlags(zs: seq<real>)
    ensures Count(zs, IsHotspot) == Tally(zs).hotspots99 + Tally(zs).hotspots95 + Tally(zs).hotspots90
    ensures Count(zs, IsColdspot) == Tally(zs).coldspots90 + Tally(zs).coldspots95 + Tally(zs).coldspots99
  {
    HotSplits(zs);
    ColdSplits(zs);
  }

  lemma FlagSplits(zs: seq<real>)
    ensures |zs| == Count(zs, InNeither) + Count(zs, IsHotspot) + Count(zs, IsColdspot)
  {
    CountSplit(zs, Flagged, IsHotspot, IsColdspot);
    CountSplit(zs, AnyScore, InNeither, Flagged);
    CountExtremes(zs, AnyScore);
  }

  lemma HotSplits(zs: seq<real>)
    ensures Count(zs, IsHotspot) == Count(zs, InHot99) + Count(zs, InHot95) + Count(zs, InHot90)
  {
    CountSplit(zs, InHot95Or90, InHot95, InHot90);
    CountSplit(zs, IsHotspot, InHot99, InHot95Or90);
  }

  lemma ColdSplits(zs: seq<real>)
    ensures Count(zs, IsColdspot) == Count(zs, InCold90) + Count(zs, InCold95) + Count(zs, InCold99)
  {
    CountSplit(zs, InCold90Or95, InCold90, InCold95);
    CountSplit(zs, IsColdspot, InCold90Or95, InCold99);
  }

  /** Each counter counts exactly the z-scores that the classification chain puts in
      its tier. */
  lemma TallyCountsTiers(zs: seq<real>)
    ensures Tally(zs).hotspots99 == Count(zs, HasTier(Hotspot99))
    ensures Tally(zs).hotspots95 == Count(zs, HasTier(Hotspot95))
    ensures Tally(zs).hotspots90 == Count(zs, HasTier(Hotspot90))
    ensures Tally(zs).coldspots90 == Count(zs, HasTier(Coldspot90))
    ensures Tally(zs).coldspots95 == Count(zs, HasTier(Coldspot95))
    ensures Tally(zs).coldspots99 == Count(zs, HasTier(Coldspot99))
    ensures Tally(zs).notSignificant == Count(zs, HasTier(NotSignificant))
  {
    CountSame(zs, InHot99, HasTier(Hotspot99));
    CountSame(zs, InHot95, HasTier(Hotspot95));
    CountSame(zs, InHot90, HasTier(Hotspot90));
    CountSame(zs, InCold90, HasTier(Coldspot90));
    CountSame(zs, InCold95, HasTier(Coldspot95));
    CountSame(zs, InCold99, HasTier(Coldspot99));
    CountSame(zs, InNeither, HasTier(NotSignificant));
  }

  function HasTier(t: Tier): real -> bool {
    z => Classify(z) == t
  }
}
