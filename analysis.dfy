/** `performSpatialAnalysis` (src/utils/spatialAnalysis.js): point preparation followed
    by a KDE surface and a Gi* run over the prepared points. */
module Analysis {
  import opened Wrappers
  import opened Numerics
  import opened Points
  import opened Kde
  import opened GiStar

  /** An input point as a record of optional own properties: `None` is a missing key,
      `Some(Undefined)` a key that is present with the value `undefined`. Properties
      the preparation does not read are not modelled. */
  datatype RawPoint = RawPoint(
    id: Option<Scalar>,
    lat: Option<Scalar>,
    lng: Option<Scalar>,
    Latitude: Option<Scalar>,
    Longitude: Option<Scalar>,
    value: Option<Scalar>,
    intensity: Option<Scalar>)

  /** The four properties of a prepared point the analyses read. */
  datatype Prepared = Prepared(id: Scalar, lat: Scalar, lng: Scalar, value: Scalar)

  /** Reading a property: a missing key reads as `undefined`. */
  function Get(f: Option<Scalar>): Scalar {
    f.GetOr(Undefined)
  }

  /** The object literal lists the defaults first and spreads the point last, so a key
      the point owns keeps the point's own value. */
  function Own(f: Option<Scalar>, default: Scalar): Scalar {
    if f.Some? then f.value else default
  }

  /** The preparation of the point at index `idx`. */
  function Prepare(p: RawPoint, idx: nat): Prepared {
    Prepared(
      Own(p.id, Or(Get(p.id), Num(idx as real))),
      Own(p.lat, Or(Get(p.lat), Get(p.Latitude))),
      Own(p.lng, Or(Get(p.lng), Get(p.Longitude))),
      Own(p.value, Or(Or(Get(p.value), Get(p.intensity)), Num(1.0))))
  }

  function PrepareAll(raw: seq<RawPoint>): (qs: seq<Prepared>)
    ensures |qs| == |raw|
    ensures forall i :: 0 <= i < |raw| ==> qs[i] == Prepare(raw[i], i)
  {
    seq(|raw|, i requires 0 <= i < |raw| => Prepare(raw[i], i))
  }

  /** Every prepared point has numeric coordinates. */
  predicate Located(qs: seq<Prepared>) {
    forall i :: 0 <= i < |qs| ==> qs[i].lat.Num? && qs[i].lng.Num?
  }

  /** A prepared point as the two analyses see it. */
  function ToPoint(q: Prepared): Point
    requires q.lat.Num? && q.lng.Num?
  {
    Point(q.id, q.lat.x, q.lng.x, q.value)
  }

  function ToPoints(qs: seq<Prepared>): (ps: seq<Point>)
    requires Located(qs)
    ensures |ps| == |qs|
    ensures forall i :: 0 <= i < |qs| ==> ps[i] == ToPoint(qs[i])
  {
    seq(|qs|, i requires 0 <= i < |qs| => ToPoint(qs[i]))
  }

  /** The options of `performSpatialAnalysis`; `None` is an option left undefined. */
  datatype AnalysisOptions = AnalysisOptions(
    kdeResolution: Option<nat>,
    kdeBandwidth: Option<real>,
    giDistanceThreshold: Option<real>,
    giWeightType: Option<string>)

  datatype AnalysisResult = AnalysisResult(kde: KdeResult, giStar: GiOutput, points: seq<Prepared>)

  /** The options passed on to `performKDE`: resolution 40 unless given. */
  function KdeOptionsOf(o: AnalysisOptions): KdeOptions {
    KdeOptions(o.kdeBandwidth, Some(o.kdeResolution.GetOr(40)), None, None, None)
  }

  /** The options passed on to `performGetisOrdGiStar`: weight type "binary" unless
      given, and no fixed distance. */
  function GiOptionsOf(o: AnalysisOptions): GiOptions {
    GiOptions(o.giDistanceThreshold, o.giWeightType.GetOr("binary"), None)
  }

  /** `performSpatialAnalysis` as a function of its inputs. */
  function SpatialAnalysis(m: Math, raw: seq<RawPoint>, o: AnalysisOptions): (r: AnalysisResult)
    requires Located(PrepareAll(raw))
    requires o.kdeResolution != Some(0)
    ensures |r.points| == |raw|
    ensures forall i :: 0 <= i < |raw| ==> r.points[i] == Prepare(raw[i], i)
  {
    var qs := PrepareAll(raw);
    var ps := ToPoints(qs);
    AnalysisResult(Kde.Kde(m, ps, KdeOptionsOf(o)), GiStar.GiStar(m, ps, GiOptionsOf(o)), qs)
  }

  /** `performSpatialAnalysis`. */
  method PerformSpatialAnalysis(m: Math, raw: seq<RawPoint>, o: AnalysisOptions) returns (r: AnalysisResult)
    requires Located(PrepareAll(raw))
    requires o.kdeResolution != Some(0)
    ensures r == SpatialAnalysis(m, raw, o)
  {
    var prepared := PrepareAll(raw);
    var ps := ToPoints(prepared);
    var kdeResult := PerformKde(m, ps, KdeOptionsOf(o));
    var giResult := PerformGetisOrdGiStar(m, ps, GiOptionsOf(o));
    r := AnalysisResult(kdeResult, giResult, prepared);
  }

  // ---------------------------------------------------------------- properties

  /** One Gi* record per input point, in order, each carrying that prepared point. */
  lemma GiRecordsFollowPoints(m: Math, raw: seq<RawPoint>, o: AnalysisOptions)
    requires Located(PrepareAll(raw)) && o.kdeResolution != Some(0)
    ensures |SpatialAnalysis(m, raw, o).giStar.results| == |raw|
    ensures forall i :: 0 <= i < |raw| ==>
      ToPoint(PrepareAll(raw)[i]) == SpatialAnalysis(m, raw, o).giStar.results[i].point
  {
  }

  /** The KDE grid has (resolution + 1)² cells, with resolution 40 unless given. */
  lemma KdeGridSize(m: Math, raw: seq<RawPoint>, o: AnalysisOptions)
    requires Located(PrepareAll(raw)) && o.kdeResolution != Some(0) && raw != []
    ensures (o.kdeResolution.GetOr(40) + 1) * (o.kdeResolution.GetOr(40) + 1) == |SpatialAnalysis(m, raw, o).kde.grid|
  {
  }

  /** A key the input point owns keeps its own value, whatever it is. */
  lemma OwnFieldsWin(p: RawPoint, idx: nat)
    ensures p.id.Some? ==> Prepare(p, idx).id == p.id.value
    ensures p.lat.Some? ==> Prepare(p, idx).lat == p.lat.value
    ensures p.lng.Some? ==> Prepare(p, idx).lng == p.lng.value
    ensures p.value.Some? ==> Prepare(p, idx).value == p.value.value
  {
  }

  /** A missing key takes its default: the index for the id, `Latitude` and
      `Longitude` for the coordinates, and for the value a truthy `intensity` or else 1. */
  lemma MissingFieldsDefault(p: RawPoint, idx: nat)
    ensures p.id.None? ==> Prepare(p, idx).id == Num(idx as real)
    ensures p.lat.None? ==> Prepare(p, idx).lat == Get(p.Latitude)
    ensures p.lng.None? ==> Prepare(p, idx).lng == Get(p.Longitude)
    ensures p.value.None? && Truthy(Get(p.intensity)) ==> Prepare(p, idx).value == Get(p.intensity)
    ensures p.value.None? && !Truthy(Get(p.intensity)) ==> Prepare(p, idx).value == Num(1.0)
  {
  }

  /** A point without a value or a truthy intensity enters Gi* with the value 1; so does
      any point whose value is not a number. */
  lemma DefaultValueIsOne(m: Math, raw: seq<RawPoint>, o: AnalysisOptions, i: nat)
    requires Located(PrepareAll(raw)) && o.kdeResolution != Some(0) && i < |raw|
    requires raw[i].value.None? && !Truthy(Get(raw[i].intensity))
    ensures Coerce(SpatialAnalysis(m, raw, o).giStar.results[i].point.value) == 1.0
  {
  }

  /** The KDE runs over the prepared points, with the resolution (40 unless given) and
      bandwidth options, no weights, no bounds and the default Gaussian kernel. */
  lemma KdeOverPreparedPoints(m: Math, raw: seq<RawPoint>, o: AnalysisOptions)
    requires Located(PrepareAll(raw)) && o.kdeResolution != Some(0)
    ensures Kde.Kde(m, ToPoints(PrepareAll(raw)), KdeOptions(o.kdeBandwidth, Some(o.kdeResolution.GetOr(40)), None, None, None))
      == SpatialAnalysis(m, raw, o).kde
  {
  }

  /** Gi* runs over the same prepared points, with the distance threshold option, the
      weight type ("binary" unless given) and no fixed distance. */
  lemma GiOverPreparedPoints(m: Math, raw: seq<RawPoint>, o: AnalysisOptions)
    requires Located(PrepareAll(raw)) && o.kdeResolution != Some(0)
    ensures GiStar.GiStar(m, ToPoints(PrepareAll(raw)), GiOptions(o.giDistanceThreshold, o.giWeightType.GetOr("binary"), None))
      == SpatialAnalysis(m, raw, o).giStar
  {
  }
}
