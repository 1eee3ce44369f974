/** `getGeometryType` and `calculateBounds` (src/services/gisService.js): the type of a
    GeoJSON feature's geometry, and the bounding box `[minLng, minLat, maxLng, maxLat]`
    of the coordinates of a list of features. */
module Gis {
  import opened Wrappers

  /** A GeoJSON position `[lng, lat]`. */
  datatype Position = Position(lng: real, lat: real)

  /** A geometry: the four kinds `calculateBounds` reads, and any other, whose `type`
      property may be missing. */
  datatype Geometry =
    | Point(position: Position)
    | LineString(line: seq<Position>)
    | Polygon(rings: seq<seq<Position>>)
    | MultiPolygon(polygons: seq<seq<seq<Position>>>)
    | Other(kind: Option<string>)

  /** A feature; `None` is a feature without a `geometry` property. */
  datatype Feature = Feature(geometry: Option<Geometry>)

  const KNOWN_TYPES: set<string> := {"Point", "LineString", "Polygon", "MultiPolygon"}

  /** The geometry's `type` property. */
  function TypeName(g: Geometry): Option<string> {
    match g
    case Point(_) => Some("Point")
    case LineString(_) => Some("LineString")
    case Polygon(_) => Some("Polygon")
    case MultiPolygon(_) => Some("MultiPolygon")
    case Other(k) => k
  }

  /** `feature?.geometry?.type || 'Unknown'`; `None` is a missing feature. */
  function GetGeometryType(f: Option<Feature>): (r: string)
    ensures r != ""
    ensures f.Some? && f.value.geometry.Some? && TypeName(f.value.geometry.value) != Some("") ==>
      r == TypeName(f.value.geometry.value).GetOr("Unknown")
    ensures r == "Unknown" <==>
      f.None? || f.value.geometry.None? || TypeName(f.value.geometry.value).None? ||
      TypeName(f.value.geometry.value).value in {"", "Unknown"}
  {
    if f.None? || f.value.geometry.None? then "Unknown"
    else
      var t := TypeName(f.value.geometry.value);
      if t.None? || t.value == "" then "Unknown" else t.value
  }

  /** A geometry `calculateBounds` can read without failing: a polygon has an outer
      ring, and so has every polygon of a multi-polygon; a geometry whose `type` names
      one of the four kinds has that kind's coordinates. */
  predicate WellFormedGeometry(g: Geometry) {
    match g
    case Polygon(rings) => |rings| > 0
    case MultiPolygon(ps) => forall i :: 0 <= i < |ps| ==> |ps[i]| > 0
    case Other(k) => k.Some? ==> k.value !in KNOWN_TYPES
    case _ => true
  }

  /** Every feature has a readable geometry. */
  predicate WellFormed(fs: seq<Feature>) {
    forall i :: 0 <= i < |fs| ==> fs[i].geometry.Some? && WellFormedGeometry(fs[i].geometry.value)
  }

  /** The outer rings of the polygons of a multi-polygon, one after the other. */
  function OuterRings(ps: seq<seq<seq<Position>>>): seq<Position>
    requires forall i :: 0 <= i < |ps| ==> |ps[i]| > 0
  {
    if ps == [] then [] else OuterRings(ps[..|ps| - 1]) + ps[|ps| - 1][0]
  }

  /** The positions of a geometry that `calculateBounds` processes, in order. */
  function Coords(g: Geometry): seq<Position>
    requires WellFormedGeometry(g)
  {
    match g
    case Point(p) => [p]
    case LineString(line) => line
    case Polygon(rings) => rings[0]
    case MultiPolygon(ps) => OuterRings(ps)
    case Other(_) => []
  }

  /** The positions of all the features, in the order they are processed. */
  function AllCoords(fs: seq<Feature>): seq<Position>
    requires WellFormed(fs)
  {
    if fs == [] then [] else AllCoords(fs[..|fs| - 1]) + Coords(fs[|fs| - 1].geometry.value)
  }

  datatype Box = Box(minLng: real, minLat: real, maxLng: real, maxLat: real)

  /** The box of the positions, built one position at a time; `None` when there is
      none. */
  function BoxOf(cs: seq<Position>): (b: Option<Box>)
    ensures b.None? <==> cs == []
  {
    if cs == [] then None
    else
      var prev := BoxOf(cs[..|cs| - 1]);
      var c := cs[|cs| - 1];
      if prev.None? then Some(Box(c.lng, c.lat, c.lng, c.lat))
      else
        var p := prev.value;
        Some(Box(Min(p.minLng, c.lng), Min(p.minLat, c.lat), Max(p.maxLng, c.lng), Max(p.maxLat, c.lat)))
  }

  /** Every position lies inside the box. */
  lemma {:induction false} BoxContains(cs: seq<Position>)
    requires cs != []
    ensures var b := BoxOf(cs).value;
      forall c :: c in cs ==> b.minLng <= c.lng <= b.maxLng && b.minLat <= c.lat <= b.maxLat
  {
    var init, last := cs[..|cs| - 1], cs[|cs| - 1];
    assert cs == init + [last];
    if init != [] {
      BoxContains(init);
    }
  }

  /** Each bound of the box is attained by some position. */
  lemma {:induction false} BoxAttained(cs: seq<Position>)
    requires cs != []
    ensures var b := BoxOf(cs).value;
      && (exists c :: c in cs && c.lng == b.minLng)
      && (exists c :: c in cs && c.lng == b.maxLng)
      && (exists c :: c in cs && c.lat == b.minLat)
      && (exists c :: c in cs && c.lat == b.maxLat)
  {
    var init, last := cs[..|cs| - 1], cs[|cs| - 1];
    assert cs == init + [last];
    if init != [] {
      BoxAttained(init);
      var p := BoxOf(init).value;
      var c1 :| c1 in init && c1.lng == p.minLng;
      var c2 :| c2 in init && c2.lng == p.maxLng;
      var c3 :| c3 in init && c3.lat == p.minLat;
      var c4 :| c4 in init && c4.lat == p.maxLat;
      assert c1 in cs && c2 in cs && c3 in cs && c4 in cs;
    }
  }

  /** The minimum is not above the maximum on either axis. */
  lemma {:induction false} BoxOrdered(cs: seq<Position>)
    requires cs != []
    ensures BoxOf(cs).value.minLng <= BoxOf(cs).value.maxLng
    ensures BoxOf(cs).value.minLat <= BoxOf(cs).value.maxLat
  {
    if |cs| > 1 {
      BoxOrdered(cs[..|cs| - 1]);
    }
  }

  /** Processing one more position updates the accumulators as `processCoord` does. */
  lemma ExtendAcc(seen: seq<Position>, c: Position)
    ensures AccOf(BoxOf(seen + [c])) ==
      var a := AccOf(BoxOf(seen));
      Acc(MinExt(a.minLng, Fin(c.lng)), MinExt(a.minLat, Fin(c.lat)),
          MaxExt(a.maxLng, Fin(c.lng)), MaxExt(a.maxLat, Fin(c.lat)))
  {
    assert (seen + [c])[..|seen|] == seen;
  }

  function Min(a: real, b: real): real { if a <= b then a else b }
  function Max(a: real, b: real): real { if a >= b then a else b }

  /** A real number or one of the two infinities. */
  datatype Ext = NegInf | Fin(x: real) | PosInf

  predicate Le(a: Ext, b: Ext) {
    a.NegInf? || b.PosInf? || (a.Fin? && b.Fin? && a.x <= b.x)
  }

  /** `Math.min` and `Math.max` over the extended reals. */
  function MinExt(a: Ext, b: Ext): Ext { if Le(a, b) then a else b }
  function MaxExt(a: Ext, b: Ext): Ext { if Le(a, b) then b else a }

  /** The four accumulators `minLng`, `minLat`, `maxLng`, `maxLat`. */
  datatype Acc = Acc(minLng: Ext, minLat: Ext, maxLng: Ext, maxLat: Ext)

  /** The accumulators holding a box; with no box they hold their initial infinities. */
  function AccOf(b: Option<Box>): Acc {
    if b.None? then Acc(PosInf, PosInf, NegInf, NegInf)
    else Acc(Fin(b.value.minLng), Fin(b.value.minLat), Fin(b.value.maxLng), Fin(b.value.maxLat))
  }

  /** The returned array `[minLng, minLat, maxLng, maxLat]`. */
  function ToArray(a: Acc): seq<Ext> {
    [a.minLng, a.minLat, a.maxLng, a.maxLat]
  }

  /** `calculateBounds` as a function of its input; `None` stands for `null`. */
  function Bounds(features: Option<seq<Feature>>): (r: Option<seq<Ext>>)
    requires features.Some? ==> WellFormed(features.value)
    ensures r.None? <==> features.None? || |features.value| == 0
    ensures r.Some? ==> |r.value| == 4
  {
    if features.None? || |features.value| == 0 then None
    else Some(ToArray(AccOf(BoxOf(AllCoords(features.value)))))
  }

  /** `processCoord` over the positions `cs`, after the positions `seen`. */
  method ProcessCoords(acc: Acc, ghost seen: seq<Position>, cs: seq<Position>) returns (next: Acc)
    requires acc == AccOf(BoxOf(seen))
    ensures next == AccOf(BoxOf(seen + cs))
  {
    next := acc;
    assert seen + cs[..0] == seen;
    for k := 0 to |cs|
      invariant next == AccOf(BoxOf(seen + cs[..k]))
    {
      assert seen + cs[..k + 1] == seen + cs[..k] + [cs[k]];
      ExtendAcc(seen + cs[..k], cs[k]);
      var lng, lat := cs[k].lng, cs[k].lat;
      next := Acc(MinExt(next.minLng, Fin(lng)), MinExt(next.minLat, Fin(lat)),
                  MaxExt(next.maxLng, Fin(lng)), MaxExt(next.maxLat, Fin(lat)));
    }
    assert cs[..|cs|] == cs;
  }

  /** `processCoord` over the outer ring of each polygon of a multi-polygon. */
  method ProcessOuterRings(acc: Acc, ghost seen: seq<Position>, ps: seq<seq<seq<Position>>>) returns (next: Acc)
    requires forall i :: 0 <= i < |ps| ==> |ps[i]| > 0
    requires acc == AccOf(BoxOf(seen))
    ensures next == AccOf(BoxOf(seen + OuterRings(ps)))
  {
    next := acc;
    assert seen + OuterRings(ps[..0]) == seen;
    for j := 0 to |ps|
      invariant next == AccOf(BoxOf(seen + OuterRings(ps[..j])))
    {
      assert ps[..j + 1][..j] == ps[..j];
      next := ProcessCoords(next, seen + OuterRings(ps[..j]), ps[j][0]);
      assert seen + OuterRings(ps[..j + 1]) == seen + OuterRings(ps[..j]) + ps[j][0];
    }
    assert ps[..|ps|] == ps;
  }

  /** The body of the `forEach` over the features: dispatch on the geometry type. */
  method ProcessFeature(acc: Acc, ghost seen: seq<Position>, g: Geometry) returns (next: Acc)
    requires WellFormedGeometry(g)
    requires acc == AccOf(BoxOf(seen))
    ensures next == AccOf(BoxOf(seen + Coords(g)))
  {
    match g {
      case Point(p) =>
        next := ProcessCoords(acc, seen, [p]);
      case LineString(line) =>
        next := ProcessCoords(acc, seen, line);
      case Polygon(rings) =>
        next := ProcessCoords(acc, seen, rings[0]);
      case MultiPolygon(ps) =>
        next := ProcessOuterRings(acc, seen, ps);
      case Other(_) =>
        assert seen + [] == seen;
        next := acc;
    }
  }

  /** `calculateBounds`. */
  method CalculateBounds(features: Option<seq<Feature>>) returns (r: Option<seq<Ext>>)
    requires features.Some? ==> WellFormed(features.value)
    ensures r == Bounds(features)
  {
    if features.None? || |features.value| == 0 {
      return None;
    }
    var fs := features.value;
    var acc := Acc(PosInf, PosInf, NegInf, NegInf);
    ghost var seen: seq<Position> := [];
    for i := 0 to |fs|
      invariant seen == AllCoords(fs[..i])
      invariant acc == AccOf(BoxOf(seen))
    {
      assert fs[..i + 1][..i] == fs[..i];
      acc := ProcessFeature(acc, seen, fs[i].geometry.value);
      seen := seen + Coords(fs[i].geometry.value);
    }
    assert fs[..|fs|] == fs;
    r := Some(ToArray(acc));
  }

  // ---------------------------------------------------------------- properties

  /** The array built from the box of `cs` contains every position of `cs`. */
  lemma ArrayContains(cs: seq<Position>)
    ensures var r := ToArray(AccOf(BoxOf(cs)));
      forall c :: c in cs ==>
        Le(r[0], Fin(c.lng)) && Le(Fin(c.lng), r[2]) && Le(r[1], Fin(c.lat)) && Le(Fin(c.lat), r[3])
  {
    if cs != [] {
      BoxContains(cs);
    }
  }

  /** The array built from the box of a non-empty `cs` is finite, ordered and attained. */
  lemma ArrayAttained(cs: seq<Position>)
    requires cs != []
    ensures var r := ToArray(AccOf(BoxOf(cs)));
      && r[0].Fin? && r[1].Fin? && r[2].Fin? && r[3].Fin?
      && r[0].x <= r[2].x && r[1].x <= r[3].x
      && (exists c :: c in cs && c.lng == r[0].x)
      && (exists c :: c in cs && c.lat == r[1].x)
      && (exists c :: c in cs && c.lng == r[2].x)
      && (exists c :: c in cs && c.lat == r[3].x)
  {
    BoxAttained(cs);
    BoxOrdered(cs);
  }

  /** The returned box contains every processed position; when no position was
      processed the array holds the initial infinities. */
  lemma BoundsContainEveryPosition(fs: seq<Feature>)
    requires WellFormed(fs) && |fs| > 0
    ensures var r := Bounds(Some(fs)).value;
      forall c :: c in AllCoords(fs) ==>
        Le(r[0], Fin(c.lng)) && Le(Fin(c.lng), r[2]) && Le(r[1], Fin(c.lat)) && Le(Fin(c.lat), r[3])
    ensures AllCoords(fs) == [] ==> Bounds(Some(fs)).value == [PosInf, PosInf, NegInf, NegInf]
  {
    ArrayContains(AllCoords(fs));
  }

  /** When some position was processed every bound is finite, the minimum is not above
      the maximum on either axis, and each bound is attained by a processed position. */
  lemma BoundsAreAttained(fs: seq<Feature>)
    requires WellFormed(fs) && |fs| > 0
    ensures AllCoords(fs) != [] ==> forall k :: 0 <= k < 4 ==> Bounds(Some(fs)).value[k].Fin?
    ensures AllCoords(fs) != [] ==>
      Bounds(Some(fs)).value[0].x <= Bounds(Some(fs)).value[2].x &&
      Bounds(Some(fs)).value[1].x <= Bounds(Some(fs)).value[3].x
    ensures AllCoords(fs) != [] ==>
      && (exists c :: c in AllCoords(fs) && c.lng == Bounds(Some(fs)).value[0].x)
      && (exists c :: c in AllCoords(fs) && c.lat == Bounds(Some(fs)).value[1].x)
      && (exists c :: c in AllCoords(fs) && c.lng == Bounds(Some(fs)).value[2].x)
      && (exists c :: c in AllCoords(fs) && c.lat == Bounds(Some(fs)).value[3].x)
  {
    var cs := AllCoords(fs);
    if cs != [] {
      ArrayAttained(cs);
    }
  }

  /** The positions of the features split around feature `i`. */
  lemma {:induction false} AllCoordsAround(fs: seq<Feature>, i: nat)
    requires WellFormed(fs) && i < |fs|
    ensures AllCoords(fs) == AllCoords(fs[..i]) + Coords(fs[i].geometry.value) + AllCoords(fs[i + 1..])
    decreases |fs|
  {
    if i < |fs| - 1 {
      var init := fs[..|fs| - 1];
      assert init[..i] == fs[..i];
      assert init[i + 1..] + [fs[|fs| - 1]] == fs[i + 1..];
      assert fs[i + 1..][..|fs[i + 1..]| - 1] == init[i + 1..];
      AllCoordsAround(init, i);
    } else {
      assert fs[..|fs| - 1] == fs[..i];
      assert fs[i + 1..] == [];
    }
  }

  /** Only the positions `calculateBounds` reads count: replacing a feature's geometry by
      one with the same processed positions (a polygon with other inner rings, another
      geometry of an unknown type in place of one) leaves the bounds unchanged. */
  lemma OnlyProcessedPositionsCount(fs: seq<Feature>, i: nat, g: Geometry)
    requires WellFormed(fs) && i < |fs| && WellFormedGeometry(g)
    requires Coords(g) == Coords(fs[i].geometry.value)
    ensures WellFormed(fs[i := Feature(Some(g))])
    ensures Bounds(Some(fs[i := Feature(Some(g))])) == Bounds(Some(fs))
  {
    var gs := fs[i := Feature(Some(g))];
    AllCoordsAround(fs, i);
    AllCoordsAround(gs, i);
    assert gs[..i] == fs[..i] && gs[i + 1..] == fs[i + 1..];
  }

  /** Which positions contribute: the point itself, the whole line, a polygon's outer
      ring only, each outer ring of a multi-polygon, and nothing of any other type; the
      kinds that contribute are exactly those whose type `getGeometryType` reports as one
      of the four known names. */
  lemma ContributingPositions(g: Geometry)
    requires WellFormedGeometry(g)
    ensures g.Polygon? ==> Coords(g) == g.rings[0]
    ensures g.MultiPolygon? ==> forall j :: 0 <= j < |g.polygons| ==> multiset(g.polygons[j][0]) <= multiset(Coords(g))
    ensures g.Other? ==> Coords(g) == []
    ensures GetGeometryType(Some(Feature(Some(g)))) in KNOWN_TYPES <==> !g.Other?
  {
    if g.MultiPolygon? {
      OuterRingsInclude(g.polygons);
    }
  }

  lemma {:induction false} OuterRingsInclude(ps: seq<seq<seq<Position>>>)
    requires forall i :: 0 <= i < |ps| ==> |ps[i]| > 0
    ensures forall j :: 0 <= j < |ps| ==> multiset(ps[j][0]) <= multiset(OuterRings(ps))
  {
    if ps != [] {
      var init := ps[..|ps| - 1];
      OuterRingsInclude(init);
      forall j | 0 <= j < |ps| ensures multiset(ps[j][0]) <= multiset(OuterRings(ps)) {
        if j < |ps| - 1 {
          assert init[j] == ps[j];
        }
      }
    }
  }
}
