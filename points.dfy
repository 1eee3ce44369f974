/** Points handed to the spatial engine, and the slice of JavaScript values their
    fields can hold. */
module Points {
  import opened Numerics

  /** A JavaScript value as it can appear in a point's field. */
  datatype Scalar = Num(x: real) | NaN | Str(s: string) | Bool(b: bool) | Null | Undefined

  /** JavaScript truthiness. */
  predicate Truthy(v: Scalar) {
    match v
    case Num(x) => x != 0.0
    case NaN => false
    case Str(s) => s != ""
    case Bool(b) => b
    case Null => false
    case Undefined => false
  }

  /** `a || b`. */
  function Or(a: Scalar, b: Scalar): Scalar {
    if Truthy(a) then a else b
  }

  /** A prepared point: numeric coordinates and an attribute value of any kind. */
  datatype Point = Point(id: Scalar, lat: real, lng: real, value: Scalar)

  /** `haversineDistance(p.lat, p.lng, q.lat, q.lng)`. */
  function Distance(m: Math, p: Point, q: Point): real {
    m.haversine(p.lat, p.lng, q.lat, q.lng)
  }

  function Lats(ps: seq<Point>): (r: seq<real>)
    ensures |r| == |ps| && forall i :: 0 <= i < |ps| ==> r[i] == ps[i].lat
  {
    seq(|ps|, i requires 0 <= i < |ps| => ps[i].lat)
  }

  function Lngs(ps: seq<Point>): (r: seq<real>)
    ensures |r| == |ps| && forall i :: 0 <= i < |ps| ==> r[i] == ps[i].lng
  {
    seq(|ps|, i requires 0 <= i < |ps| => ps[i].lng)
  }
}
