/**
 * The geographic inputs of a discovery query and the nearest-first order. The
 * great-circle distance and its display label are not defined here: a
 * `Geometry` carries them as functions.
 */
module Geo {
  import opened Common
  import opened Ordering

  datatype Point = Point(lat: real, lng: real)

  /**
   * A JavaScript number that is finite or NaN: what parseFloat makes of a
   * non-empty query parameter, and what haversineKm returns.
   */
  datatype Parsed = Num(value: real) | NaN

  /** The `lat` and `lng` query parameters, both present and parsed. */
  datatype Origin = Origin(lat: Parsed, lng: Parsed)

  /**
   * haversineKm and the numeric part of formatDistance. The distance is NaN when
   * the floating-point arithmetic fails: a finite coordinate as large as 1e308
   * overflows the difference of latitudes to an infinity whose sine is NaN, and
   * near-antipodal points can round `1 - (s1 + s2)` below zero under the root.
   */
  datatype Geometry = Geometry(distanceKm: (Point, Point) -> Parsed, format: real -> string)

  /** The `x || 0` guard inside haversineKm, which turns NaN into 0. */
  function OrZero(p: Parsed): real {
    match p
    case Num(v) => v
    case NaN => 0.0
  }

  /** The point a query measures from. */
  function Here(o: Origin): Point {
    Point(OrZero(o.lat), OrZero(o.lng))
  }

  /** distanceKm of a record at (`lat`, `lng`): null unless both coordinates are numbers. */
  function DistanceFrom(geo: Geometry, here: Point, lat: Option<real>, lng: Option<real>): (d: Option<Parsed>)
    ensures d.Some? <==> lat.Some? && lng.Some?
  {
    if lat.Some? && lng.Some? then Some(geo.distanceKm(here, Point(lat.value, lng.value))) else None
  }

  /** formatDistance of a computed distance: null for NaN. */
  function Label(geo: Geometry, km: Parsed): (r: Option<string>)
    ensures r.None? <==> km.NaN?
  {
    match km
    case Num(v) => Some(geo.format(v))
    case NaN => None
  }

  /** `parseFloat(radiusKm || '25')`, where `None` stands for a missing or empty parameter. */
  function MaxRadius(radiusKm: Option<Parsed>): Parsed {
    match radiusKm
    case None => Num(25.0)
    case Some(p) => p
  }

  /** `distanceKm == null || distanceKm <= maxRadius`; every comparison with NaN is false. */
  predicate InRadius(distanceKm: Option<Parsed>, maxRadius: Parsed) {
    distanceKm.None? || (distanceKm.value.Num? && maxRadius.Num? && distanceKm.value.value <= maxRadius.value)
  }

  /** The radius test lets no NaN distance through. */
  predicate Measurable(distanceKm: Option<Parsed>) {
    distanceKm.None? || distanceKm.value.Num?
  }

  // ---------------------------------------------------------------------------
  // Nearest first: the comparator `(a, b) => (a.distanceKm ?? Infinity) - (b.distanceKm ?? Infinity)`

  /** `distanceKm ?? Infinity` as a sort key. */
  function DistanceKey(distanceKm: Option<Parsed>): Number {
    match distanceKm
    case None => Infinity
    case Some(p) => if p.Num? then Finite(p.value) else Number.NaN
  }

  /** The sort key of a record whose distance `dist` reads. */
  function ByDistance<T>(dist: T -> Option<Parsed>): T -> Number {
    x => DistanceKey(dist(x))
  }

  /** A record at distance `a` may come before one at distance `b`: `b` is missing, or both are numbers and `a <= b`. */
  predicate NoFurther(a: Option<Parsed>, b: Option<Parsed>) {
    b.None? || (a.Some? && a.value.Num? && b.value.Num? && a.value.value <= b.value.value)
  }

  /** Measured records by increasing distance, then every record without a distance. */
  ghost predicate NearestFirst<T>(s: seq<T>, dist: T -> Option<Parsed>) {
    forall i, j :: 0 <= i < j < |s| ==> NoFurther(dist(s[i]), dist(s[j]))
  }

  /** With no NaN distance, neighbour order under the comparator is nearest-first order. */
  lemma NearestFirstFromOrder<T>(s: seq<T>, dist: T -> Option<Parsed>)
    requires forall k :: 0 <= k < |s| ==> Measurable(dist(s[k]))
    requires AdjacentInOrder(s, ByDistance(dist))
    ensures NearestFirst(s, dist)
  {
    OrderedFromAdjacent(s, ByDistance(dist));
    forall i, j | 0 <= i < j < |s|
      ensures NoFurther(dist(s[i]), dist(s[j]))
    {
      assert InOrder(ByDistance(dist)(s[i]), ByDistance(dist)(s[j]));
    }
  }
}
