/** The geodesic collaborators of the voyage engine. Great-circle
    interpolation, haversine distance and bearing are trigonometric; the
    model takes them as function values. The distance type admits only
    functions that are never negative; that the voyages' legs are positive
    is required separately, by the player. */
module Geodesic {

  datatype GeoPoint = GeoPoint(lat: real, lng: real)

  /** A distance in kilometres between (lat1, lng1) and (lat2, lng2). */
  type DistanceFn = f: (real, real, real, real) -> real
    | forall lat1, lng1, lat2, lng2 :: f(lat1, lng1, lat2, lng2) >= 0.0
    witness (lat1: real, lng1: real, lat2: real, lng2: real) => 0.0

  /** The point at fraction t of the great-circle arc from (lat1, lng1) to (lat2, lng2). */
  type GreatCircleFn = (real, real, real, real, real) -> GeoPoint

  /** The compass bearing in degrees from (lat1, lng1) towards (lat2, lng2). */
  type BearingFn = (real, real, real, real) -> real
}
