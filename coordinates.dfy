/**
 * The coordinate range check shared by both services: latitude in
 * [-90, 90], longitude in [-180, 180], bounds included, latitude first.
 */
module Coordinates {
  import opened Wrappers
  import opened Json

  datatype Coordinates = Coordinates(lat: Number, lon: Number)

  predicate LatitudeInRange(x: real) {
    -90.0 <= x <= 90.0
  }

  predicate LongitudeInRange(x: real) {
    -180.0 <= x <= 180.0
  }

  /** How the check `-90 <= lat <= 90`, then `-180 <= lon <= 180`, ends. */
  datatype RangeCheck =
    | Within(coordinates: Coordinates)
    | LatitudeOutOfRange(lat: Number)
    | LongitudeOutOfRange(lon: Number)
    | NotComparable  // Python raised TypeError comparing a non-number with an int

  /**
   * `-bound <= v <= bound` for a value that may have come from JSON. A
   * number compares; any other value makes Python raise TypeError (a
   * boolean, which Python compares as 0 or 1, is treated as such a value).
   */
  function WithinBound(v: Json, bound: real): Result<bool, PyError> {
    if v.JNum? then Ok(-bound <= v.n.value <= bound) else Err(TypeError)
  }

  function CheckRanges(lat: Json, lon: Json): (r: RangeCheck)
    ensures r.Within? <==> lat.JNum? && lon.JNum? && LatitudeInRange(lat.n.value) && LongitudeInRange(lon.n.value)
    ensures r.Within? ==> r.coordinates == Coordinates(lat.n, lon.n)
    ensures r.LatitudeOutOfRange? <==> lat.JNum? && !LatitudeInRange(lat.n.value)
    ensures r.LatitudeOutOfRange? ==> r.lat == lat.n
    ensures r.LongitudeOutOfRange? <==> lat.JNum? && LatitudeInRange(lat.n.value) && lon.JNum? && !LongitudeInRange(lon.n.value)
    ensures r.LongitudeOutOfRange? ==> r.lon == lon.n
  {
    match WithinBound(lat, 90.0)
    case Err(_) => NotComparable
    case Ok(false) => LatitudeOutOfRange(lat.n)
    case Ok(true) =>
      match WithinBound(lon, 180.0)
      case Err(_) => NotComparable
      case Ok(false) => LongitudeOutOfRange(lon.n)
      case Ok(true) => Within(Coordinates(lat.n, lon.n))
  }

  function LatitudeMessage(lat: Number): string {
    "Latitude must be between -90 and 90, got " + lat.text
  }

  function LongitudeMessage(lon: Number): string {
    "Longitude must be between -180 and 180, got " + lon.text
  }
}
