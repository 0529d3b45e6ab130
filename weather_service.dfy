/**
 * The application service of the layered code: it checks the coordinates
 * and only then asks the weather provider, whose answer it returns as is.
 */
module WeatherService {
  import opened Wrappers
  import opened Json
  import opened Domain
  import opened Coordinates

  /**
   * The WeatherProvider protocol: weather for a pair of coordinates, or the
   * provider's exception. The service holds one, set at construction.
   */
  type Provider = (Number, Number) -> Result<WeatherData, WeatherError>

  /**
   * `_validate_coordinates`: nothing happens when both coordinates are in
   * range; otherwise InvalidCoordinatesError names the first bound that
   * failed, latitude before longitude, and the offending value.
   */
  function ValidateCoordinates(lat: Json, lon: Json): (r: Result<Coordinates, WeatherError>)
    ensures r.Ok? <==> lat.JNum? && lon.JNum? && LatitudeInRange(lat.n.value) && LongitudeInRange(lon.n.value)
    ensures r.Ok? ==> r.value == Coordinates(lat.n, lon.n)
    ensures lat.JNum? && !LatitudeInRange(lat.n.value) ==>
              r == Err(InvalidCoordinatesError(LatitudeMessage(lat.n)))
    ensures lat.JNum? && LatitudeInRange(lat.n.value) && lon.JNum? && !LongitudeInRange(lon.n.value) ==>
              r == Err(InvalidCoordinatesError(LongitudeMessage(lon.n)))
    ensures r.Err? ==> r.error.InvalidCoordinatesError? || r.error == Uncaught(TypeError)
    ensures CheckRanges(lat, lon).NotComparable? ==> r == Err(Uncaught(TypeError))
  {
    match CheckRanges(lat, lon)
    case Within(c) => Ok(c)
    case LatitudeOutOfRange(x) => Err(InvalidCoordinatesError(LatitudeMessage(x)))
    case LongitudeOutOfRange(x) => Err(InvalidCoordinatesError(LongitudeMessage(x)))
    case NotComparable => Err(Uncaught(TypeError))
  }

  /**
   * `get_weather_by_coordinates`: a failed check is the answer and the
   * provider is not asked; a passed check hands the same coordinates to the
   * provider, whose record or exception comes back unchanged.
   */
  function GetWeatherByCoordinates(lat: Json, lon: Json, provider: Provider): (r: Result<WeatherData, WeatherError>)
    ensures lat.JNum? && lon.JNum? && LatitudeInRange(lat.n.value) && LongitudeInRange(lon.n.value) ==>
              r == provider(lat.n, lon.n)
    ensures lat.JNum? && lon.JNum? && !(LatitudeInRange(lat.n.value) && LongitudeInRange(lon.n.value)) ==>
              r.Err? && r.error.InvalidCoordinatesError?
  {
    var c :- ValidateCoordinates(lat, lon);
    provider(c.lat, c.lon)
  }

  /** When the check fails, the answer is the same whatever the provider would have said. */
  lemma ProviderNotConsultedWhenInvalid(lat: Json, lon: Json, p: Provider, q: Provider)
    requires ValidateCoordinates(lat, lon).Err?
    ensures GetWeatherByCoordinates(lat, lon, p) == GetWeatherByCoordinates(lat, lon, q)
    ensures GetWeatherByCoordinates(lat, lon, p) == Err(ValidateCoordinates(lat, lon).error)
  {
  }

  /** The bounds are inclusive: all four corner values pass. */
  lemma BoundsInclusive(lat: Number, lon: Number)
    requires lat.value == 90.0 || lat.value == -90.0
    requires lon.value == 180.0 || lon.value == -180.0
    ensures ValidateCoordinates(JNum(lat), JNum(lon)) == Ok(Coordinates(lat, lon))
  {
  }
}
