/**
 * The older single-file service: the same requests and readings as the
 * layered client, with ValueError for what the caller got wrong and
 * RuntimeError for what went wrong with the provider. The city lookup
 * chains into the coordinate lookup.
 */
module LegacyService {
  import opened Wrappers
  import opened Text
  import opened Json
  import opened Http
  import Domain
  import opened Coordinates
  import opened OpenWeather

  /** The exceptions the older service lets out. */
  datatype LegacyError =
    | ValueError(message: string)
    | RuntimeError(message: string)
    | Uncaught(cause: PyError)  // neither: a TypeError nothing catches

  /**
   * The except chain of `get_weather_by_coordinates`. A body that does not
   * decode raises JSONDecodeError, which is a ValueError and is not caught.
   */
  function TranslateWeather(lat: Number, lon: Number, outcome: Outcome): (r: Result<Domain.WeatherData, LegacyError>)
    ensures r.Ok? <==> FetchWeather(outcome).Ok?
    ensures r.Ok? ==> r.value == FetchWeather(outcome).value
    ensures outcome.Http? && outcome.status == 400 ==> r == Err(ValueError(InvalidCoordinatesMessage(lat, lon)))
    ensures outcome.Http? && !IsSuccess(outcome.status) && outcome.status != 400 ==>
              r == Err(RuntimeError(StatusMessage(outcome.status)))
    ensures outcome.NetworkError? ==> r == Err(RuntimeError(ConnectMessage(outcome.message)))
    ensures r.Err? && r.error.ValueError? <==>
              outcome.Http? && (outcome.status == 400 || (IsSuccess(outcome.status) && outcome.body.NotJson?))
    ensures var f := FetchWeather(outcome);
            f.Err? && f.error.Raised? && IsLookupError(f.error.cause) ==>
              r == Err(RuntimeError(FormatMessage(f.error.cause)))
    ensures outcome.Http? && IsSuccess(outcome.status) && outcome.body.NotJson? ==>
              r == Err(ValueError(outcome.body.detail))
    ensures r.Err? && r.error.Uncaught? ==>
              FetchWeather(outcome) == Err(Raised(r.error.cause)) && r.error.cause.TypeError?
    ensures var f := FetchWeather(outcome);
            f.Err? && f.error.Raised? && f.error.cause.TypeError? ==> r == Err(Uncaught(TypeError))
  {
    match FetchWeather(outcome)
    case Ok(w) => Ok(w)
    case Err(StatusError(code)) =>
      if code == 400 then Err(ValueError(InvalidCoordinatesMessage(lat, lon)))
      else Err(RuntimeError(StatusMessage(code)))
    case Err(ConnectError(detail)) => Err(RuntimeError(ConnectMessage(detail)))
    case Err(Raised(e)) =>
      if IsLookupError(e) then Err(RuntimeError(FormatMessage(e)))
      else if e.JSONDecodeError? then Err(ValueError(e.detail))
      else Err(Uncaught(e))
  }

  /**
   * `get_weather_by_coordinates`: the range check raises ValueError before
   * any request exists; otherwise one request and its translation.
   */
  function GetWeatherByCoordinates(apiKey: string, lat: Json, lon: Json, send: Request -> Outcome): (r: Result<Domain.WeatherData, LegacyError>)
    ensures lat.JNum? && !LatitudeInRange(lat.n.value) ==> r == Err(ValueError(LatitudeMessage(lat.n)))
    ensures lat.JNum? && LatitudeInRange(lat.n.value) && lon.JNum? && !LongitudeInRange(lon.n.value) ==>
              r == Err(ValueError(LongitudeMessage(lon.n)))
    ensures CheckRanges(lat, lon).Within? ==>
              r == TranslateWeather(lat.n, lon.n, send(WeatherRequest(apiKey, lat.n, lon.n)))
    ensures CheckRanges(lat, lon).NotComparable? ==> r == Err(Uncaught(TypeError))
  {
    match CheckRanges(lat, lon)
    case LatitudeOutOfRange(x) => Err(ValueError(LatitudeMessage(x)))
    case LongitudeOutOfRange(x) => Err(ValueError(LongitudeMessage(x)))
    case NotComparable => Err(Uncaught(TypeError))
    case Within(c) => TranslateWeather(c.lat, c.lon, send(WeatherRequest(apiKey, c.lat, c.lon)))
  }

  /** Out-of-range coordinates: the answer does not depend on the transport, so no request was sent. */
  lemma NoRequestWhenOutOfRange(apiKey: string, lat: Json, lon: Json, send1: Request -> Outcome, send2: Request -> Outcome)
    requires !CheckRanges(lat, lon).Within?
    ensures GetWeatherByCoordinates(apiKey, lat, lon, send1) == GetWeatherByCoordinates(apiKey, lat, lon, send2)
    ensures GetWeatherByCoordinates(apiKey, lat, lon, send1).Err?
  {
  }

  /**
   * `get_weather_by_city`: geocode, then chain into the coordinate lookup
   * with the first result. The try block's handlers turn geocoding
   * failures into RuntimeError; a ValueError is re-raised and a
   * RuntimeError from the chained call is not caught, so both pass through.
   */
  function GetWeatherByCity(apiKey: string, city: string, send: Request -> Outcome): (r: Result<Domain.WeatherData, LegacyError>)
    ensures FetchLocation(send(GeocodingRequest(apiKey, city))) == Ok(NoMatch) ==>
              r == Err(ValueError(CityNotFoundMessage(city)))
    ensures var g := FetchLocation(send(GeocodingRequest(apiKey, city)));
            g.Ok? && g.value.Match? ==> r == GetWeatherByCoordinates(apiKey, g.value.lat, g.value.lon, send)
    ensures var g := FetchLocation(send(GeocodingRequest(apiKey, city)));
            g.Err? && g.error.Raised? && g.error.cause.JSONDecodeError? ==> r == Err(ValueError(g.error.cause.detail))
    ensures var g := FetchLocation(send(GeocodingRequest(apiKey, city)));
            g.Err? && g.error.Raised? && g.error.cause.TypeError? ==> r == Err(Uncaught(TypeError))
    ensures var g := FetchLocation(send(GeocodingRequest(apiKey, city)));
            g.Err? && g.error.StatusError? ==> r == Err(RuntimeError(GeocodingStatusMessage(g.error.code)))
    ensures var g := FetchLocation(send(GeocodingRequest(apiKey, city)));
            g.Err? && g.error.ConnectError? ==> r == Err(RuntimeError(GeocodingConnectMessage(g.error.detail)))
    ensures var g := FetchLocation(send(GeocodingRequest(apiKey, city)));
            g.Err? && g.error.Raised? && IsLookupError(g.error.cause) ==>
              r == Err(RuntimeError(GeocodingFormatMessage(g.error.cause)))
  {
    match FetchLocation(send(GeocodingRequest(apiKey, city)))
    case Ok(NoMatch) => Err(ValueError(CityNotFoundMessage(city)))
    case Ok(Match(lat, lon)) => GetWeatherByCoordinates(apiKey, lat, lon, send)
    case Err(StatusError(code)) => Err(RuntimeError(GeocodingStatusMessage(code)))
    case Err(ConnectError(detail)) => Err(RuntimeError(GeocodingConnectMessage(detail)))
    case Err(Raised(e)) =>
      if IsLookupError(e) then Err(RuntimeError(GeocodingFormatMessage(e)))
      else if e.JSONDecodeError? then Err(ValueError(e.detail))
      else Err(Uncaught(e))
  }

  /**
   * Tokyo: after the geocoding request, exactly one weather request, for
   * the first candidate's coordinates, whose answer decides the result.
   */
  lemma TokyoChain(apiKey: string, send: Request -> Outcome, lat: Number, lon: Number)
    requires send(GeocodingRequest(apiKey, "Tokyo")) == Http(200, JsonBody(JArr([JObj(map["lat" := JNum(lat), "lon" := JNum(lon)])])))
    requires LatitudeInRange(lat.value) && LongitudeInRange(lon.value)
    ensures GetWeatherByCity(apiKey, "Tokyo", send) == TranslateWeather(lat, lon, send(WeatherRequest(apiKey, lat, lon)))
  {
    var data := JArr([JObj(map["lat" := JNum(lat), "lon" := JNum(lon)])]);
    assert ReadLocation(data) == Ok(Match(JNum(lat), JNum(lon)));
    assert FetchLocation(send(GeocodingRequest(apiKey, "Tokyo"))) == Ok(Match(JNum(lat), JNum(lon)));
    assert CheckRanges(JNum(lat), JNum(lon)).Within?;
  }

  lemma StatusMessageNamesGeocoding(code: int)
    ensures Contains(Lower(GeocodingStatusMessage(code)), "geocoding")
  {
    LowerSlice("Geocoding API error: ", "geocoding", 0);
    PrefixShows("Geocoding API error: ", IntText(code), "geocoding", 0);
  }

  lemma ConnectMessageNamesGeocoding(detail: string)
    ensures Contains(Lower(GeocodingConnectMessage(detail)), "geocoding")
  {
    LowerSlice("Failed to connect to geocoding API: ", "geocoding", 21);
    PrefixShows("Failed to connect to geocoding API: ", detail, "geocoding", 21);
  }

  lemma FormatMessageNamesGeocoding(e: PyError)
    requires IsLookupError(e)
    ensures Contains(Lower(GeocodingFormatMessage(e)), "geocoding")
  {
    LowerSlice("Unexpected geocoding response format: ", "geocoding", 11);
    PrefixShows("Unexpected geocoding response format: ", PyStr(e), "geocoding", 11);
  }

  /** Geocoding's HTTP, connection and format failures are each a RuntimeError that names geocoding. */
  lemma GeocodingFailuresNameGeocoding(apiKey: string, city: string, send: Request -> Outcome)
    requires var g := FetchLocation(send(GeocodingRequest(apiKey, city)));
             g.Err? && (g.error.StatusError? || g.error.ConnectError? || IsLookupError(g.error.cause))
    ensures var r := GetWeatherByCity(apiKey, city, send);
            r.Err? && r.error.RuntimeError? && Contains(Lower(r.error.message), "geocoding")
  {
    var g := FetchLocation(send(GeocodingRequest(apiKey, city)));
    match g.error
    case StatusError(code) => StatusMessageNamesGeocoding(code);
    case ConnectError(d) => ConnectMessageNamesGeocoding(d);
    case Raised(e) => FormatMessageNamesGeocoding(e);
  }
}
