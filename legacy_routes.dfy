/**
 * The older application's routes: ValueError and RuntimeError from the
 * service become HTTP errors; /by-city chooses 404 from the message text.
 */
module LegacyRoutes {
  import opened Wrappers
  import opened Json
  import opened Http
  import opened Coordinates
  import opened OpenWeather
  import opened LegacyService
  import opened Api

  /** GET /current: ValueError answers 422, RuntimeError 503, with the exception's text as detail. */
  function CurrentWeather(apiKey: string, lat: Number, lon: Number, send: Request -> Outcome): (r: RouteOutcome<LegacyError>)
    ensures var s := GetWeatherByCoordinates(apiKey, JNum(lat), JNum(lon), send);
            (r.Envelope? <==> s.Ok?) && (r.Envelope? ==> r.data == s.value)
    ensures var s := GetWeatherByCoordinates(apiKey, JNum(lat), JNum(lon), send);
            (r.HttpException? && r.status == UnprocessableContent <==> s.Err? && s.error.ValueError?)
            && (r.HttpException? && r.status == ServiceUnavailable <==> s.Err? && s.error.RuntimeError?)
    ensures var s := GetWeatherByCoordinates(apiKey, JNum(lat), JNum(lon), send);
            r.HttpException? ==> s.Err? && !s.error.Uncaught? && r.detail == s.error.message
    ensures r.HttpException? ==> r.status != NotFound
    ensures var s := GetWeatherByCoordinates(apiKey, JNum(lat), JNum(lon), send);
            r.Raises? <==> s.Err? && s.error.Uncaught?
    ensures r.Raises? ==> r.error == GetWeatherByCoordinates(apiKey, JNum(lat), JNum(lon), send).error
  {
    match GetWeatherByCoordinates(apiKey, JNum(lat), JNum(lon), send)
    case Ok(w) => Envelope(w)
    case Err(ValueError(m)) => HttpException(UnprocessableContent, m)
    case Err(RuntimeError(m)) => HttpException(ServiceUnavailable, m)
    case Err(e) => Raises(e)
  }

  /**
   * POST /by-city: a ValueError is 404 when its lower-cased text contains
   * "not found" and 422 otherwise; a RuntimeError is 503 whatever it says.
   */
  function WeatherByCity(apiKey: string, city: string, send: Request -> Outcome): (r: RouteOutcome<LegacyError>)
    ensures var s := GetWeatherByCity(apiKey, city, send);
            (r.Envelope? <==> s.Ok?) && (r.Envelope? ==> r.data == s.value)
    ensures var s := GetWeatherByCity(apiKey, city, send);
            r.HttpException? && r.status == NotFound <==>
              s.Err? && s.error.ValueError? && MentionsNotFound(s.error.message)
    ensures var s := GetWeatherByCity(apiKey, city, send);
            r.HttpException? && r.status == UnprocessableContent <==>
              s.Err? && s.error.ValueError? && !MentionsNotFound(s.error.message)
    ensures var s := GetWeatherByCity(apiKey, city, send);
            r.HttpException? && r.status == ServiceUnavailable <==> s.Err? && s.error.RuntimeError?
    ensures var s := GetWeatherByCity(apiKey, city, send);
            r.HttpException? ==> s.Err? && !s.error.Uncaught? && r.detail == s.error.message
    ensures var s := GetWeatherByCity(apiKey, city, send);
            r.Raises? <==> s.Err? && s.error.Uncaught?
    ensures r.Raises? ==> r.error == GetWeatherByCity(apiKey, city, send).error
  {
    match GetWeatherByCity(apiKey, city, send)
    case Ok(w) => Envelope(w)
    case Err(ValueError(m)) =>
      if MentionsNotFound(m) then HttpException(NotFound, m) else HttpException(UnprocessableContent, m)
    case Err(RuntimeError(m)) => HttpException(ServiceUnavailable, m)
    case Err(e) => Raises(e)
  }

  /** A city the geocoder does not know answers 404 "City not found: <city>". */
  lemma UnknownCityIs404(apiKey: string, city: string, send: Request -> Outcome)
    requires FetchLocation(send(GeocodingRequest(apiKey, city))) == Ok(NoMatch)
    ensures WeatherByCity(apiKey, city, send) == HttpException(NotFound, CityNotFoundMessage(city))
  {
    CityNotFoundMentionsNotFound(city);
  }

  /**
   * Geocoded coordinates that fail the range check answer 422 and not 404:
   * the range messages never mention "not found".
   */
  lemma OutOfRangeCityIs422(apiKey: string, city: string, send: Request -> Outcome, lat: Number, lon: Number)
    requires FetchLocation(send(GeocodingRequest(apiKey, city))) == Ok(Match(JNum(lat), JNum(lon)))
    requires DecimalText(lat.text) && DecimalText(lon.text)
    requires !CheckRanges(JNum(lat), JNum(lon)).Within?
    ensures WeatherByCity(apiKey, city, send).HttpException?
    ensures WeatherByCity(apiKey, city, send).status == UnprocessableContent
  {
    RangeMessagesSilent(lat, lon);
    var s := GetWeatherByCoordinates(apiKey, JNum(lat), JNum(lon), send);
    assert GetWeatherByCity(apiKey, city, send) == s;
    assert s == Err(ValueError(LatitudeMessage(lat))) || s == Err(ValueError(LongitudeMessage(lon)));
  }

  /**
   * Geocoded coordinates that the weather endpoint rejects with 400
   * answer 422 and not 404 as well.
   */
  lemma RejectedCityIs422(apiKey: string, city: string, geocoding: Outcome, lat: Number, lon: Number, body: Body)
    requires FetchLocation(geocoding) == Ok(Match(JNum(lat), JNum(lon)))
    requires DecimalText(lat.text) && DecimalText(lon.text)
    requires LatitudeInRange(lat.value) && LongitudeInRange(lon.value)
    ensures WeatherByCity(apiKey, city, TwoEndpoints(geocoding, Http(400, body))) ==
              HttpException(UnprocessableContent, InvalidCoordinatesMessage(lat, lon))
  {
    var send := TwoEndpoints(geocoding, Http(400, body));
    EndpointsApart(apiKey, city, lat, lon, geocoding, Http(400, body));
    InvalidCoordinatesMessageSilent(lat, lon);
    var s := GetWeatherByCoordinates(apiKey, JNum(lat), JNum(lon), send);
    assert GetWeatherByCity(apiKey, city, send) == s;
    assert s == Err(ValueError(InvalidCoordinatesMessage(lat, lon)));
  }

  /** A RuntimeError answers 503 even when its text mentions "not found". */
  lemma ConnectionFailureStays503(apiKey: string, city: string, send: Request -> Outcome)
    requires send(GeocodingRequest(apiKey, city)).NetworkError?
    ensures WeatherByCity(apiKey, city, send) ==
              HttpException(ServiceUnavailable, GeocodingConnectMessage(send(GeocodingRequest(apiKey, city)).message))
  {
  }
}
