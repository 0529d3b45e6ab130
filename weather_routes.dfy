/**
 * The layered application's weather routes: each runs the service inside
 * a try block and maps the exception it catches to an HTTP status.
 */
module WeatherRoutes {
  import opened Wrappers
  import opened Json
  import opened Http
  import opened Domain
  import opened Coordinates
  import opened OpenWeather
  import opened WeatherService
  import opened OpenWeatherClient
  import opened Api

  /**
   * GET /current: the record inside the envelope, or 422 for
   * InvalidCoordinatesError and 503 for WeatherAPIError, the detail being
   * the exception's text. Any other exception goes through uncaught.
   */
  function CurrentWeather(lat: Number, lon: Number, provider: Provider): (r: RouteOutcome<WeatherError>)
    ensures var s := GetWeatherByCoordinates(JNum(lat), JNum(lon), provider);
            (r.Envelope? <==> s.Ok?) && (r.Envelope? ==> r.data == s.value)
    ensures r.HttpException? ==> r.status in {UnprocessableContent, ServiceUnavailable}
    ensures r.HttpException? && r.status == UnprocessableContent <==>
              GetWeatherByCoordinates(JNum(lat), JNum(lon), provider).Err?
              && GetWeatherByCoordinates(JNum(lat), JNum(lon), provider).error.InvalidCoordinatesError?
    ensures var s := GetWeatherByCoordinates(JNum(lat), JNum(lon), provider);
            r.HttpException? ==> s.Err? && s.error.IsAppException() && r.detail == s.error.message
    ensures var s := GetWeatherByCoordinates(JNum(lat), JNum(lon), provider);
            s.Err? && s.error.WeatherAPIError? ==> r == HttpException(ServiceUnavailable, s.error.message)
    ensures var s := GetWeatherByCoordinates(JNum(lat), JNum(lon), provider);
            r.Raises? <==> s.Err? && !s.error.InvalidCoordinatesError? && !s.error.WeatherAPIError?
    ensures r.Raises? ==> r.error == GetWeatherByCoordinates(JNum(lat), JNum(lon), provider).error
  {
    match GetWeatherByCoordinates(JNum(lat), JNum(lon), provider)
    case Ok(w) => Envelope(w)
    case Err(InvalidCoordinatesError(m)) => HttpException(UnprocessableContent, m)
    case Err(WeatherAPIError(m)) => HttpException(ServiceUnavailable, m)
    case Err(e) => Raises(e)
  }

  /** Out-of-range coordinates answer 422 with the range message, whatever the provider. */
  lemma CurrentOutOfRangeIs422(lat: Number, lon: Number, provider: Provider)
    requires !LatitudeInRange(lat.value)
    ensures CurrentWeather(lat, lon, provider) == HttpException(UnprocessableContent, LatitudeMessage(lat))
  {
  }

  /**
   * With the real client as provider, an HTTP 500 and a failed connection
   * both answer 503, and their details tell them apart.
   */
  lemma ServerErrorAndNetworkFailureAlike(apiKey: string, lat: Number, lon: Number,
                                          failing: Request -> Outcome, unreachable: Request -> Outcome)
    requires LatitudeInRange(lat.value) && LongitudeInRange(lon.value)
    requires failing(WeatherRequest(apiKey, lat, lon)).Http? && failing(WeatherRequest(apiKey, lat, lon)).status == 500
    requires unreachable(WeatherRequest(apiKey, lat, lon)).NetworkError?
    ensures var a := CurrentWeather(lat, lon, AsProvider(apiKey, failing));
            var b := CurrentWeather(lat, lon, AsProvider(apiKey, unreachable));
            a.HttpException? && b.HttpException? && a.status == b.status == ServiceUnavailable && a.detail != b.detail
  {
    var a := CurrentWeather(lat, lon, AsProvider(apiKey, failing));
    var b := CurrentWeather(lat, lon, AsProvider(apiKey, unreachable));
    assert a.detail == StatusMessage(500);
    assert b.detail == ConnectMessage(unreachable(WeatherRequest(apiKey, lat, lon)).message);
    assert a.detail[0] == 'W' && b.detail[0] == 'F';
  }

  /** The body of the /by-city try block: geocode, then the service on the pair geocoding returned. */
  function CityLookup(apiKey: string, city: string, send: Request -> Outcome, provider: Provider): (r: Result<WeatherData, WeatherError>)
    ensures var g := GetCoordinatesByCity(apiKey, city, send);
            (g.Ok? ==> r == GetWeatherByCoordinates(g.value.0, g.value.1, provider))
            && (g.Err? ==> r == Err(g.error))
  {
    var pair :- GetCoordinatesByCity(apiKey, city, send);
    GetWeatherByCoordinates(pair.0, pair.1, provider)
  }

  /**
   * Tokyo: one geocoding request, then the service is asked for exactly
   * the coordinates of the first candidate.
   */
  lemma TokyoChain(apiKey: string, send: Request -> Outcome, provider: Provider, lat: Number, lon: Number)
    requires send(GeocodingRequest(apiKey, "Tokyo")) == Http(200, JsonBody(JArr([JObj(map["lat" := JNum(lat), "lon" := JNum(lon)])])))
    ensures CityLookup(apiKey, "Tokyo", send, provider) == GetWeatherByCoordinates(JNum(lat), JNum(lon), provider)
  {
    FirstCandidateWins("Tokyo", 200, map["lat" := JNum(lat), "lon" := JNum(lon)], []);
    assert [JObj(map["lat" := JNum(lat), "lon" := JNum(lon)])] + [] == [JObj(map["lat" := JNum(lat), "lon" := JNum(lon)])];
  }

  /**
   * POST /by-city: a WeatherAPIError is 404 when its lower-cased text
   * contains "not found" and 503 otherwise; InvalidCoordinatesError is 422.
   */
  function WeatherByCity(apiKey: string, city: string, send: Request -> Outcome, provider: Provider): (r: RouteOutcome<WeatherError>)
    ensures var s := CityLookup(apiKey, city, send, provider);
            (r.Envelope? <==> s.Ok?) && (r.Envelope? ==> r.data == s.value)
    ensures var s := CityLookup(apiKey, city, send, provider);
            r.HttpException? && r.status == NotFound <==>
              s.Err? && s.error.WeatherAPIError? && MentionsNotFound(s.error.message)
    ensures var s := CityLookup(apiKey, city, send, provider);
            r.HttpException? && r.status == ServiceUnavailable <==>
              s.Err? && s.error.WeatherAPIError? && !MentionsNotFound(s.error.message)
    ensures var s := CityLookup(apiKey, city, send, provider);
            r.HttpException? && r.status == UnprocessableContent <==> s.Err? && s.error.InvalidCoordinatesError?
    ensures var s := CityLookup(apiKey, city, send, provider);
            r.HttpException? ==> s.Err? && s.error.IsAppException() && r.detail == s.error.message
    ensures var s := CityLookup(apiKey, city, send, provider);
            r.Raises? <==> s.Err? && !s.error.WeatherAPIError? && !s.error.InvalidCoordinatesError?
    ensures r.Raises? ==> r.error == CityLookup(apiKey, city, send, provider).error
  {
    match CityLookup(apiKey, city, send, provider)
    case Ok(w) => Envelope(w)
    case Err(WeatherAPIError(m)) =>
      if MentionsNotFound(m) then HttpException(NotFound, m) else HttpException(ServiceUnavailable, m)
    case Err(InvalidCoordinatesError(m)) => HttpException(UnprocessableContent, m)
    case Err(e) => Raises(e)
  }

  /** A city the geocoder does not know answers 404 "City not found: <city>". */
  lemma UnknownCityIs404(apiKey: string, city: string, send: Request -> Outcome, provider: Provider)
    requires FetchLocation(send(GeocodingRequest(apiKey, city))) == Ok(NoMatch)
    ensures WeatherByCity(apiKey, city, send, provider) == HttpException(NotFound, CityNotFoundMessage(city))
  {
    CityNotFoundMentionsNotFound(city);
  }

  /**
   * The 404 choice reads only the text: a failed connection to the
   * geocoder whose reason mentions "not found" answers 404 too.
   */
  lemma ConnectionFailureCanBe404(apiKey: string, city: string, send: Request -> Outcome, provider: Provider)
    requires send(GeocodingRequest(apiKey, city)).NetworkError?
    requires MentionsNotFound(send(GeocodingRequest(apiKey, city)).message)
    ensures WeatherByCity(apiKey, city, send, provider) ==
              HttpException(NotFound, GeocodingConnectMessage(send(GeocodingRequest(apiKey, city)).message))
  {
    ConnectDetailShows(send(GeocodingRequest(apiKey, city)).message);
  }

  /** Any error status from the geocoder, 404 included, answers 503. */
  lemma GeocodingStatusIs503(apiKey: string, city: string, send: Request -> Outcome, provider: Provider)
    requires send(GeocodingRequest(apiKey, city)).Http?
    requires !IsSuccess(send(GeocodingRequest(apiKey, city)).status)
    ensures WeatherByCity(apiKey, city, send, provider) ==
              HttpException(ServiceUnavailable, GeocodingStatusMessage(send(GeocodingRequest(apiKey, city)).status))
  {
    StatusMessagesSilent(send(GeocodingRequest(apiKey, city)).status);
  }

  /** With the real client as provider, an error status from the weather endpoint other than 400 answers 503. */
  lemma WeatherStatusIs503(apiKey: string, city: string, geocoding: Outcome, lat: Number, lon: Number, status: int, body: Body)
    requires TranslateGeocoding(city, geocoding) == Ok((JNum(lat), JNum(lon)))
    requires LatitudeInRange(lat.value) && LongitudeInRange(lon.value)
    requires !IsSuccess(status) && status != 400
    ensures var send := TwoEndpoints(geocoding, Http(status, body));
            WeatherByCity(apiKey, city, send, AsProvider(apiKey, send)) == HttpException(ServiceUnavailable, StatusMessage(status))
  {
    EndpointsApart(apiKey, city, lat, lon, geocoding, Http(status, body));
    StatusMessagesSilent(status);
  }
}
