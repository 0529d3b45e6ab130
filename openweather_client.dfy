/**
 * The layered code's provider client: it sends a request, reads the
 * answer, and turns every failure its except clauses catch into
 * InvalidCoordinatesError or WeatherAPIError. Exceptions those clauses
 * do not name (a TypeError while reading the body, a JSONDecodeError)
 * leave it as they are.
 */
module OpenWeatherClient {
  import opened Wrappers
  import opened Text
  import opened Json
  import opened Http
  import opened Domain
  import opened OpenWeather

  /** The except chain of `get_weather`, applied to what the request produced. */
  function TranslateWeather(lat: Number, lon: Number, outcome: Outcome): (r: Result<WeatherData, WeatherError>)
    ensures r.Ok? <==> FetchWeather(outcome).Ok?
    ensures r.Ok? ==> r.value == FetchWeather(outcome).value
    ensures r.Err? && r.error.InvalidCoordinatesError? <==> outcome.Http? && outcome.status == 400
    ensures r.Err? && r.error.InvalidCoordinatesError? ==> r.error.message == InvalidCoordinatesMessage(lat, lon)
    ensures outcome.Http? && !IsSuccess(outcome.status) && outcome.status != 400 ==>
              r == Err(WeatherAPIError(StatusMessage(outcome.status)))
    ensures outcome.NetworkError? ==> r == Err(WeatherAPIError(ConnectMessage(outcome.message)))
    ensures r.Err? && r.error.Uncaught? ==> outcome.Http? && IsSuccess(outcome.status)
    ensures var f := FetchWeather(outcome);
            f.Err? && f.error.Raised? && IsLookupError(f.error.cause) ==>
              r == Err(WeatherAPIError(FormatMessage(f.error.cause)))
    ensures r.Err? && r.error.Uncaught? ==>
              FetchWeather(outcome) == Err(Raised(r.error.cause)) && !IsLookupError(r.error.cause)
    ensures var f := FetchWeather(outcome);
            f.Err? && f.error.Raised? && !IsLookupError(f.error.cause) ==> r == Err(Uncaught(f.error.cause))
  {
    match FetchWeather(outcome)
    case Ok(w) => Ok(w)
    case Err(StatusError(code)) =>
      if code == 400 then Err(InvalidCoordinatesError(InvalidCoordinatesMessage(lat, lon)))
      else Err(WeatherAPIError(StatusMessage(code)))
    case Err(ConnectError(detail)) => Err(WeatherAPIError(ConnectMessage(detail)))
    case Err(Raised(e)) =>
      if IsLookupError(e) then Err(WeatherAPIError(FormatMessage(e))) else Err(Uncaught(e))
  }

  /** `get_weather`: one request to the current-weather endpoint, then its translation. */
  function GetWeather(apiKey: string, lat: Number, lon: Number, send: Request -> Outcome): (r: Result<WeatherData, WeatherError>)
    ensures var o := send(WeatherRequest(apiKey, lat, lon));
            r.Ok? <==> o.Http? && IsSuccess(o.status) && o.body.JsonBody? && ReadRecord(o.body.json).Ok?
    ensures var o := send(WeatherRequest(apiKey, lat, lon));
            r.Ok? ==> r.value == ReadRecord(o.body.json).value
    ensures var o := send(WeatherRequest(apiKey, lat, lon));
            r.Err? && r.error.InvalidCoordinatesError? <==> o.Http? && o.status == 400
    ensures var o := send(WeatherRequest(apiKey, lat, lon));
            r.Err? && r.error.Uncaught? ==> o.Http? && IsSuccess(o.status)
  {
    TranslateWeather(lat, lon, send(WeatherRequest(apiKey, lat, lon)))
  }

  /**
   * A successful answer is exactly a 2xx JSON body in which all seven
   * paths exist, and the record's fields are the values at those paths.
   */
  lemma WeatherRecordFromPaths(lat: Number, lon: Number, outcome: Outcome, w: WeatherData)
    ensures TranslateWeather(lat, lon, outcome) == Ok(w) <==>
              outcome.Http? && IsSuccess(outcome.status) && outcome.body.JsonBody?
              && var data := outcome.body.json;
                 Path(data, TempPath) == Ok(w.temperature) && Path(data, HumidityPath) == Ok(w.humidity)
                 && Path(data, WindSpeedPath) == Ok(w.windSpeed) && Path(data, DescriptionPath) == Ok(w.description)
                 && Path(data, CityPath) == Ok(w.city) && Path(data, LatPath) == Ok(w.lat) && Path(data, LonPath) == Ok(w.lon)
  {
  }

  /**
   * A missing key or an empty `weather` list in a 2xx body is reported as a
   * WeatherAPIError about the response format, and so is the first such
   * failure among the seven paths.
   */
  lemma MissingFieldIsFormatError(lat: Number, lon: Number, status: int, data: Json)
    requires IsSuccess(status)
    requires ReadRecord(data).Err? && IsLookupError(ReadRecord(data).error)
    ensures TranslateWeather(lat, lon, Http(status, JsonBody(data))) ==
              Err(WeatherAPIError(FormatMessage(ReadRecord(data).error)))
  {
  }

  /** Reading a body whose `weather` list is empty, all keys before it present, fails with IndexError. */
  lemma EmptyWeatherListRead(main: map<string, Json>, wind: map<string, Json>)
    requires "temp" in main && "humidity" in main && "speed" in wind
    ensures ReadRecord(JObj(map["main" := JObj(main), "wind" := JObj(wind), "weather" := JArr([])])) == Err(IndexError(false))
  {
    var data := JObj(map["main" := JObj(main), "wind" := JObj(wind), "weather" := JArr([])]);
    assert Path(data, TempPath).Ok? && Path(data, HumidityPath).Ok? && Path(data, WindSpeedPath).Ok?;
    assert Path(data, DescriptionPath) == Err(IndexError(false));
    assert RecordPaths[0] == TempPath && RecordPaths[1] == HumidityPath;
    assert RecordPaths[2] == WindSpeedPath && RecordPaths[3] == DescriptionPath;
    FirstFailingPathReported(data, 3);
  }

  /** An empty `weather` list, all other keys present: "list index out of range". */
  lemma EmptyWeatherList(lat: Number, lon: Number, main: map<string, Json>, wind: map<string, Json>)
    requires "temp" in main && "humidity" in main && "speed" in wind
    ensures TranslateWeather(lat, lon, Http(200, JsonBody(JObj(map["main" := JObj(main), "wind" := JObj(wind), "weather" := JArr([])]))))
            == Err(WeatherAPIError("Unexpected API response format: list index out of range"))
  {
    EmptyWeatherListRead(main, wind);
    MissingFieldIsFormatError(lat, lon, 200, JObj(map["main" := JObj(main), "wind" := JObj(wind), "weather" := JArr([])]));
    ListIndexFormatMessage();
  }

  lemma ListIndexFormatMessage()
    ensures FormatMessage(IndexError(false)) == "Unexpected API response format: list index out of range"
  {
  }

  /** The temperature, humidity and wind speed paths find their values in a London body. */
  lemma LondonMeasurementPaths(body: Json, main: Json, wind: Json)
    requires main == JObj(map["temp" := JNum(Number(21.5, "21.5")), "humidity" := JNum(Number(60.0, "60"))])
    requires wind == JObj(map["speed" := JNum(Number(3.2, "3.2"))])
    requires body.JObj? && "main" in body.fields && body.fields["main"] == main
    requires "wind" in body.fields && body.fields["wind"] == wind
    ensures Path(body, TempPath) == Ok(JNum(Number(21.5, "21.5")))
    ensures Path(body, HumidityPath) == Ok(JNum(Number(60.0, "60")))
    ensures Path(body, WindSpeedPath) == Ok(JNum(Number(3.2, "3.2")))
  {
    assert Subscript(body, Name("main")) == Ok(main) && Subscript(body, Name("wind")) == Ok(wind);
  }

  /** The description, city and coordinate paths find their values in a London body. */
  lemma LondonPlacePaths(body: Json, first: Json, coord: Json)
    requires first == JObj(map["description" := JStr("clear sky")])
    requires coord == JObj(map["lat" := JNum(Number(51.51, "51.51")), "lon" := JNum(Number(-0.13, "-0.13"))])
    requires body.JObj? && "weather" in body.fields && body.fields["weather"] == JArr([first])
    requires "name" in body.fields && body.fields["name"] == JStr("London")
    requires "coord" in body.fields && body.fields["coord"] == coord
    ensures Path(body, DescriptionPath) == Ok(JStr("clear sky"))
    ensures Path(body, CityPath) == Ok(JStr("London"))
    ensures Path(body, LatPath) == Ok(JNum(Number(51.51, "51.51")))
    ensures Path(body, LonPath) == Ok(JNum(Number(-0.13, "-0.13")))
  {
    assert Subscript(body, Name("weather")) == Ok(JArr([first])) && Subscript(body, Name("name")) == Ok(JStr("London"));
    assert Subscript(body, Name("coord")) == Ok(coord);
    assert Path(first, [Name("description")]) == Ok(JStr("clear sky"));
    assert Path(JArr([first]), [Position(0), Name("description")]) == Ok(JStr("clear sky"));
  }

  /**
   * A complete 200 answer for London: the record carries each value the
   * provider sent, under the field it came from.
   */
  lemma LondonRecord(lat: Number, lon: Number)
    ensures var temp, humidity, speed := JNum(Number(21.5, "21.5")), JNum(Number(60.0, "60")), JNum(Number(3.2, "3.2"));
            var cLat, cLon := JNum(Number(51.51, "51.51")), JNum(Number(-0.13, "-0.13"));
            var body := JObj(map[
              "main" := JObj(map["temp" := temp, "humidity" := humidity]),
              "wind" := JObj(map["speed" := speed]),
              "weather" := JArr([JObj(map["description" := JStr("clear sky")])]),
              "name" := JStr("London"),
              "coord" := JObj(map["lat" := cLat, "lon" := cLon])]);
            TranslateWeather(lat, lon, Http(200, JsonBody(body))) ==
              Ok(WeatherData(temp, humidity, speed, JStr("clear sky"), JStr("London"), cLat, cLon))
  {
    var temp, humidity, speed := JNum(Number(21.5, "21.5")), JNum(Number(60.0, "60")), JNum(Number(3.2, "3.2"));
    var cLat, cLon := JNum(Number(51.51, "51.51")), JNum(Number(-0.13, "-0.13"));
    var main, wind, coord := JObj(map["temp" := temp, "humidity" := humidity]), JObj(map["speed" := speed]), JObj(map["lat" := cLat, "lon" := cLon]);
    var first := JObj(map["description" := JStr("clear sky")]);
    var body := JObj(map["main" := main, "wind" := wind, "weather" := JArr([first]), "name" := JStr("London"), "coord" := coord]);
    LondonMeasurementPaths(body, main, wind);
    LondonPlacePaths(body, first, coord);
    WeatherRecordFromPaths(lat, lon, Http(200, JsonBody(body)), WeatherData(temp, humidity, speed, JStr("clear sky"), JStr("London"), cLat, cLon));
  }

  /** The geocoding except chain: every failure, a 400 included, is a WeatherAPIError. */
  function TranslateGeocoding(city: string, outcome: Outcome): (r: Result<(Json, Json), WeatherError>)
    ensures r.Err? ==> r.error.WeatherAPIError? || r.error.Uncaught?
    ensures r.Ok? <==> FetchLocation(outcome).Ok? && FetchLocation(outcome).value.Match?
    ensures r.Ok? ==> r.value == (FetchLocation(outcome).value.lat, FetchLocation(outcome).value.lon)
    ensures FetchLocation(outcome) == Ok(NoMatch) ==> r == Err(WeatherAPIError(CityNotFoundMessage(city)))
    ensures outcome.Http? && !IsSuccess(outcome.status) ==> r == Err(WeatherAPIError(GeocodingStatusMessage(outcome.status)))
    ensures outcome.NetworkError? ==> r == Err(WeatherAPIError(GeocodingConnectMessage(outcome.message)))
    ensures var f := FetchLocation(outcome);
            f.Err? && f.error.Raised? && IsLookupError(f.error.cause) ==>
              r == Err(WeatherAPIError(GeocodingFormatMessage(f.error.cause)))
    ensures r.Err? && r.error.Uncaught? ==>
              FetchLocation(outcome) == Err(Raised(r.error.cause)) && !IsLookupError(r.error.cause)
    ensures var f := FetchLocation(outcome);
            f.Err? && f.error.Raised? && !IsLookupError(f.error.cause) ==> r == Err(Uncaught(f.error.cause))
  {
    match FetchLocation(outcome)
    case Ok(NoMatch) => Err(WeatherAPIError(CityNotFoundMessage(city)))
    case Ok(Match(lat, lon)) => Ok((lat, lon))
    case Err(StatusError(code)) => Err(WeatherAPIError(GeocodingStatusMessage(code)))
    case Err(ConnectError(detail)) => Err(WeatherAPIError(GeocodingConnectMessage(detail)))
    case Err(Raised(e)) =>
      if IsLookupError(e) then Err(WeatherAPIError(GeocodingFormatMessage(e))) else Err(Uncaught(e))
  }

  /** A first candidate without "lat" is a format error that names the key: `'lat'`. */
  lemma MissingLatIsFormatError(city: string, status: int, lon: Json)
    requires IsSuccess(status)
    ensures TranslateGeocoding(city, Http(status, JsonBody(JArr([JObj(map["lon" := lon])])))) ==
              Err(WeatherAPIError("Unexpected geocoding response format: 'lat'"))
  {
    var data := JArr([JObj(map["lon" := lon])]);
    assert ReadLocation(data) == Err(KeyError(Name("lat")));
    assert FetchLocation(Http(status, JsonBody(data))) == Err(Raised(KeyError(Name("lat"))));
    LatFormatMessage();
  }

  lemma LatFormatMessage()
    ensures GeocodingFormatMessage(KeyError(Name("lat"))) == "Unexpected geocoding response format: 'lat'"
  {
  }

  /** `get_coordinates_by_city`: one request to the geocoding endpoint, then its translation. */
  function GetCoordinatesByCity(apiKey: string, city: string, send: Request -> Outcome): (r: Result<(Json, Json), WeatherError>)
    ensures r.Err? ==> r.error.WeatherAPIError? || r.error.Uncaught?
    ensures var g := FetchLocation(send(GeocodingRequest(apiKey, city)));
            (r.Ok? <==> g.Ok? && g.value.Match?) && (r.Ok? ==> r.value == (g.value.lat, g.value.lon))
    ensures FetchLocation(send(GeocodingRequest(apiKey, city))) == Ok(NoMatch) ==>
              r == Err(WeatherAPIError(CityNotFoundMessage(city)))
  {
    TranslateGeocoding(city, send(GeocodingRequest(apiKey, city)))
  }

  /** "City not found" is reported exactly for a 2xx body that Python finds falsy (an empty list among them). */
  lemma CityNotFoundExactly(city: string, outcome: Outcome)
    ensures TranslateGeocoding(city, outcome) == Err(WeatherAPIError(CityNotFoundMessage(city))) <==>
              outcome.Http? && IsSuccess(outcome.status) && outcome.body.JsonBody? && !Truthy(outcome.body.json)
  {
    var r := TranslateGeocoding(city, outcome);
    if r == Err(WeatherAPIError(CityNotFoundMessage(city))) {
      var m := CityNotFoundMessage(city);
      assert m[0] == 'C';
      assert GeocodingStatusMessage(0)[0] == 'G';
      assert GeocodingConnectMessage("")[0] == 'F';
      assert forall e: PyError | !e.TypeError? :: GeocodingFormatMessage(e)[0] == 'U';
    }
  }

  /** A non-empty list of candidates yields the first candidate's lat and lon; the rest are ignored. */
  lemma FirstCandidateWins(city: string, status: int, first: map<string, Json>, rest: seq<Json>)
    requires IsSuccess(status) && "lat" in first && "lon" in first
    ensures TranslateGeocoding(city, Http(status, JsonBody(JArr([JObj(first)] + rest)))) == Ok((first["lat"], first["lon"]))
  {
  }

  /** The client as the service's WeatherProvider: `get_weather` over a given transport and key. */
  function AsProvider(apiKey: string, send: Request -> Outcome): (p: (Number, Number) -> Result<WeatherData, WeatherError>)
    ensures forall lat: Number, lon: Number ::
              p(lat, lon) == TranslateWeather(lat, lon, send(WeatherRequest(apiKey, lat, lon)))
  {
    (lat: Number, lon: Number) => GetWeather(apiKey, lat, lon, send)
  }
}
