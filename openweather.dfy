/**
 * The provider's side of the conversation, common to the layered client
 * and the older single-file service: the two requests, how a response is
 * read, and which failure the reading ends in before either caller turns
 * that failure into its own exception class.
 */
module OpenWeather {
  import opened Wrappers
  import opened Text
  import opened Json
  import opened Http
  import opened Domain

  const BaseUrl := "https://api.openweathermap.org/data/2.5"
  const GeocodingUrl := "https://api.openweathermap.org/geo/1.0/direct"

  /** The current-weather request: coordinates, the configured key, metric units. */
  function WeatherRequest(apiKey: string, lat: Number, lon: Number): (r: Request)
    ensures r.url == BaseUrl + "/weather"
    ensures Param(r, "lat") == Some(lat.text) && Param(r, "lon") == Some(lon.text)
    ensures Param(r, "appid") == Some(apiKey) && Param(r, "units") == Some("metric")
  {
    var ps := [("lat", lat.text), ("lon", lon.text), ("appid", apiKey), ("units", "metric")];
    assert "lat" != "lon" && "lat" != "appid" && "lat" != "units";
    assert "lon" != "appid" && "lon" != "units" && "appid" != "units";
    assert ParamIn(ps[3..], "units") == Some("metric");
    assert ParamIn(ps[2..], "appid") == Some(apiKey) && ParamIn(ps[2..], "units") == Some("metric");
    assert ParamIn(ps[1..], "lon") == Some(lon.text) && ParamIn(ps[1..], "appid") == Some(apiKey);
    assert ParamIn(ps[1..], "units") == Some("metric");
    Get(BaseUrl + "/weather", ps)
  }

  /** The geocoding request: the city as the query, the configured key, at most one result. */
  function GeocodingRequest(apiKey: string, city: string): (r: Request)
    ensures r.url == GeocodingUrl
    ensures Param(r, "q") == Some(city) && Param(r, "appid") == Some(apiKey) && Param(r, "limit") == Some("1")
  {
    var ps := [("q", city), ("appid", apiKey), ("limit", "1")];
    assert "q" != "appid" && "q" != "limit" && "appid" != "limit";
    assert ParamIn(ps[2..], "limit") == Some("1");
    assert ParamIn(ps[1..], "appid") == Some(apiKey) && ParamIn(ps[1..], "limit") == Some("1");
    Get(GeocodingUrl, ps)
  }

  /** A transport that answers the geocoding endpoint with one outcome and every other request with another. */
  function TwoEndpoints(geocoding: Outcome, weather: Outcome): Request -> Outcome {
    (r: Request) => if r.url == GeocodingUrl then geocoding else weather
  }

  lemma EndpointsApart(apiKey: string, city: string, lat: Number, lon: Number, geocoding: Outcome, weather: Outcome)
    ensures TwoEndpoints(geocoding, weather)(GeocodingRequest(apiKey, city)) == geocoding
    ensures TwoEndpoints(geocoding, weather)(WeatherRequest(apiKey, lat, lon)) == weather
  {
    assert |WeatherRequest(apiKey, lat, lon).url| != |GeocodingUrl|;
  }

  // The message texts both services give to the failures below.

  function InvalidCoordinatesMessage(lat: Number, lon: Number): string {
    "Invalid coordinates: lat=" + lat.text + ", lon=" + lon.text
  }

  function StatusMessage(code: int): string {
    "Weather API error: " + IntText(code)
  }

  function ConnectMessage(detail: string): string {
    "Failed to connect to weather API: " + detail
  }

  function FormatMessage(e: PyError): string
    requires !e.TypeError?
  {
    "Unexpected API response format: " + PyStr(e)
  }

  function CityNotFoundMessage(city: string): string {
    "City not found: " + city
  }

  function GeocodingStatusMessage(code: int): string {
    "Geocoding API error: " + IntText(code)
  }

  function GeocodingConnectMessage(detail: string): string {
    "Failed to connect to geocoding API: " + detail
  }

  function GeocodingFormatMessage(e: PyError): string
    requires !e.TypeError?
  {
    "Unexpected geocoding response format: " + PyStr(e)
  }

  /** Why reading a response did not produce a value, before any exception class is chosen. */
  datatype Failure =
    | StatusError(code: int)        // raise_for_status raised HTTPStatusError
    | ConnectError(detail: string)  // no response: httpx.RequestError
    | Raised(cause: PyError)        // decoding or reading the body raised

  const TempPath := [Name("main"), Name("temp")]
  const HumidityPath := [Name("main"), Name("humidity")]
  const WindSpeedPath := [Name("wind"), Name("speed")]
  const DescriptionPath := [Name("weather"), Position(0), Name("description")]
  const CityPath := [Name("name")]
  const LatPath := [Name("coord"), Name("lat")]
  const LonPath := [Name("coord"), Name("lon")]

  /** The seven paths of the record's fields, in the order the constructor's arguments evaluate them. */
  const RecordPaths := [TempPath, HumidityPath, WindSpeedPath, DescriptionPath, CityPath, LatPath, LonPath]

  /**
   * Evaluates the paths in order. Either all of them succeed and the values
   * line up with the paths, or the error is that of the first failing path.
   */
  function ReadPaths(data: Json, paths: seq<seq<Key>>): (r: Result<seq<Json>, PyError>)
    ensures r.Ok? ==> |r.value| == |paths|
    ensures r.Ok? ==> forall i :: 0 <= i < |paths| ==> Path(data, paths[i]) == Ok(r.value[i])
    ensures r.Err? ==> exists i :: 0 <= i < |paths| && Path(data, paths[i]) == Err(r.error)
                                   && forall j :: 0 <= j < i ==> Path(data, paths[j]).Ok?
  {
    if paths == [] then Ok([])
    else
      var v :- Path(data, paths[0]);
      var rest := ReadPaths(data, paths[1..]);
      if rest.Err? then
        var i :| 0 <= i < |paths| - 1 && Path(data, paths[1..][i]) == Err(rest.error)
                 && forall j :: 0 <= j < i ==> Path(data, paths[1..][j]).Ok?;
        assert Path(data, paths[i + 1]) == Err(rest.error);
        assert forall j :: 1 <= j < i + 1 ==> Path(data, paths[j]) == Path(data, paths[1..][j - 1]);
        Err(rest.error)
      else
        Ok([v] + rest.value)
  }

  /** Builds the record from a decoded body, as the WeatherData(...) call in both services does. */
  function ReadRecord(data: Json): (r: Result<WeatherData, PyError>)
    ensures r.Ok? <==> Path(data, TempPath).Ok? && Path(data, HumidityPath).Ok? && Path(data, WindSpeedPath).Ok?
                       && Path(data, DescriptionPath).Ok? && Path(data, CityPath).Ok?
                       && Path(data, LatPath).Ok? && Path(data, LonPath).Ok?
    ensures r.Ok? ==> r.value == WeatherData(
                        Path(data, TempPath).value, Path(data, HumidityPath).value,
                        Path(data, WindSpeedPath).value, Path(data, DescriptionPath).value,
                        Path(data, CityPath).value, Path(data, LatPath).value, Path(data, LonPath).value)
    ensures r.Err? ==> exists i :: 0 <= i < |RecordPaths| && Path(data, RecordPaths[i]) == Err(r.error)
                                   && forall j :: 0 <= j < i ==> Path(data, RecordPaths[j]).Ok?
  {
    assert RecordPaths[0] == TempPath && RecordPaths[1] == HumidityPath && RecordPaths[2] == WindSpeedPath;
    assert RecordPaths[3] == DescriptionPath && RecordPaths[4] == CityPath;
    assert RecordPaths[5] == LatPath && RecordPaths[6] == LonPath;
    var vs :- ReadPaths(data, RecordPaths);
    Ok(WeatherData(vs[0], vs[1], vs[2], vs[3], vs[4], vs[5], vs[6]))
  }

  /**
   * Fields are read in declaration order: the error reported is that of the
   * first path that fails, whatever the later paths would have done.
   */
  lemma FirstFailingPathReported(data: Json, k: nat)
    requires k < |RecordPaths|
    requires forall j :: 0 <= j < k ==> Path(data, RecordPaths[j]).Ok?
    requires Path(data, RecordPaths[k]).Err?
    ensures ReadRecord(data) == Err(Path(data, RecordPaths[k]).error)
  {
    var r := ReadRecord(data);
    assert RecordPaths[0] == TempPath && RecordPaths[1] == HumidityPath && RecordPaths[2] == WindSpeedPath;
    assert RecordPaths[3] == DescriptionPath && RecordPaths[4] == CityPath;
    assert RecordPaths[5] == LatPath && RecordPaths[6] == LonPath;
    assert r.Err?;
    var i :| 0 <= i < |RecordPaths| && Path(data, RecordPaths[i]) == Err(r.error)
             && forall j :: 0 <= j < i ==> Path(data, RecordPaths[j]).Ok?;
    assert i == k;
  }

  /** Reads a current-weather response: status check, decoding, then the record. */
  function FetchWeather(outcome: Outcome): (r: Result<WeatherData, Failure>)
    ensures r.Ok? <==> outcome.Http? && IsSuccess(outcome.status) && outcome.body.JsonBody?
                       && ReadRecord(outcome.body.json).Ok?
    ensures r.Ok? ==> r.value == ReadRecord(outcome.body.json).value
    ensures r.Err? && r.error.StatusError? <==> outcome.Http? && !IsSuccess(outcome.status)
    ensures r.Err? && r.error.StatusError? ==> r.error.code == outcome.status
    ensures r.Err? && r.error.ConnectError? <==> outcome.NetworkError?
    ensures outcome.Http? && IsSuccess(outcome.status) && outcome.body.NotJson? ==>
              r == Err(Raised(JSONDecodeError(outcome.body.detail)))
    ensures outcome.Http? && IsSuccess(outcome.status) && outcome.body.JsonBody? && ReadRecord(outcome.body.json).Err? ==>
              r == Err(Raised(ReadRecord(outcome.body.json).error)) && !ReadRecord(outcome.body.json).error.JSONDecodeError?
  {
    match outcome
    case NetworkError(msg) => Err(ConnectError(msg))
    case Http(status, body) =>
      if !IsSuccess(status) then Err(StatusError(status))
      else match body
        case NotJson(detail) => Err(Raised(JSONDecodeError(detail)))
        case JsonBody(data) =>
          match ReadRecord(data)
          case Ok(w) => Ok(w)
          case Err(e) => Err(Raised(e))
  }

  /** What a decoded geocoding body says: no match, or the first result's coordinates. */
  datatype Geocoded = NoMatch | Match(lat: Json, lon: Json)

  /**
   * `if not data or len(data) == 0`, then `data[0]["lat"]`, `data[0]["lon"]`.
   * For a value that is truthy and sized, `len` is never 0.
   */
  function ReadLocation(data: Json): (r: Result<Geocoded, PyError>)
    ensures r == Ok(NoMatch) <==> !Truthy(data)
    ensures r.Ok? && r.value.Match? <==>
              data.JArr? && |data.items| > 0 && data.items[0].JObj?
              && "lat" in data.items[0].fields && "lon" in data.items[0].fields
    ensures r.Ok? && r.value.Match? ==>
              r.value == Match(data.items[0].fields["lat"], data.items[0].fields["lon"])
    ensures Truthy(data) && !Sized(data) ==> r == Err(TypeError)
    ensures Truthy(data) && data.JObj? ==> r == Err(KeyError(Position(0)))
    ensures Truthy(data) && data.JStr? ==> r == Err(TypeError)
    ensures data.JArr? && |data.items| > 0 && !data.items[0].JObj? ==> r == Err(TypeError)
    ensures data.JArr? && |data.items| > 0 && data.items[0].JObj? && "lat" !in data.items[0].fields ==>
              r == Err(KeyError(Name("lat")))
    ensures data.JArr? && |data.items| > 0 && data.items[0].JObj? && "lat" in data.items[0].fields
              && "lon" !in data.items[0].fields ==>
              r == Err(KeyError(Name("lon")))
  {
    if !Truthy(data) then Ok(NoMatch)
    else if !Sized(data) then Err(TypeError)
    else
      var location :- Subscript(data, Position(0));
      var lat :- Subscript(location, Name("lat"));
      var lon :- Subscript(location, Name("lon"));
      Ok(Match(lat, lon))
  }

  /** Reads a geocoding response: status check, decoding, then the first location. */
  function FetchLocation(outcome: Outcome): (r: Result<Geocoded, Failure>)
    ensures r.Ok? <==> outcome.Http? && IsSuccess(outcome.status) && outcome.body.JsonBody?
                       && ReadLocation(outcome.body.json).Ok?
    ensures r.Ok? ==> r.value == ReadLocation(outcome.body.json).value
    ensures r.Err? && r.error.StatusError? <==> outcome.Http? && !IsSuccess(outcome.status)
    ensures r.Err? && r.error.StatusError? ==> r.error.code == outcome.status
    ensures r.Err? && r.error.ConnectError? <==> outcome.NetworkError?
    ensures outcome.Http? && IsSuccess(outcome.status) && outcome.body.NotJson? ==>
              r == Err(Raised(JSONDecodeError(outcome.body.detail)))
    ensures outcome.Http? && IsSuccess(outcome.status) && outcome.body.JsonBody? && ReadLocation(outcome.body.json).Err? ==>
              r == Err(Raised(ReadLocation(outcome.body.json).error))
  {
    match outcome
    case NetworkError(msg) => Err(ConnectError(msg))
    case Http(status, body) =>
      if !IsSuccess(status) then Err(StatusError(status))
      else match body
        case NotJson(detail) => Err(Raised(JSONDecodeError(detail)))
        case JsonBody(data) =>
          match ReadLocation(data)
          case Ok(g) => Ok(g)
          case Err(e) => Err(Raised(e))
  }

  /** Geocoding reads only the first candidate: whatever follows it is ignored. */
  lemma LaterCandidatesIgnored(first: Json, rest1: seq<Json>, rest2: seq<Json>)
    ensures ReadLocation(JArr([first] + rest1)) == ReadLocation(JArr([first] + rest2))
  {
  }
}
