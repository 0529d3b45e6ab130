/**
 * The browser dashboard component: the classification of the current
 * conditions into a background class, an icon and a text colour, and the
 * component state that the city and coordinate searches update.
 */
module WeatherApp {
  import opened Wrappers
  import opened Text

  /** An hour of the local clock, as `Date.getHours()` returns it. */
  type Hour = h: int | 0 <= h < 24

  /** The two fields of the displayed record that the classification reads. */
  datatype WeatherView = WeatherView(temperature: real, description: string)

  /** 6 pm to 6 am. */
  predicate IsNight(hour: Hour) {
    hour < 6 || hour >= 18
  }

  const ColdKeywords: seq<string> := ["snow", "sleet", "ice", "freezing", "frost", "blizzard"]

  const RainyKeywords: seq<string> := [
    "rain", "drizzle", "shower", "downpour", "precipitation",
    "cloud", "cloudy", "overcast", "grey", "gray",
    "mist", "fog", "haze", "smoke", "dust",
    "thunderstorm", "storm", "squall"
  ]

  /** `description.toLowerCase().includes(keyword)`. */
  predicate Mentions(description: string, keyword: string) {
    Contains(Lower(description), keyword)
  }

  /** `keywords.some(k => desc.includes(k))` on the lower-cased description. */
  function AnyKeyword(description: string, keywords: seq<string>): (r: bool)
    ensures r <==> exists i :: 0 <= i < |keywords| && Mentions(description, keywords[i])
  {
    if keywords == [] then false
    else Mentions(description, keywords[0]) || AnyKeyword(description, keywords[1..])
  }

  /** Below 10 degrees Celsius, or a cold keyword. */
  predicate IsCold(w: WeatherView) {
    w.temperature < 10.0 || AnyKeyword(w.description, ColdKeywords)
  }

  /** The background class, by priority night, cold, rainy, sunny. */
  function WeatherClass(weather: Option<WeatherView>, hour: Hour): (r: string)
    ensures r in {"weather-sunny", "weather-night", "weather-cold", "weather-rainy"}
    ensures weather.None? ==> r == "weather-sunny"
    ensures weather.Some? ==> (r == "weather-night" <==> IsNight(hour))
    ensures weather.Some? && !IsNight(hour) ==> (r == "weather-cold" <==> IsCold(weather.value))
    ensures weather.Some? && !IsNight(hour) && !IsCold(weather.value) ==>
              (r == "weather-rainy" <==> AnyKeyword(weather.value.description, RainyKeywords))
  {
    match weather
    case None => "weather-sunny"
    case Some(w) =>
      if IsNight(hour) then "weather-night"
      else if IsCold(w) then "weather-cold"
      else if AnyKeyword(w.description, RainyKeywords) then "weather-rainy"
      else "weather-sunny"
  }

  /** In daytime a cold keyword gives the cold class, even when a rainy keyword is present too. */
  lemma {:induction false} ColdKeywordBeatsRain(w: WeatherView, hour: Hour, k: nat)
    requires !IsNight(hour) && k < |ColdKeywords| && Mentions(w.description, ColdKeywords[k])
    ensures WeatherClass(Some(w), hour) == "weather-cold"
  {
    assert AnyKeyword(w.description, ColdKeywords);
  }

  /** The icon names the component can show. */
  const Icons: set<string> := {
    "sun", "moon", "cloud", "cloud-moon", "cloud-lightning", "snowflake",
    "cloud-snow", "cloud-rain-wind", "cloud-rain", "cloud-fog", "wind"
  }

  /** Thunderstorm, or a storm without rain. */
  predicate Stormy(description: string) {
    Mentions(description, "thunderstorm") || (Mentions(description, "storm") && !Mentions(description, "rain"))
  }

  predicate Snowy(d: string) { Mentions(d, "snow") || Mentions(d, "blizzard") }
  predicate Icy(d: string) { Mentions(d, "sleet") || Mentions(d, "ice") || Mentions(d, "freezing") }
  predicate HeavyRain(d: string) { Mentions(d, "heavy") && Mentions(d, "rain") }
  predicate Showery(d: string) { Mentions(d, "rain") || Mentions(d, "drizzle") || Mentions(d, "shower") }
  predicate Foggy(d: string) { Mentions(d, "fog") || Mentions(d, "mist") || Mentions(d, "haze") }
  predicate Dusty(d: string) { Mentions(d, "dust") || Mentions(d, "smoke") || Mentions(d, "sand") }

  /** None of the tests before the cloud test matches. */
  predicate NoSpecialWeather(d: string) {
    !Stormy(d) && !Snowy(d) && !Icy(d) && !HeavyRain(d) && !Showery(d) && !Foggy(d) && !Dusty(d)
  }

  /**
   * The icon of the first matching test, most specific first; only the
   * cloud, clear and default tests consult the hour. The clear test gives
   * the same icon as the default, so the two are one branch here.
   */
  function WeatherIcon(weather: Option<WeatherView>, hour: Hour): (r: string)
    ensures r in Icons
    ensures weather.None? ==> r == "sun"
    ensures weather.Some? ==> (r == "cloud-lightning" <==> Stormy(weather.value.description))
    ensures weather.Some? && !Stormy(weather.value.description) ==>
              (r == "snowflake" <==> Snowy(weather.value.description))
    ensures weather.Some? && !Stormy(weather.value.description) && !Snowy(weather.value.description) ==>
              (r == "cloud-snow" <==> Icy(weather.value.description))
    ensures weather.Some? && !Stormy(weather.value.description) && !Snowy(weather.value.description)
              && !Icy(weather.value.description) ==>
              (r == "cloud-rain-wind" <==> HeavyRain(weather.value.description))
    ensures weather.Some? && !Stormy(weather.value.description) && !Snowy(weather.value.description)
              && !Icy(weather.value.description) && !HeavyRain(weather.value.description) ==>
              (r == "cloud-rain" <==> Showery(weather.value.description))
    ensures weather.Some? && !Stormy(weather.value.description) && !Snowy(weather.value.description)
              && !Icy(weather.value.description) && !HeavyRain(weather.value.description)
              && !Showery(weather.value.description) ==>
              (r == "cloud-fog" <==> Foggy(weather.value.description))
    ensures weather.Some? && !Stormy(weather.value.description) && !Snowy(weather.value.description)
              && !Icy(weather.value.description) && !HeavyRain(weather.value.description)
              && !Showery(weather.value.description) && !Foggy(weather.value.description) ==>
              (r == "wind" <==> Dusty(weather.value.description))
    ensures weather.Some? && NoSpecialWeather(weather.value.description) ==>
              (r in {"cloud", "cloud-moon"} <==> Mentions(weather.value.description, "cloud"))
              && (r in {"moon", "cloud-moon"} <==> IsNight(hour))
              && r in {"cloud", "cloud-moon", "moon", "sun"}
  {
    match weather
    case None => "sun"
    case Some(w) =>
      var d := w.description;
      if Stormy(d) then "cloud-lightning"
      else if Snowy(d) then "snowflake"
      else if Icy(d) then "cloud-snow"
      else if HeavyRain(d) then "cloud-rain-wind"
      else if Showery(d) then "cloud-rain"
      else if Foggy(d) then "cloud-fog"
      else if Dusty(d) then "wind"
      else if Mentions(d, "cloud") then (if IsNight(hour) then "cloud-moon" else "cloud")
      else if IsNight(hour) then "moon"
      else "sun"
  }

  /** The night form of a daytime icon: cloud and sun change, every other icon stays. */
  function NightVariant(icon: string): (r: string)
    ensures icon !in {"cloud", "sun"} ==> r == icon
    ensures icon == "cloud" ==> r == "cloud-moon"
    ensures icon == "sun" ==> r == "moon"
  {
    if icon == "cloud" then "cloud-moon" else if icon == "sun" then "moon" else icon
  }

  /**
   * The hour changes the icon only in the cloud, clear and default
   * branches: the night icon is the night form of the day icon.
   */
  lemma IconByHour(weather: Option<WeatherView>, day: Hour, night: Hour)
    requires weather.Some? && !IsNight(day) && IsNight(night)
    ensures WeatherIcon(weather, night) == NightVariant(WeatherIcon(weather, day))
    ensures WeatherIcon(weather, day) !in {"cloud", "sun"} ==> WeatherIcon(weather, night) == WeatherIcon(weather, day)
  {
  }

  /** The storm test comes first: a thunderstorm with snow or rain still shows lightning. */
  lemma ThunderstormFirst(w: WeatherView, hour: Hour)
    requires Mentions(w.description, "thunderstorm")
    ensures WeatherIcon(Some(w), hour) == "cloud-lightning"
  {
  }

  /**
   * "Rain and Snow" at noon, 15 degrees: cold wins over rainy for the
   * class, and the snow test comes before the rain test for the icon.
   */
  lemma RainAndSnowAtNoon()
    ensures WeatherClass(Some(WeatherView(15.0, "Rain and Snow")), 12) == "weather-cold"
    ensures WeatherIcon(Some(WeatherView(15.0, "Rain and Snow")), 12) == "snowflake"
  {
    var d := "Rain and Snow";
    LowerSlice(d, "snow", 9);
    ContainsAt(Lower(d), "snow", 9);
    ColdKeywordBeatsRain(WeatherView(15.0, d), 12, 0);
    assert forall j :: 0 <= j < |Lower(d)| ==> Lower(d)[j] != 't';
    MissingCharExcludes(Lower(d), "storm", 1);
    MissingCharExcludes(Lower(d), "thunderstorm", 0);
  }

  /** White text on the night background, dark grey otherwise. */
  function TextColorClass(weather: Option<WeatherView>, hour: Hour): (r: string)
    ensures r in {"text-white", "text-gray-800"}
    ensures r == "text-white" <==> WeatherClass(weather, hour) == "weather-night"
  {
    if WeatherClass(weather, hour) == "weather-night" then "text-white" else "text-gray-800"
  }

  /** With a record shown, the text is white exactly at night. */
  lemma WhiteTextAtNight(w: WeatherView, hour: Hour)
    ensures TextColorClass(Some(w), hour) == "text-white" <==> IsNight(hour)
  {
  }

  /** What a failed request throws: its message, and the city-not-found marker with its city. */
  datatype JsError = JsError(message: string, isCityNotFound: bool, city: string)

  /** A request's result: the `data` member of the body (possibly absent), or the thrown error. */
  datatype ApiReply = Fetched(data: Option<WeatherView>) | Failed(err: JsError)

  const EnterCityMessage := "Please enter a city name"
  const FetchFailedMessage := "Failed to fetch weather data"

  function CityNotFoundText(city: string): string {
    "City \"" + city + "\" not found. Please check the spelling and try again."
  }

  /** `!city || !city.trim()`: empty, or nothing but whitespace. */
  predicate Blank(city: string) {
    city == [] || Trim(city) == []
  }

  lemma BlankIsAllWhitespace(city: string)
    ensures Blank(city) <==> forall i :: 0 <= i < |city| ==> IsSpace(city[i])
  {
    BlankIffAllSpace(city);
  }

  /** `error.message || fallback`: an empty message is replaced. */
  function MessageOr(message: string, fallback: string): string {
    if message != [] then message else fallback
  }

  /** The error a failed city search shows; it is never empty. */
  function CityFailureText(e: JsError, city: string): (r: string)
    ensures r != []
    ensures e.isCityNotFound ==> r == CityNotFoundText(MessageOr(e.city, city))
    ensures !e.isCityNotFound && e.message != [] ==> r == e.message
    ensures !e.isCityNotFound && e.message == [] ==> r == FetchFailedMessage
  {
    if e.isCityNotFound then CityNotFoundText(MessageOr(e.city, city))
    else MessageOr(e.message, FetchFailedMessage)
  }

  /** The component's reactive fields, as one value. */
  datatype ComponentState = ComponentState(
    weather: Option<WeatherView>,
    loading: bool,
    error: Option<string>,
    cityInput: string,
    weatherIcon: string)

  /** The fields' initial values. */
  const InitialState := ComponentState(None, false, None, "", "sun")

  /**
   * What `fetchWeatherByCity` leaves behind, from entry to completion. A
   * blank city only sets the error. Otherwise the trimmed name is looked
   * up: success shows the record and its icon and clears the input and
   * the error; failure keeps the record, the icon and the input and shows
   * why. Loading is off at the end of either.
   */
  function CitySearch(s: ComponentState, city: string, api: string -> ApiReply, hour: Hour): (r: ComponentState)
    ensures Blank(city) ==> r == s.(error := Some(EnterCityMessage))
    ensures !Blank(city) ==> !r.loading
    ensures !Blank(city) && api(Trim(city)).Fetched? ==>
              r.weather == api(Trim(city)).data && r.weatherIcon == WeatherIcon(r.weather, hour)
              && r.cityInput == "" && r.error == None
    ensures !Blank(city) && api(Trim(city)).Failed? ==>
              r.weather == s.weather && r.weatherIcon == s.weatherIcon && r.cityInput == s.cityInput
              && r.error == Some(CityFailureText(api(Trim(city)).err, Trim(city)))
  {
    if Blank(city) then s.(error := Some(EnterCityMessage))
    else match api(Trim(city))
      case Fetched(data) =>
        s.(weather := data, weatherIcon := WeatherIcon(data, hour), cityInput := "", loading := false, error := None)
      case Failed(e) =>
        s.(error := Some(CityFailureText(e, Trim(city))), loading := false)
  }

  /**
   * What `fetchWeatherByCoordinates` leaves behind: the city input is never
   * touched and loading is off; success shows the record and its icon,
   * failure keeps them and shows the message or the fallback.
   */
  function CoordinateSearch(s: ComponentState, lat: real, lon: real, api: (real, real) -> ApiReply, hour: Hour): (r: ComponentState)
    ensures !r.loading && r.cityInput == s.cityInput
    ensures api(lat, lon).Fetched? ==>
              r.weather == api(lat, lon).data && r.weatherIcon == WeatherIcon(r.weather, hour) && r.error == None
    ensures api(lat, lon).Failed? ==>
              r.weather == s.weather && r.weatherIcon == s.weatherIcon
              && r.error == Some(MessageOr(api(lat, lon).err.message, FetchFailedMessage))
  {
    match api(lat, lon)
    case Fetched(data) =>
      s.(weather := data, weatherIcon := WeatherIcon(data, hour), loading := false, error := None)
    case Failed(e) =>
      s.(error := Some(MessageOr(e.message, FetchFailedMessage)), loading := false)
  }

  /** What `handleCitySearch` leaves behind: a search for the trimmed input, or the prompt for a city. */
  function Submit(s: ComponentState, api: string -> ApiReply, hour: Hour): ComponentState {
    if Trim(s.cityInput) != [] then CitySearch(s, Trim(s.cityInput), api, hour)
    else s.(error := Some(EnterCityMessage))
  }

  /**
   * Submitting the form is searching for the raw input: the blank tests
   * agree, and trimming the already trimmed name changes nothing.
   */
  lemma SubmitSearchesInput(s: ComponentState, api: string -> ApiReply, hour: Hour)
    ensures Submit(s, api, hour) == CitySearch(s, s.cityInput, api, hour)
  {
    TrimIdempotent(s.cityInput);
  }

  /** No error on screen is ever empty text. */
  predicate ErrorShown(s: ComponentState) {
    s.error.Some? ==> s.error.value != []
  }

  /** A city search keeps every shown error non-empty and, once a name is given, ends with loading off. */
  lemma CitySearchKeepsErrorShown(s: ComponentState, city: string, api: string -> ApiReply, hour: Hour)
    requires ErrorShown(s) && !s.loading
    ensures ErrorShown(CitySearch(s, city, api, hour)) && !CitySearch(s, city, api, hour).loading
  {
    if !Blank(city) && api(Trim(city)).Failed? {
      assert CitySearch(s, city, api, hour).error == Some(CityFailureText(api(Trim(city)).err, Trim(city)));
    }
  }

  /** A coordinate search keeps every shown error non-empty. */
  lemma CoordinateSearchKeepsErrorShown(s: ComponentState, lat: real, lon: real, api: (real, real) -> ApiReply, hour: Hour)
    requires ErrorShown(s)
    ensures ErrorShown(CoordinateSearch(s, lat, lon, api, hour))
  {
  }

  /** Submitting keeps every shown error non-empty and leaves loading off. */
  lemma SubmitKeepsErrorShown(s: ComponentState, api: string -> ApiReply, hour: Hour)
    requires ErrorShown(s) && !s.loading
    ensures ErrorShown(Submit(s, api, hour)) && !Submit(s, api, hour).loading
  {
    SubmitSearchesInput(s, api, hour);
    CitySearchKeepsErrorShown(s, s.cityInput, api, hour);
  }

  /** The component's reactive fields. */
  class WeatherAppComponent {
    var weather: Option<WeatherView>
    var loading: bool
    var error: Option<string>
    var cityInput: string
    var weatherIcon: string

    /** The fields as one value. */
    function State(): ComponentState
      reads this
    {
      ComponentState(weather, loading, error, cityInput, weatherIcon)
    }

    /** The state before any request. */
    constructor()
      ensures State() == InitialState
    {
      weather := None;
      loading := false;
      error := None;
      cityInput := "";
      weatherIcon := "sun";
    }

    /** `fetchWeatherByCity`, run to completion with the reply `api` gives for the trimmed name. */
    method FetchWeatherByCity(city: string, api: string -> ApiReply, hour: Hour)
      modifies this
      ensures State() == CitySearch(old(State()), city, api, hour)
    {
      ghost var s := State();
      var name := Trim(city);
      if city == [] || name == [] {
        error := Some(EnterCityMessage);
        assert Blank(city);
        return;
      }
      assert !Blank(city);
      loading := true;
      error := None;
      var reply := api(name);
      match reply {
        case Fetched(data) =>
          weather := data;
          weatherIcon := WeatherIcon(weather, hour);
          cityInput := "";
          loading := false;
          assert State() == s.(weather := data, weatherIcon := WeatherIcon(data, hour), cityInput := "", loading := false, error := None);
        case Failed(e) =>
          error := Some(CityFailureText(e, name));
          loading := false;
          assert State() == s.(error := Some(CityFailureText(e, name)), loading := false);
      }
    }

    /** `fetchWeatherByCoordinates`, run to completion with the reply `api` gives. */
    method FetchWeatherByCoordinates(lat: real, lon: real, api: (real, real) -> ApiReply, hour: Hour)
      modifies this
      ensures State() == CoordinateSearch(old(State()), lat, lon, api, hour)
    {
      loading := true;
      error := None;
      var reply := api(lat, lon);
      match reply {
        case Fetched(data) =>
          weather := data;
          weatherIcon := WeatherIcon(weather, hour);
        case Failed(e) =>
          error := Some(MessageOr(e.message, FetchFailedMessage));
      }
      loading := false;
    }

    /** `handleCitySearch`: search for the trimmed input, or ask for a city when it is blank. */
    method HandleCitySearch(api: string -> ApiReply, hour: Hour)
      modifies this
      ensures State() == Submit(old(State()), api, hour)
    {
      var city := Trim(cityInput);
      if city != [] {
        FetchWeatherByCity(city, api, hour);
      } else {
        error := Some(EnterCityMessage);
      }
    }
  }
}
