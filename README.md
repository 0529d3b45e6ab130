# Weather proxy: request validation and error translation

A Dafny model of the core of a small weather proxy. The proxy answers two
questions for a browser dashboard: the weather at given coordinates, and
the weather in a named city. To answer the second it first asks the
provider's geocoding service, then asks for the weather at the result.
The repository holds two versions of the backend and the front end that
calls them:

- **The layered application.** A `WeatherService` checks coordinate
  ranges and delegates to a `WeatherProvider`. The OpenWeatherMap client
  implements that provider: it sends requests and turns every failure it
  catches into `InvalidCoordinatesError` or `WeatherAPIError`. The FastAPI
  routes map those exceptions to HTTP statuses. A set of exception
  handlers maps each exception class to a JSON error body.
- **The older single-file service and its routes.** These do the same
  with `ValueError` and `RuntimeError`.
- **The Alpine.js dashboard component.** It classifies the current
  conditions into a background class, an icon and a text colour. It also
  keeps the `weather`, `loading`, `error`, `cityInput` and `weatherIcon`
  state that the searches update.

Every Python operation is a straight line of calls wrapped in try/except.
Each one becomes a total function that returns a `Result`.

- **Transport.** The network is a parameter `send: Request -> Outcome`.
  An outcome is a status with a body, either decodable JSON or not, or a
  transport failure.
- **Provider.** The provider protocol is a function parameter
  `(Number, Number) -> Result<WeatherData, WeatherError>`.
  `OpenWeatherClient.AsProvider` is the real client in that role.
- **JSON and Python semantics.** Decoded bodies are a `Json` datatype.
  The parts of Python semantics that the code relies on are modelled
  exactly:
  - subscripting, with `KeyError`, `IndexError` and `TypeError`;
  - truthiness;
  - `len`.
- **Unhandled exceptions.** An exception that no except clause names
  propagates as `Uncaught`.
- **Dashboard.** The dashboard component is a class whose methods update
  its fields. The hour of the day and the API reply are parameters.

Modules, following the program:

| module | file | models |
|---|---|---|
| `Wrappers`, `Text`, `Json`, `Http` | wrappers.dfy, text.dfy, json.dfy, http.dfy | Result/Option, ASCII lower-casing, trimming and substring search, JSON values and Python subscripting, requests and responses |
| `Domain` | domain.dfy | the `WeatherData` record and the `WeatherAppException` family |
| `OpenWeather` | openweather.dfy | the two requests, the message texts, and reading a response (status check, decoding, the seven record paths, the first geocoding candidate), shared by both backends |
| `Coordinates` | coordinates.dfy | the range check, latitude before longitude, bounds included |
| `WeatherService` | weather_service.dfy | the application service: the range check, then the provider |
| `OpenWeatherClient` | openweather_client.dfy | the layered provider client's except chains |
| `LegacyService` | legacy_service.dfy | the older service, including its city-to-coordinates chaining |
| `Api`, `WeatherRoutes`, `LegacyRoutes` | api.dfy, weather_routes.dfy, legacy_routes.dfy | statuses, the "not found" text test, both sets of routes |
| `ErrorHandler` | error_handler.dfy | the exception handlers and the inverse reading of an error body |
| `WeatherApp` | weather_app.dfy | the dashboard classifiers and the `WeatherAppComponent` class |

Numbers are modelled as `Number(value, text)`: an exact real value
together with the text Python prints for it in messages and query
strings.

## Behaviour worth knowing

The model follows the code as written, including these behaviours:

- **An unknown city is reported as a provider error.** The layered
  client raises a `WeatherAPIError` whose text is `City not found: <city>`.
  The `/by-city` route then picks 404 by looking for "not found" in the
  lower-cased text. So a connection failure whose own reason mentions
  "not found" also answers 404 (`WeatherRoutes.ConnectionFailureCanBe404`).
  `LocationNotFoundError` is defined and has a handler, but nothing in the
  core raises it.
- **Only lookup errors in a body become provider errors.** Only
  `KeyError` and `IndexError` become `WeatherAPIError`.
  - A `TypeError` escapes all the except clauses. An example is
    `"main": 5`, or a geocoding body that is a truthy number.
  - So does the `JSONDecodeError` of a body that is not JSON.
  - In the older service, `JSONDecodeError` is a `ValueError`. The older
    `/current` route therefore answers 422 for it. The older `/by-city`
    route answers 422 as well, unless the decoder's text mentions
    "not found".
- **A geocoding 400 does not mean invalid coordinates.** A 400 from the
  geocoder is a plain `WeatherAPIError` (503), not invalid coordinates.
  Any geocoding error status, 404 included, answers 503
  (`WeatherRoutes.GeocodingStatusIs503`).

## Model

| member | source | states |
|---|---|---|
| Json.Subscript | src/infrastructure/external/openweather_client.py:54-62 | `v[k]` succeeds exactly for a present dict key or an in-range list or string index; a dict raises KeyError for any other key, a list or string raises IndexError past its end |
| OpenWeather.WeatherRequest | src/infrastructure/external/openweather_client.py:42-50 | the weather request goes to `<base>/weather` with lat, lon, appid set to the key, and units=metric |
| OpenWeather.GeocodingRequest | src/infrastructure/external/openweather_client.py:87-90 | the geocoding request goes to the geocoding URL with q set to the city, appid set to the key, and limit=1 |
| OpenWeather.ReadPaths | src/infrastructure/external/openweather_client.py:54-62 | the field paths are read in order: either all succeed, with values matching the paths, or the error is that of the first failing path |
| OpenWeather.ReadRecord | src/infrastructure/external/openweather_client.py:54-62 | the record exists exactly when main.temp, main.humidity, wind.speed, weather[0].description, name, coord.lat and coord.lon all exist, and each field holds the value at its path |
| OpenWeather.FirstFailingPathReported | src/infrastructure/external/openweather_client.py:54-62 | when the k-th path is the first to fail, its exception is the one raised |
| OpenWeather.FetchWeather | src/infrastructure/external/openweather_client.py:42-62 | success exactly for a 2xx JSON body holding the record; a status error carries the response status exactly when it is not 2xx; a connection error exactly when no response came |
| OpenWeather.ReadLocation | src/infrastructure/external/openweather_client.py:94-98 | no match exactly when the body is falsy; a match exactly when the body is a non-empty list whose first element has lat and lon, which are the returned pair; otherwise the exception Python raises: TypeError for a truthy body without `len` or a first element that is not an object, KeyError(0) for a dict, KeyError('lat') and then KeyError('lon') for a missing key |
| OpenWeather.FetchLocation | src/infrastructure/external/openweather_client.py:87-98 | the same status, connection and success classification for the geocoding response; a 2xx body that is not JSON raises its decoding error, and an exception while reading the body is passed on unchanged |
| OpenWeather.LaterCandidatesIgnored | src/infrastructure/external/openweather_client.py:97-98 | only the first geocoding candidate matters |
| Coordinates.CheckRanges | src/application/services/weather_service.py:48-55 | within range exactly when -90 <= lat <= 90 and -180 <= lon <= 180; a bad latitude is reported before the longitude is looked at |
| WeatherService.ValidateCoordinates | src/application/services/weather_service.py:38-55 | passes exactly for in-range coordinates; otherwise InvalidCoordinatesError names the failing bound and the value, latitude first; a value that is not a number makes the comparison raise TypeError, left uncaught |
| WeatherService.GetWeatherByCoordinates | src/application/services/weather_service.py:35-36 | valid coordinates return the provider's answer for the same pair unchanged; out-of-range numbers give InvalidCoordinatesError |
| WeatherService.ProviderNotConsultedWhenInvalid | src/application/services/weather_service.py:35-36 | after a failed check the answer does not depend on the provider: the check's error is returned and no call is made |
| WeatherService.BoundsInclusive | src/application/services/weather_service.py:48-55 | the four corners ±90, ±180 pass |
| OpenWeatherClient.TranslateWeather | src/infrastructure/external/openweather_client.py:63-72 | InvalidCoordinatesError exactly for status 400, naming the coordinates; other error statuses give "Weather API error: <status>"; transport failures give "Failed to connect to weather API: …"; a KeyError or IndexError becomes "Unexpected API response format: …"; any other exception raised while reading (a TypeError, a decoding error) is left uncaught, and only those are |
| OpenWeatherClient.GetWeather | src/infrastructure/external/openweather_client.py:41-72 | one request to the weather endpoint: success exactly for a 2xx JSON body holding the record, and the result is the record read from that body; InvalidCoordinatesError exactly when that request answers 400; an uncaught exception only after a 2xx answer |
| OpenWeatherClient.WeatherRecordFromPaths | src/infrastructure/external/openweather_client.py:41-62 | a successful result is exactly a 2xx JSON body whose seven paths hold the record's fields |
| OpenWeatherClient.MissingFieldIsFormatError | src/infrastructure/external/openweather_client.py:71-72 | a KeyError or IndexError while reading a 2xx body is a WeatherAPIError about the response format |
| OpenWeatherClient.EmptyWeatherList | src/infrastructure/external/openweather_client.py:58-72 | an empty `weather` list gives "Unexpected API response format: list index out of range" |
| OpenWeatherClient.LondonRecord | src/infrastructure/external/openweather_client.py:54-62 | the complete London answer yields temperature 21.5, humidity 60, wind 3.2, "clear sky", "London" and its coordinates |
| OpenWeatherClient.TranslateGeocoding | src/infrastructure/external/openweather_client.py:94-108 | every failure caught here is a WeatherAPIError, a 400 included: "Geocoding API error: <status>", "Failed to connect to geocoding API: …", and "Unexpected geocoding response format: …" for a KeyError or IndexError; "City not found: <city>" for no match; the first candidate's pair otherwise; any other exception raised while reading is left uncaught, and only those are |
| OpenWeatherClient.GetCoordinatesByCity | src/infrastructure/external/openweather_client.py:86-108 | one request to the geocoding endpoint: the geocoded pair exactly when the answer holds a match; "City not found: <city>" when it holds none; every other failure a WeatherAPIError or an uncaught exception |
| OpenWeatherClient.AsProvider | src/infrastructure/external/openweather_client.py:27-72 | as the service's provider, the client answers every pair with the translation of one weather request for that pair |
| OpenWeatherClient.CityNotFoundExactly | src/infrastructure/external/openweather_client.py:94-95 | the city-not-found error arises exactly for a 2xx JSON body that Python finds falsy |
| OpenWeatherClient.MissingLatIsFormatError | src/infrastructure/external/openweather_client.py:97-108 | a first candidate without "lat" gives "Unexpected geocoding response format: 'lat'" |
| OpenWeatherClient.FirstCandidateWins | src/infrastructure/external/openweather_client.py:97-98 | a non-empty candidate list yields the first candidate's lat and lon |
| LegacyService.TranslateWeather | src/service.py:38-57 | 400 becomes ValueError naming the coordinates; other statuses and transport failures become RuntimeError; a KeyError or IndexError while reading the body becomes RuntimeError "Unexpected API response format: …"; a body that is not JSON raises its decoding error, a ValueError; any other exception is a TypeError left uncaught. Among the modelled failures, ValueError arises exactly for 400 or a 2xx body that is not JSON |
| LegacyService.GetWeatherByCoordinates | src/service.py:23-39 | out-of-range coordinates raise ValueError with the bound's message, latitude first; a value that is not a number raises TypeError, left uncaught; in range, one request and its translation |
| LegacyService.NoRequestWhenOutOfRange | src/service.py:23-26 | for coordinates that fail the check, the result is an error independent of the transport |
| LegacyService.GetWeatherByCity | src/service.py:59-86 | no match is ValueError "City not found: <city>"; a match chains into the coordinate lookup with the geocoded pair, whose errors pass through; geocoding failures are RuntimeError "Geocoding API error: <status>", "Failed to connect to geocoding API: …" or "Unexpected geocoding response format: …" for a KeyError or IndexError; a geocoding body that is not JSON raises its decoding error, a ValueError; a TypeError while reading it is left uncaught |
| LegacyService.TokyoChain | src/service.py:70-77 | for Tokyo, the result is the translation of one weather request for the first candidate's coordinates |
| LegacyService.GeocodingFailuresNameGeocoding | src/service.py:78-83 | geocoding status, connection and format failures are RuntimeErrors whose text mentions geocoding |
| Api.CityNotFoundMentionsNotFound | src/infrastructure/api/routes/weather.py:76-77 | the city-not-found message passes the "not found" test |
| Api.ConnectDetailShows | src/infrastructure/api/routes/weather.py:76-77 | a connection message passes the test whenever the underlying reason does |
| Api.StatusMessagesSilent | src/infrastructure/api/routes/weather.py:76-78 | messages built from a status code never pass it |
| Api.RangeMessagesSilent | src/routes.py:38-42 | the latitude and longitude range messages for decimal numbers never pass the "not found" test |
| Api.InvalidCoordinatesMessageSilent | src/routes.py:38-42 | the rejected-coordinates message for decimal numbers never passes the "not found" test |
| WeatherRoutes.CurrentWeather | src/infrastructure/api/routes/weather.py:41-47 | the envelope exactly on success; 422 exactly for InvalidCoordinatesError; 503 for WeatherAPIError; the detail is the exception's text; other exceptions pass through |
| WeatherRoutes.CurrentOutOfRangeIs422 | src/infrastructure/api/routes/weather.py:44-45 | an out-of-range latitude answers 422 with the range message, whatever the provider |
| WeatherRoutes.ServerErrorAndNetworkFailureAlike | src/infrastructure/api/routes/weather.py:46-47 | a provider 500 and a network failure both answer 503, with different details |
| WeatherRoutes.CityLookup | src/infrastructure/api/routes/weather.py:67-74 | geocoding errors are the result; otherwise the service is asked for the geocoded pair unchanged |
| WeatherRoutes.TokyoChain | src/infrastructure/api/routes/weather.py:70-73 | for Tokyo, the service is asked exactly for the first candidate's coordinates |
| WeatherRoutes.WeatherByCity | src/infrastructure/api/routes/weather.py:75-80 | 404 exactly for a WeatherAPIError mentioning "not found"; 503 exactly for any other WeatherAPIError; 422 exactly for InvalidCoordinatesError; every other exception from the lookup is re-raised unchanged, and only those are |
| WeatherRoutes.UnknownCityIs404 | src/infrastructure/api/routes/weather.py:75-77 | an unknown city answers 404 "City not found: <city>" |
| WeatherRoutes.ConnectionFailureCanBe404 | src/infrastructure/api/routes/weather.py:75-77 | a geocoder connection failure whose reason mentions "not found" also answers 404 |
| WeatherRoutes.GeocodingStatusIs503 | src/infrastructure/api/routes/weather.py:75-78 | any geocoder error status, 404 included, answers 503 |
| WeatherRoutes.WeatherStatusIs503 | src/infrastructure/api/routes/weather.py:73-78 | with the real client, a weather error status other than 400 answers 503 |
| LegacyRoutes.CurrentWeather | src/routes.py:23-29 | ValueError answers 422 and RuntimeError 503, exactly; never 404; the service's uncaught exception is re-raised unchanged, and only that is |
| LegacyRoutes.WeatherByCity | src/routes.py:35-44 | 404 exactly for a ValueError mentioning "not found"; 422 for any other ValueError; 503 exactly for RuntimeError; the service's uncaught exception is re-raised unchanged, and only that is |
| LegacyRoutes.UnknownCityIs404 | src/routes.py:38-41 | an unknown city answers 404 "City not found: <city>" |
| LegacyRoutes.OutOfRangeCityIs422 | src/routes.py:38-42 | geocoded coordinates outside the range answer 422, not 404 |
| LegacyRoutes.RejectedCityIs422 | src/routes.py:38-42 | geocoded coordinates the weather endpoint rejects with 400 answer 422 with the invalid-coordinates message |
| LegacyRoutes.ConnectionFailureStays503 | src/routes.py:43-44 | a geocoder connection failure answers 503, whatever its text |
| ErrorHandler.TagStatus | src/infrastructure/middleware/error_handler.py:21-59 | the four tags and their statuses 404, 503, 422, 500 |
| ErrorHandler.Handle | src/infrastructure/middleware/error_handler.py:21-59 | a response exactly for the WeatherAppException family; each class gets its own status, the message is the exception's text, and the tag fits the status |
| ErrorHandler.Recover | src/infrastructure/middleware/error_handler.py:21-59 | a body with a known tag reads back as an application exception carrying the body's message |
| ErrorHandler.RecoverHandle | src/infrastructure/middleware/error_handler.py:21-59 | reading a handled exception's body gives back the same class and text |
| ErrorHandler.HandleRecover | src/infrastructure/middleware/error_handler.py:21-59 | every body whose tag matches its status is the response to the exception read from it |
| WeatherApp.AnyKeyword | static/js/components/weather-app.js:146-158 | some keyword occurs in the lower-cased description exactly when one of the list does |
| WeatherApp.WeatherClass | static/js/components/weather-app.js:135-164 | always one of four classes; "weather-sunny" without a record; night exactly at night hours; otherwise cold exactly for temp < 10 or a cold keyword; then rainy exactly for a rainy keyword |
| WeatherApp.ColdKeywordBeatsRain | static/js/components/weather-app.js:145-149 | in daytime a cold keyword gives "weather-cold" whatever else the description says |
| WeatherApp.WeatherIcon | static/js/components/weather-app.js:170-226 | always one of eleven icons; "sun" without a record; otherwise the first matching test wins, each stated as an if-and-only-if given that the earlier tests failed: "cloud-lightning" for a thunderstorm or a storm without rain, then "snowflake" for snow or blizzard, "cloud-snow" for sleet, ice or freezing, "cloud-rain-wind" for heavy rain, "cloud-rain" for rain, drizzle or shower, "cloud-fog" for fog, mist or haze, "wind" for dust, smoke or sand; after all of these, a cloud icon exactly when the text mentions cloud, and a moon form exactly at night |
| WeatherApp.NightVariant | static/js/components/weather-app.js:214-225 | cloud becomes cloud-moon, sun becomes moon, other icons are kept |
| WeatherApp.IconByHour | static/js/components/weather-app.js:174-225 | the night icon is the night form of the day icon, so the hour matters only in the cloud, clear and default branches |
| WeatherApp.ThunderstormFirst | static/js/components/weather-app.js:179-182 | a thunderstorm shows lightning ahead of every later test |
| WeatherApp.RainAndSnowAtNoon | static/js/components/weather-app.js:145-187 | "Rain and Snow" at noon and 15 degrees is "weather-cold" with the "snowflake" icon |
| WeatherApp.TextColorClass | static/js/components/weather-app.js:232-235 | "text-white" exactly when the class is "weather-night", "text-gray-800" otherwise |
| WeatherApp.WhiteTextAtNight | static/js/components/weather-app.js:232-235 | with a record shown, the text is white exactly at night hours |
| WeatherApp.BlankIsAllWhitespace | static/js/components/weather-app.js:86 | a city is rejected as blank exactly when all its characters are whitespace |
| WeatherApp.CityFailureText | static/js/components/weather-app.js:105-110 | the shown error is never empty: the city-not-found template for marked errors, else the message, else "Failed to fetch weather data" |
| WeatherApp.CitySearch | static/js/components/weather-app.js:85-116 | a blank city sets only the error; otherwise loading ends false; success stores the record and its icon, clears the input and the error; failure keeps record, icon and input and shows the failure text |
| WeatherApp.CoordinateSearch | static/js/components/weather-app.js:61-79 | loading ends false and the input is untouched; success stores the record and its icon and clears the error; failure keeps them and shows the message or the fallback |
| WeatherApp.SubmitSearchesInput | static/js/components/weather-app.js:121-128 | submitting the form is exactly a city search for the raw input |
| WeatherApp.CitySearchKeepsErrorShown | static/js/components/weather-app.js:85-116 | a city search never shows an empty error and, from an idle state, never leaves loading on |
| WeatherApp.CoordinateSearchKeepsErrorShown | static/js/components/weather-app.js:61-79 | a coordinate search never shows an empty error |
| WeatherApp.SubmitKeepsErrorShown | static/js/components/weather-app.js:121-128 | submitting never shows an empty error and never leaves loading on |
| WeatherApp.WeatherAppComponent.constructor | static/js/components/weather-app.js:8-12 | no record, not loading, no error, empty input, "sun" icon |
| WeatherApp.WeatherAppComponent.FetchWeatherByCity | static/js/components/weather-app.js:85-116 | the fields afterwards are the city search's state from the fields before |
| WeatherApp.WeatherAppComponent.FetchWeatherByCoordinates | static/js/components/weather-app.js:61-79 | the fields afterwards are the coordinate search's state from the fields before |
| WeatherApp.WeatherAppComponent.HandleCitySearch | static/js/components/weather-app.js:121-128 | the fields afterwards are `Submit` of the fields before: a search for the trimmed input, or the prompt for a city when it is blank; `SubmitSearchesInput` shows `Submit` is a city search for the raw input |

## Left out

- Asynchrony: `async`/`await`, the httpx `AsyncClient` with its 10-second timeout, and `close()`. Each outbound call is a function `send` supplied to the operation. A timeout is one of its `NetworkError` outcomes.
- Settings loading, the API-key singleton, dependency injection and the per-request client construction in `/by-city`. The key is a parameter.
- The envelope's UTC timestamp.
- The pydantic validation of the older service's `WeatherData` and of both response models. The model keeps each field as the JSON value read.
- LegacyService.TranslateWeather: does not produce the pydantic `ValidationError` that src/service.py:41-49 raises when a 2xx JSON body holds all seven keys but a value of the wrong type (a string temperature, say). That error is a `ValueError`, escapes the except chain, and the older `/current` route answers 422 for it. The model returns the record instead, because the record's field types are not modelled.
- Python's float formatting. A number carries its printed text next to its value, and infinities and NaN are not modelled.
- JSON booleans used as geocoded coordinates. Python compares them as 0 and 1; the model treats them like any other non-number, as a TypeError.
- Unicode. `Text.Lower` folds ASCII letters only, and `Text.Trim` strips ASCII whitespace only. JavaScript's `toLowerCase`/`trim` and Python's `lower` cover all of Unicode.
- The dashboard's `init`, `$watch`, `$nextTick`, `setTimeout`, `lucide.createIcons`, console logging, `detectLocation` and `formatTemperature`, which uses floating-point `Math.round`. The watcher re-derives the icon that the fetch methods already set.
- The `loading == true` state while a request is in flight. The fetch methods are modelled from entry to completion.
- The front-end API module, static/js/services/weather-api.js, is not part of this model. The component receives its reply as a parameter. That module throws a plain `Error`, so `isCityNotFound` is never set in practice; the model still covers the component's branch for it.
- The location routes and the provider protocol files, `src/domain/interfaces`, are not part of this model. The protocols are the function types above.
