/**
 * The domain entity and the exception taxonomy of the layered application:
 * the weather record built from a provider response, and the
 * WeatherAppException family with its three subclasses.
 */
module Domain {
  import opened Json

  /**
   * The weather record. Python's dataclass does not check the declared
   * field types, so each field holds the JSON value read from the response.
   */
  datatype WeatherData = WeatherData(
    temperature: Json,
    humidity: Json,
    windSpeed: Json,
    description: Json,
    city: Json,
    lat: Json,
    lon: Json)

  /**
   * An exception leaving a component: one of the application's own classes
   * (each carries the text `str(exc)` gives), or a Python exception outside
   * the taxonomy that nothing on the way catches.
   */
  datatype WeatherError =
    | LocationNotFoundError(message: string)
    | WeatherAPIError(message: string)
    | InvalidCoordinatesError(message: string)
    | WeatherAppException(message: string)
    | Uncaught(cause: PyError)
  {
    /** The error belongs to the WeatherAppException family. */
    predicate IsAppException() {
      !Uncaught?
    }
  }
}
