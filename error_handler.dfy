/**
 * The layered application's exception handlers: each domain exception
 * class becomes a JSON error response with a status, a fixed tag and the
 * exception's text.
 */
module ErrorHandler {
  import opened Wrappers
  import opened Domain
  import opened Api

  /** The response body `{"error": tag, "message": text}` with its status. */
  datatype ErrorResponse = ErrorResponse(status: int, error: string, message: string)

  /** The status each handler tag is sent with. */
  function TagStatus(tag: string): (r: Option<int>)
    ensures r.Some? <==> tag in {"location_not_found", "weather_api_error", "invalid_coordinates", "weather_app_error"}
    ensures r.Some? ==> r.value in {NotFound, ServiceUnavailable, UnprocessableContent, InternalServerError}
  {
    if tag == "location_not_found" then Some(NotFound)
    else if tag == "weather_api_error" then Some(ServiceUnavailable)
    else if tag == "invalid_coordinates" then Some(UnprocessableContent)
    else if tag == "weather_app_error" then Some(InternalServerError)
    else None
  }

  /**
   * The handler the application registers for the exception's class;
   * None for an exception outside the hierarchy, which none of them handle.
   */
  function Handle(e: WeatherError): (r: Option<ErrorResponse>)
    ensures r.Some? <==> e.IsAppException()
    ensures r.Some? ==> r.value.message == e.message && TagStatus(r.value.error) == Some(r.value.status)
    ensures r.Some? && r.value.status == NotFound <==> e.LocationNotFoundError?
    ensures r.Some? && r.value.status == ServiceUnavailable <==> e.WeatherAPIError?
    ensures r.Some? && r.value.status == UnprocessableContent <==> e.InvalidCoordinatesError?
    ensures r.Some? && r.value.status == InternalServerError <==> e.WeatherAppException?
  {
    match e
    case LocationNotFoundError(m) => Some(ErrorResponse(NotFound, "location_not_found", m))
    case WeatherAPIError(m) => Some(ErrorResponse(ServiceUnavailable, "weather_api_error", m))
    case InvalidCoordinatesError(m) => Some(ErrorResponse(UnprocessableContent, "invalid_coordinates", m))
    case WeatherAppException(m) => Some(ErrorResponse(InternalServerError, "weather_app_error", m))
    case Uncaught(_) => None
  }

  /** The exception a response body was made from, read back from its tag and text. */
  function Recover(response: ErrorResponse): (r: Option<WeatherError>)
    ensures r.Some? <==> TagStatus(response.error).Some?
    ensures r.Some? ==> r.value.IsAppException() && r.value.message == response.message
  {
    match response.error
    case "location_not_found" => Some(LocationNotFoundError(response.message))
    case "weather_api_error" => Some(WeatherAPIError(response.message))
    case "invalid_coordinates" => Some(InvalidCoordinatesError(response.message))
    case "weather_app_error" => Some(WeatherAppException(response.message))
    case _ => None
  }

  /** The body identifies the exception: class and text come back from it unchanged. */
  lemma RecoverHandle(e: WeatherError)
    requires e.IsAppException()
    ensures Recover(Handle(e).value) == Some(e)
  {
  }

  /** Every well-formed body is some exception's response. */
  lemma HandleRecover(response: ErrorResponse)
    requires TagStatus(response.error) == Some(response.status)
    ensures Handle(Recover(response).value) == Some(response)
  {
  }
}
