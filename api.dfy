/**
 * What the HTTP boundary answers with, and the message test that one of
 * its routes uses to choose 404. The status codes are those of RFC 9110.
 */
module Api {
  import opened Text
  import opened Json
  import opened Domain
  import opened Coordinates
  import opened OpenWeather

  /** Section 15.5.5 of RFC 9110: no representation found for the target resource. */
  const NotFound := 404
  /** Section 15.5.21 of RFC 9110: the request is well-formed but its content cannot be processed. */
  const UnprocessableContent := 422
  /** Section 15.6.1 of RFC 9110: an unexpected condition prevented the server from answering. */
  const InternalServerError := 500
  /** Section 15.6.4 of RFC 9110: the server cannot handle the request for now. */
  const ServiceUnavailable := 503

  /**
   * How a route handler ends: the envelope around the record (its
   * timestamp is not modelled), an HTTPException with status and detail,
   * or an exception the handler does not catch.
   */
  datatype RouteOutcome<E> =
    | Envelope(data: WeatherData)
    | HttpException(status: int, detail: string)
    | Raises(error: E)

  /** `"not found" in message.lower()`. */
  predicate MentionsNotFound(message: string) {
    Contains(Lower(message), "not found")
  }

  lemma CityNotFoundMentionsNotFound(city: string)
    ensures MentionsNotFound(CityNotFoundMessage(city))
  {
    LowerSlice("City not found: ", "not found", 5);
    PrefixShows("City not found: ", city, "not found", 5);
  }

  /** A connection failure whose own text mentions "not found" passes that on to the message. */
  lemma ConnectDetailShows(detail: string)
    requires MentionsNotFound(detail)
    ensures MentionsNotFound(GeocodingConnectMessage(detail))
    ensures MentionsNotFound(ConnectMessage(detail))
  {
    SuffixKeeps("Failed to connect to geocoding API: ", detail, "not found");
    SuffixKeeps("Failed to connect to weather API: ", detail, "not found");
  }

  /** A status-code message never mentions "not found". */
  lemma StatusMessagesSilent(code: int)
    ensures !MentionsNotFound(StatusMessage(code))
    ensures !MentionsNotFound(GeocodingStatusMessage(code))
  {
    var text := IntText(code);
    assert WithoutF(text) by {
      forall j | 0 <= j < |text|
        ensures text[j] != 'f' && text[j] != 'F'
      {
        assert IsDigit(text[j]) || text[j] == '-';
      }
    }
    assert WithoutF("Weather API error: ") && WithoutF("Geocoding API error: ");
    WithoutFJoin("Weather API error: ", text);
    WithoutFJoin("Geocoding API error: ", text);
    NoFNoNotFound(StatusMessage(code));
    NoFNoNotFound(GeocodingStatusMessage(code));
  }

  /** Text made only of decimal characters holds no `f`. */
  lemma DecimalWithoutF(s: string)
    requires DecimalText(s)
    ensures WithoutF(s)
  {
    forall j | 0 <= j < |s|
      ensures s[j] != 'f' && s[j] != 'F'
    {
      assert IsDigit(s[j]) || s[j] in ".-+e";
    }
  }

  /** The range messages never mention "not found" when the number prints as a decimal. */
  lemma RangeMessagesSilent(lat: Number, lon: Number)
    requires DecimalText(lat.text) && DecimalText(lon.text)
    ensures !MentionsNotFound(LatitudeMessage(lat))
    ensures !MentionsNotFound(LongitudeMessage(lon))
  {
    var latPrefix, lonPrefix := "Latitude must be between -90 and 90, got ", "Longitude must be between -180 and 180, got ";
    assert WithoutF(latPrefix);
    assert WithoutF(lonPrefix);
    DecimalWithoutF(lat.text);
    DecimalWithoutF(lon.text);
    WithoutFJoin(latPrefix, lat.text);
    WithoutFJoin(lonPrefix, lon.text);
    NoFNoNotFound(LatitudeMessage(lat));
    NoFNoNotFound(LongitudeMessage(lon));
  }

  /** The rejection message never mentions "not found" when the numbers print as decimals. */
  lemma InvalidCoordinatesMessageSilent(lat: Number, lon: Number)
    requires DecimalText(lat.text) && DecimalText(lon.text)
    ensures !MentionsNotFound(InvalidCoordinatesMessage(lat, lon))
  {
    var head, middle := "Invalid coordinates: lat=", ", lon=";
    assert WithoutF(head) && WithoutF(middle);
    DecimalWithoutF(lat.text);
    DecimalWithoutF(lon.text);
    WithoutFJoin(head, lat.text);
    WithoutFJoin(head + lat.text, middle);
    WithoutFJoin(head + lat.text + middle, lon.text);
    NoFNoNotFound(InvalidCoordinatesMessage(lat, lon));
  }
}
