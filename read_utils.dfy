/** Body guards and response helpers of the city-read function: `utils/UnmarshallUtils` for
    API Gateway events and `utils/FunctionUtils` for raw message payloads. JSON decoding is an
    uninterpreted function (`None` when Jackson throws an `IOException`). */
module ReadUtils {
  import opened Common
  import opened ReadErrors
  import opened ReadRequests

  /** The parts of an `APIGatewayProxyRequestEvent` read here: the body, which may be null,
      and the request id of its request context. */
  datatype ApiGatewayEvent = ApiGatewayEvent(body: Option<string>, requestId: string)

  const MissingBodyMessage := "Request body is missing or empty."
  const UndecodableBodyPrefix := "Couldn't deserialize request body: "
  const UndecodablePayloadMessage := "Couldn't deserialize request message."

  /** `UnmarshallUtils.deserializeRequest`: a null or blank body (`String.isBlank`) is a
      validation error with the event's request id and is never decoded; a body the decoder
      refuses is a `CityException` with INTERNAL_002 quoting the body; otherwise the decoded
      request. */
  function DeserializeEvent(event: ApiGatewayEvent, decode: string -> Option<CityDataRequest>)
    : (r: Result<CityDataRequest, ReadError>)
    ensures event.body.None? || IsBlank(event.body.value) ==>
      r == Err(Validation(MissingBodyMessage, Some(event.requestId)))
    ensures event.body.Some? && !IsBlank(event.body.value) ==>
      r == (match decode(event.body.value)
            case Some(request) => Ok(request)
            case None => Err(City(UndecodableBodyPrefix + event.body.value, Some(INTERNAL_002), None)))
  {
    if event.body.None? || IsBlank(event.body.value) then
      Err(Validation(MissingBodyMessage, Some(event.requestId)))
    else
      match decode(event.body.value)
      case Some(request) => Ok(request)
      case None => Err(City(UndecodableBodyPrefix + event.body.value, Some(INTERNAL_002), None))
  }

  /** The blank check comes before any decoding: a missing or blank body gives the same error
      whatever the decoder would have done. */
  lemma BlankBodyNeverDecoded(event: ApiGatewayEvent, d1: string -> Option<CityDataRequest>,
                              d2: string -> Option<CityDataRequest>)
    requires event.body.None? || IsBlank(event.body.value)
    ensures DeserializeEvent(event, d1) == DeserializeEvent(event, d2)
    ensures DeserializeEvent(event, d1).Err? && DeserializeEvent(event, d1).error.Validation?
  {
  }

  /** A whitespace-only body, such as a single tab, counts as missing. */
  lemma WhitespaceBodyIsMissing(requestId: string, decode: string -> Option<CityDataRequest>)
    ensures DeserializeEvent(ApiGatewayEvent(Some("\t \n"), requestId), decode)
         == Err(Validation(MissingBodyMessage, Some(requestId)))
  {
    assert IsBlank("\t \n");
  }

  /** `FunctionUtils.deserializeRequest`: the decoded `dto` record, or a `ParsingException`
      with a fixed message that does not depend on the payload. */
  function DeserializePayload(payload: seq<Byte>, decode: seq<Byte> -> Option<CityDataDto>)
    : (r: Result<CityDataDto, ReadError>)
    ensures r.Ok? <==> decode(payload).Some?
    ensures r.Ok? ==> r.value == decode(payload).value
    ensures r.Err? ==> r.error == Parsing(UndecodablePayloadMessage)
  {
    match decode(payload)
    case Some(request) => Ok(request)
    case None => Err(Parsing(UndecodablePayloadMessage))
  }

  /** The response record `handleRuntimeException` builds: id, name, timezone and an error. */
  datatype CityDataResponse<E> = CityDataResponse(id: Option<string>, name: Option<string>,
                                                  timezone: Option<string>, error: Option<E>)

  /** `FunctionUtils.handleRuntimeException`: the shared library's error response for the
      throwable (a parameter here), with every data field null. */
  function HandleRuntimeException<E>(e: ReadError, generateErrorResponse: ReadError -> E)
    : (r: CityDataResponse<E>)
    ensures r.id.None? && r.name.None? && r.timezone.None?
    ensures r.error == Some(generateErrorResponse(e))
  {
    CityDataResponse(None, None, None, Some(generateErrorResponse(e)))
  }
}
