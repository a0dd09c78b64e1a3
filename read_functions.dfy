/** `functions/FindCityFunction` and `functions/FindSectorsFunction` of the city-read
    function. Both build the same chain: deserialize (evaluated eagerly, before the reactive
    chain exists), validate with the event's request id, look up, wrap in
    `FunctionResponse.success`, and translate any error raised inside the chain with
    `ExceptionHandlerUtil.handleException`. Their service calls take the request and the
    request id; the services as modelled take other arguments, so the lookup is a parameter. */
module ReadFunctions {
  import opened Common
  import opened ReadErrors
  import opened ReadRequests
  import opened ReadUtils
  import ReadValidation
  import ReadEntities

  /** How `apply` ends: with a response, or by throwing before the chain is built. */
  datatype Invocation<T> = Returned(response: FunctionResponse<T>) | Escaped(error: ReadError)

  /** The service call: the request and the request id to a value or an error. */
  type Lookup<T> = (CityDataRequest, string) -> Result<T, ReadError>

  /** The shared `apply` chain. */
  ghost function Apply<T>(event: ApiGatewayEvent, decode: string -> Option<CityDataRequest>, lookup: Lookup<T>)
    : (r: Invocation<T>)
    ensures r.Escaped? <==> DeserializeEvent(event, decode).Err?
    ensures r.Escaped? ==> r.error == DeserializeEvent(event, decode).error
    ensures r.Returned? ==>
      var request := DeserializeEvent(event, decode).value;
      match ReadValidation.ValidateRequest(request, event.requestId)
      case Some(e) => r.response == HandleException(e)
      case None =>
        match lookup(request, event.requestId)
        case Ok(v) => r.response == Success(v)
        case Err(e) => r.response == HandleException(e)
  {
    match DeserializeEvent(event, decode)
    case Err(e) => Escaped(e)
    case Ok(request) =>
      match ReadValidation.ValidateRequest(request, event.requestId)
      case Some(e) => Returned(HandleException(e))
      case None =>
        match lookup(request, event.requestId)
        case Ok(v) => Returned(Success(v))
        case Err(e) => Returned(HandleException(e))
  }

  /** `FindCityFunction.apply`. */
  ghost function FindCity(event: ApiGatewayEvent, decode: string -> Option<CityDataRequest>,
                          findActiveCityById: Lookup<ReadEntities.CityEntity>)
    : (r: Invocation<ReadEntities.CityEntity>)
    ensures r.Escaped? <==> DeserializeEvent(event, decode).Err?
    ensures r.Returned? && r.response.body.Some? ==>
      var request := DeserializeEvent(event, decode).value;
      CityDataRequestViolations(request) == {} && findActiveCityById(request, event.requestId) == Ok(r.response.body.value)
  {
    Apply(event, decode, findActiveCityById)
  }

  /** `FindSectorsFunction.apply`. */
  ghost function FindSectors(event: ApiGatewayEvent, decode: string -> Option<CityDataRequest>,
                             findActiveSectorsByCityId: Lookup<seq<ReadEntities.SectorEntity>>)
    : (r: Invocation<seq<ReadEntities.SectorEntity>>)
    ensures r.Escaped? <==> DeserializeEvent(event, decode).Err?
    ensures r.Returned? && r.response.body.Some? ==>
      var request := DeserializeEvent(event, decode).value;
      CityDataRequestViolations(request) == {} && findActiveSectorsByCityId(request, event.requestId) == Ok(r.response.body.value)
  {
    Apply(event, decode, findActiveSectorsByCityId)
  }

  /** A returned response is successful exactly when the request decoded, validated and the
      lookup answered; it then has status 200 and the looked-up value as its body. */
  lemma {:induction false} SuccessIff<T>(event: ApiGatewayEvent, decode: string -> Option<CityDataRequest>, lookup: Lookup<T>)
    requires Apply(event, decode, lookup).Returned?
    ensures var response := Apply(event, decode, lookup).response;
      var request := DeserializeEvent(event, decode).value;
      && (IsSuccessful(response.statusCode) <==>
            CityDataRequestViolations(request) == {} && lookup(request, event.requestId).Ok?)
      && (IsSuccessful(response.statusCode) ==>
            response.statusCode == Ok200 && response.body == Some(lookup(request, event.requestId).value))
  {
    var request := DeserializeEvent(event, decode).value;
    var v := ReadValidation.ValidateRequest(request, event.requestId);
    if v.Some? {
      var h := HandleException<T>(v.value);
    } else if lookup(request, event.requestId).Err? {
      var h := HandleException<T>(lookup(request, event.requestId).error);
    }
  }

  /** Validation precedes the lookup: a request with violations gets the same response
      whatever the service would have answered. */
  lemma InvalidRequestNeverLooksUp<T>(event: ApiGatewayEvent, decode: string -> Option<CityDataRequest>,
                                      l1: Lookup<T>, l2: Lookup<T>)
    requires DeserializeEvent(event, decode).Ok?
    requires CityDataRequestViolations(DeserializeEvent(event, decode).value) != {}
    ensures Apply(event, decode, l1) == Apply(event, decode, l2)
  {
  }

  /** Null, blank, malformed and unknown city ids never get a 2xx response: an id that is
      not a lower-case UUID is refused with 406, and so is every lookup error of a client kind. */
  lemma InvalidIdentifierRefused<T>(event: ApiGatewayEvent, decode: string -> Option<CityDataRequest>, lookup: Lookup<T>)
    requires DeserializeEvent(event, decode).Ok?
    requires var id := DeserializeEvent(event, decode).value.cityId;
      !(id.Some? && ValidUuid.Matches(id.value))
    ensures Apply(event, decode, lookup).Returned?
    ensures Apply(event, decode, lookup).response.statusCode == NotAcceptable
  {
    CityIdViolationsIff(DeserializeEvent(event, decode).value.cityId);
  }

  /** A city that is not found surfaces as 406 with the service's message. */
  lemma NotFoundRefused<T>(event: ApiGatewayEvent, decode: string -> Option<CityDataRequest>, lookup: Lookup<T>, message: string)
    requires DeserializeEvent(event, decode).Ok?
    requires CityDataRequestViolations(DeserializeEvent(event, decode).value) == {}
    requires lookup(DeserializeEvent(event, decode).value, event.requestId) == Err(ResourceNotFound(message))
    ensures Apply(event, decode, lookup) == Returned(FunctionResponse(NotAcceptable, None, Some(message)))
  {
  }

  /** Errors of decoding escape `apply` and are not translated into a response. */
  lemma MissingBodyEscapes<T>(requestId: string, decode: string -> Option<CityDataRequest>, lookup: Lookup<T>)
    ensures Apply(ApiGatewayEvent(None, requestId), decode, lookup)
         == Escaped(Validation(MissingBodyMessage, Some(requestId)))
  {
  }
}
