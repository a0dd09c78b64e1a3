/** The read-city function (functions/read-city-function), a snapshot of the city-data
    function: its `repository/CitiesRepository.findById` and `functions/CityDataFunction`.
    Its `City` is the record of package `entities` with a country code; its `CityStatus`,
    response record and mapper are not part of this model: the statuses and the response are
    taken to be the city-data function's, and the two mapper methods and the table name are
    parameters. Validation is the city-read function's check of the `dto` record. */
module ReadCitySnapshot {
  import opened Common
  import opened Dynamo
  import opened DataErrors
  import DataMapper
  import opened DataResponses
  import DataRepository
  import DataRequests
  import DataFunction
  import ReadRequests
  import ReadValidation
  import ValidUuid

  /** `entities/City`: the record this snapshot's mapper produces. */
  datatype City = City(id: Option<string>, name: Option<string>, timezone: Option<string>,
                       status: DataMapper.CityStatus, countryCode: Option<string>)

  const NotFoundPrefix := "City not found with ID: "
  const FailurePrefix := "Error finding City with ID: "

  /** `cityMapper.mapToCity`, which may throw. */
  type CityMap = Item -> Result<City, Failure>

  /** `cityMapper.mapToCityResponse(city, httpStatus, errorMessage)`. */
  type ResponseMap = (City, int, Option<string>) -> CityDataResponse

  /** `CitiesRepository.findById`: the point get on {"id": cityId}; only a
      `DynamoDbException` is rewrapped, and the mapper sees only a non-empty item. */
  function FindById(request: ReadRequests.CityDataDto, tableName: string, getItem: GetItemClient, mapToCity: CityMap)
    : (r: Result<City, Failure>)
    ensures var answer := getItem(GetItemRequest(tableName, DataRepository.CityKey(request.cityId)));
      && (answer.DynamoDbFailure? ==> r == Err(Runtime(FailurePrefix + JavaText(request.cityId))))
      && (answer.OtherFailure? ==> r == Err(Runtime(answer.message)))
      && (answer.Answered? && (answer.value.None? || answer.value.value == map[]) ==>
            r == Err(CityError(ResourceNotFound(NotFoundPrefix + JavaText(request.cityId)))))
      && (answer.Answered? && answer.value.Some? && answer.value.value != map[] ==> r == mapToCity(answer.value.value))
  {
    match getItem(GetItemRequest(tableName, DataRepository.CityKey(request.cityId)))
    case DynamoDbFailure(_) => Err(Runtime(FailurePrefix + JavaText(request.cityId)))
    case OtherFailure(message) => Err(Runtime(message))
    case Answered(item) =>
      if item.None? || item.value == map[] then Err(CityError(ResourceNotFound(NotFoundPrefix + JavaText(request.cityId))))
      else mapToCity(item.value)
  }

  /** The two repositories agree on a city that is not found (same error, same message) and
      on a client exception they do not catch; both wrap a `DynamoDbException` as a
      `RuntimeException`, whose message differs only in the capital "C" of "City". */
  lemma RepositoriesAgree(id: Option<string>, getItem: GetItemClient, mapToCity: CityMap)
    ensures var snapshot := FindById(ReadRequests.CityDataDto(id), DataMapper.TableName, getItem, mapToCity);
      var data := DataRepository.FindCityById(DataRequests.CityDataRequest(id), getItem);
      var answer := getItem(GetItemRequest(DataMapper.TableName, DataRepository.CityKey(id)));
      && (answer.Answered? && (answer.value.None? || answer.value.value == map[]) ==> snapshot.Err? && snapshot.error == data.error)
      && (answer.DynamoDbFailure? ==>
            snapshot.Err? && snapshot.error.Runtime? && data.error.Runtime? && snapshot.error.message != data.error.message)
      && (answer.OtherFailure? ==> snapshot.Err? && snapshot.error == data.error)
  {
    if getItem(GetItemRequest(DataMapper.TableName, DataRepository.CityKey(id))).DynamoDbFailure? {
      var s := FailurePrefix + JavaText(id);
      var d := DataRepository.FailurePrefix + JavaText(id);
      assert s[14] != d[14];
    }
  }

  /** `validateCityStatus` of this snapshot: only a DISABLED city is refused. */
  function ValidateCityStatus(city: City): (r: Result<City, Failure>)
    ensures r.Err? <==> city.status == DataMapper.DISABLED
    ensures r.Ok? ==> r.value == city
    ensures r.Err? ==> r.error == CityError(DisabledCity(DataFunction.DisabledPrefix + JavaText(city.id)))
  {
    if city.status == DataMapper.DISABLED then Err(CityError(DisabledCity(DataFunction.DisabledPrefix + JavaText(city.id)))) else Ok(city)
  }

  /** The chain after decoding: validate, find, status check, map with status 200. */
  ghost function Pipeline(request: ReadRequests.CityDataDto, tableName: string, getItem: GetItemClient,
                          mapToCity: CityMap, mapToCityResponse: ResponseMap)
    : (r: Result<CityDataResponse, Failure>)
    ensures ReadValidation.ValidateDto(request).Some? ==> r == Err(Validation(ReadValidation.ValidateDto(request).value))
    ensures ReadValidation.ValidateDto(request).None? ==>
      var found := FindById(request, tableName, getItem, mapToCity);
      && (found.Err? ==> r == Err(found.error))
      && (found.Ok? && found.value.status == DataMapper.DISABLED ==>
            r == Err(CityError(DisabledCity(DataFunction.DisabledPrefix + JavaText(found.value.id)))))
      && (found.Ok? && found.value.status != DataMapper.DISABLED ==> r == Ok(mapToCityResponse(found.value, DataFunction.OkStatus, None)))
  {
    match ReadValidation.ValidateDto(request)
    case Some(m) => Err(Validation(m))
    case None =>
      var city :- FindById(request, tableName, getItem, mapToCity);
      var active :- ValidateCityStatus(city);
      Ok(mapToCityResponse(active, DataFunction.OkStatus, None))
  }

  /** `CityDataFunction.apply`: 400 "Invalid request payload" for a payload that does not
      decode; otherwise the pipeline's response, or the error response of the same status
      table as the city-data function. */
  ghost function Apply(payload: seq<Byte>, decode: seq<Byte> -> Option<ReadRequests.CityDataDto>, tableName: string,
                       getItem: GetItemClient, mapToCity: CityMap, mapToCityResponse: ResponseMap)
    : (r: CityDataResponse)
    ensures decode(payload).None? ==>
      r == CityDataResponse(None, None, None, Some(DataFunction.BadRequest), Some(DataFunction.InvalidPayloadMessage))
    ensures decode(payload).Some? ==>
      var p := Pipeline(decode(payload).value, tableName, getItem, mapToCity, mapToCityResponse);
      && (p.Ok? ==> r == p.value)
      && (p.Err? ==> r == DataFunction.CreateDeviceUpdateResponse(p.error))
  {
    match decode(payload)
    case None => CityDataResponse(None, None, None, Some(DataFunction.BadRequest), Some(DataFunction.InvalidPayloadMessage))
    case Some(request) =>
      match Pipeline(request, tableName, getItem, mapToCity, mapToCityResponse)
      case Ok(response) => response
      case Err(f) => DataFunction.CreateDeviceUpdateResponse(f)
  }

  /** When the response mapper puts the given status into its response, as the city-data
      function's `toCityResponse` does, a response has status 200 exactly when the payload
      decoded, passed validation and named a city that exists, maps and is not DISABLED; it is
      then the mapper's response for that city. Every other response has a null id and a
      message. */
  lemma {:induction false} SuccessIff(payload: seq<Byte>, decode: seq<Byte> -> Option<ReadRequests.CityDataDto>, tableName: string,
                                      getItem: GetItemClient, mapToCity: CityMap, mapToCityResponse: ResponseMap)
    requires forall c, s, m :: mapToCityResponse(c, s, m).httpStatus == Some(s)
    ensures var r := Apply(payload, decode, tableName, getItem, mapToCity, mapToCityResponse);
      var passed := decode(payload).Some?
        && ReadValidation.ValidateDto(decode(payload).value).None?
        && FindById(decode(payload).value, tableName, getItem, mapToCity).Ok?
        && FindById(decode(payload).value, tableName, getItem, mapToCity).value.status != DataMapper.DISABLED;
      && (r.httpStatus == Some(DataFunction.OkStatus) <==> passed)
      && (passed ==>
            r == mapToCityResponse(FindById(decode(payload).value, tableName, getItem, mapToCity).value, DataFunction.OkStatus, None))
      && (!passed ==> r.cityId.None? && r.errorMessage.Some?)
  {
    if decode(payload).Some? {
      var p := Pipeline(decode(payload).value, tableName, getItem, mapToCity, mapToCityResponse);
      if p.Err? {
        var e := DataFunction.CreateDeviceUpdateResponse(p.error);
        assert e.httpStatus != Some(DataFunction.OkStatus);
      }
    }
  }

  /** Neither the table nor the mappers are consulted for a payload that does not decode or
      a request with violations. */
  lemma NoLookupBeforeValidation(payload: seq<Byte>, decode: seq<Byte> -> Option<ReadRequests.CityDataDto>, tableName: string,
                                 g1: GetItemClient, g2: GetItemClient, m1: CityMap, m2: CityMap, rm1: ResponseMap, rm2: ResponseMap)
    requires decode(payload).None? || ReadValidation.ValidateDto(decode(payload).value).Some?
    ensures Apply(payload, decode, tableName, g1, m1, rm1) == Apply(payload, decode, tableName, g2, m2, rm2)
  {
  }

  /** An identifier that is not a lower-case UUID is answered with 400 and a null id, and a
      null or empty one never reaches the table. */
  lemma InvalidIdentifierRefused(payload: seq<Byte>, decode: seq<Byte> -> Option<ReadRequests.CityDataDto>, tableName: string,
                                 getItem: GetItemClient, mapToCity: CityMap, mapToCityResponse: ResponseMap)
    requires decode(payload).Some?
    requires var id := decode(payload).value.cityId; !(id.Some? && ValidUuid.Matches(id.value))
    ensures var r := Apply(payload, decode, tableName, getItem, mapToCity, mapToCityResponse);
      r.httpStatus == Some(DataFunction.BadRequest) && r.cityId.None? && r.errorMessage.Some?
  {
    ReadRequests.CityDataDtoViolationsCases(decode(payload).value);
  }
}
