/** The city-data function's `functions/CityDataFunction`: decode the payload (a failure is
    answered with 400 at once), then validate, find, check the status and map, stopping at
    the first stage that throws; whatever is thrown after decoding is turned into an error
    response by `createDeviceUpdateResponse`, never propagated. */
module DataFunction {
  import opened Common
  import opened Dynamo
  import opened DataErrors
  import opened DataMapper
  import opened DataResponses
  import opened DataRepository
  import DataRequests
  import DataValidation
  import ValidUuid

  /** HTTP status codes of Spring's `HttpStatus` used here. */
  const OkStatus := 200
  const BadRequest := 400
  const NotFound := 404
  const NotAcceptable := 406
  const InternalServerError := 500

  const InvalidPayloadMessage := "Invalid request payload"
  const DisabledPrefix := "City is disabled: "

  /** `validateCityStatus`: only a DISABLED city is refused, with a message naming its id. */
  function ValidateCityStatus(city: City): (r: Result<City, Failure>)
    ensures r.Err? <==> city.status == DISABLED
    ensures r.Ok? ==> r.value == city
    ensures r.Err? ==> r.error == CityError(DisabledCity(DisabledPrefix + JavaText(city.id)))
  {
    if city.status == DISABLED then Err(CityError(DisabledCity(DisabledPrefix + JavaText(city.id)))) else Ok(city)
  }

  /** The reactive chain after decoding, up to `onErrorResume`: each stage runs only when the
      previous ones succeeded, in the order validate, find, status check, map. */
  ghost function Pipeline(request: DataRequests.CityDataRequest, getItem: GetItemClient)
    : (r: Result<CityDataResponse, Failure>)
    ensures DataValidation.ValidateCityDataRequest(request).Some? ==>
      r == Err(Validation(DataValidation.ValidateCityDataRequest(request).value))
    ensures DataValidation.ValidateCityDataRequest(request).None? ==>
      var found := FindCityById(request, getItem);
      && (found.Err? ==> r == Err(found.error))
      && (found.Ok? && found.value.status == DISABLED ==>
            r == Err(CityError(DisabledCity(DisabledPrefix + JavaText(found.value.id)))))
      && (found.Ok? && found.value.status != DISABLED ==> r == Ok(ToCityResponse(found.value, OkStatus, None)))
  {
    match DataValidation.ValidateCityDataRequest(request)
    case Some(m) => Err(Validation(m))
    case None =>
      var city :- FindCityById(request, getItem);
      var active :- ValidateCityStatus(city);
      Ok(ToCityResponse(active, OkStatus, None))
  }

  /** The switch of `createDeviceUpdateResponse`: validation 400, not found 404, disabled
      406, anything else (a plain `CityException` included) 500. */
  function StatusCodeOf(f: Failure): (r: int)
    ensures r == BadRequest <==> f.Validation?
    ensures r == NotFound <==> f.CityError? && f.exception.ResourceNotFound?
    ensures r == NotAcceptable <==> f.CityError? && f.exception.DisabledCity?
    ensures r == InternalServerError <==> !(f.Validation? || (f.CityError? && !f.exception.PlainCityException?))
    ensures r != OkStatus
  {
    match f
    case Validation(_) => BadRequest
    case CityError(ResourceNotFound(_)) => NotFound
    case CityError(DisabledCity(_)) => NotAcceptable
    case _ => InternalServerError
  }

  /** `createDeviceUpdateResponse`: the status of the error's kind and its message, with all
      data fields null (the record `BuildErrorResponse` builds). */
  function CreateDeviceUpdateResponse(f: Failure): (r: CityDataResponse)
    ensures r.cityId.None? && r.name.None? && r.timezone.None?
    ensures r.httpStatus == Some(StatusCodeOf(f)) && r.errorMessage == Some(f.Message())
  {
    CityDataResponse(None, None, None, Some(StatusCodeOf(f)), Some(f.Message()))
  }

  /** `apply`. */
  ghost function Apply(payload: seq<Byte>, decode: seq<Byte> -> Option<DataRequests.CityDataRequest>, getItem: GetItemClient)
    : (r: CityDataResponse)
    ensures decode(payload).None? ==> r == CityDataResponse(None, None, None, Some(BadRequest), Some(InvalidPayloadMessage))
    ensures decode(payload).Some? ==>
      var p := Pipeline(decode(payload).value, getItem);
      && (p.Ok? ==> r == p.value)
      && (p.Err? ==> r == CreateDeviceUpdateResponse(p.error))
  {
    match decode(payload)
    case None => CityDataResponse(None, None, None, Some(BadRequest), Some(InvalidPayloadMessage))
    case Some(request) =>
      match Pipeline(request, getItem)
      case Ok(response) => response
      case Err(f) => CreateDeviceUpdateResponse(f)
  }

  /** A response has status 200 exactly when the payload decoded, passed validation and named
      a city that exists, maps and is not DISABLED; it then echoes the city's id, name and
      timezone and has no message. Every other response has a null id and a message. */
  lemma {:induction false} SuccessIff(payload: seq<Byte>, decode: seq<Byte> -> Option<DataRequests.CityDataRequest>, getItem: GetItemClient)
    ensures var r := Apply(payload, decode, getItem);
      && (r.httpStatus == Some(OkStatus) <==>
            decode(payload).Some?
            && DataValidation.ValidateCityDataRequest(decode(payload).value).None?
            && FindCityById(decode(payload).value, getItem).Ok?
            && FindCityById(decode(payload).value, getItem).value.status != DISABLED)
      && (r.httpStatus == Some(OkStatus) ==>
            var city := FindCityById(decode(payload).value, getItem).value;
            r == CityDataResponse(city.id, city.name, city.timezone, Some(OkStatus), None))
      && (r.httpStatus != Some(OkStatus) ==> r.cityId.None? && r.errorMessage.Some?)
  {
    if decode(payload).Some? {
      var p := Pipeline(decode(payload).value, getItem);
      if p.Err? {
        var e := CreateDeviceUpdateResponse(p.error);
      }
    }
  }

  /** Nothing is looked up for a payload that does not decode or a request that fails
      validation: the response is the same whatever the table would answer. */
  lemma NoLookupBeforeValidation(payload: seq<Byte>, decode: seq<Byte> -> Option<DataRequests.CityDataRequest>,
                                 g1: GetItemClient, g2: GetItemClient)
    requires decode(payload).None? || DataValidation.ValidateCityDataRequest(decode(payload).value).Some?
    ensures Apply(payload, decode, g1) == Apply(payload, decode, g2)
  {
  }

  /** The identifiers of the function tests, against a table holding an enabled and a disabled city. */
  const EnabledCityId := "a0ecb466-7ef5-47bf-a1ca-12f9f9328528"
  const DisabledCityId := "a0ecb466-7ef5-47bf-a1ca-12f9f9328529"
  const NonExistingCityId := "a0ecb466-7ef5-47bf-a1ca-12f9f9328530"

  function FixtureTable(): seq<Item> {
    [ map[IdColumn := S(EnabledCityId), NameColumn := S("Quito"), StatusColumn := S("ACTIVE")],
      map[IdColumn := S(DisabledCityId), NameColumn := S("Guayaquil"), StatusColumn := S("DISABLED")] ]
  }

  /** The point gets of the test identifiers against the fixture table. */
  lemma FixtureLookups()
    ensures GetItem(FixtureTable(), CityKey(Some(EnabledCityId))) == Some(FixtureTable()[0])
    ensures GetItem(FixtureTable(), CityKey(Some(DisabledCityId))) == Some(FixtureTable()[1])
    ensures GetItem(FixtureTable(), CityKey(Some(NonExistingCityId))).None?
  {
    var t := FixtureTable();
    var enabledKey, disabledKey, missingKey := CityKey(Some(EnabledCityId)), CityKey(Some(DisabledCityId)), CityKey(Some(NonExistingCityId));
    assert HasKey(t[0], enabledKey);
    assert !HasKey(t[0], disabledKey) by { assert IdColumn in disabledKey; }
    assert HasKey(t[1], disabledKey);
    assert !HasKey(t[0], missingKey) by { assert IdColumn in missingKey; }
    assert !HasKey(t[1], missingKey) by { assert IdColumn in missingKey; }
  }

  /** The enabled fixture item maps to its city. */
  lemma EnabledCityFound()
    ensures FindCityById(DataRequests.CityDataRequest(Some(EnabledCityId)), TableGetItemClient(FixtureTable()))
         == Ok(City(Some(EnabledCityId), Some("Quito"), None, None, ACTIVE))
  {
    FixtureLookups();
    assert FixtureTable()[0] != map[] by { assert IdColumn in FixtureTable()[0]; }
    StatusRoundTrip(FixtureTable()[0], ACTIVE);
  }

  /** The disabled fixture item maps to its city. */
  lemma DisabledCityFound()
    ensures FindCityById(DataRequests.CityDataRequest(Some(DisabledCityId)), TableGetItemClient(FixtureTable()))
         == Ok(City(Some(DisabledCityId), Some("Guayaquil"), None, None, DISABLED))
  {
    FixtureLookups();
    assert FixtureTable()[1] != map[] by { assert IdColumn in FixtureTable()[1]; }
    StatusRoundTrip(FixtureTable()[1], DISABLED);
  }

  /** The pipeline of a valid request whose city is found: 200 unless the city is DISABLED. */
  lemma PassedStages(request: DataRequests.CityDataRequest, getItem: GetItemClient, city: City)
    requires DataValidation.ValidateCityDataRequest(request).None?
    requires FindCityById(request, getItem) == Ok(city)
    ensures city.status != DISABLED ==> Pipeline(request, getItem) == Ok(ToCityResponse(city, OkStatus, None))
    ensures city.status == DISABLED ==> Pipeline(request, getItem).Err? && StatusCodeOf(Pipeline(request, getItem).error) == NotAcceptable
  {
  }

  /** The enabled test city answers 200 and echoes its id. */
  lemma EnabledCityScenario()
    ensures var r := Pipeline(DataRequests.CityDataRequest(Some(EnabledCityId)), TableGetItemClient(FixtureTable()));
      r.Ok? && r.value.cityId == Some(EnabledCityId) && r.value.httpStatus == Some(OkStatus)
  {
    var request := DataRequests.CityDataRequest(Some(EnabledCityId));
    DataValidation.ValidateFixtures();
    EnabledCityFound();
    PassedStages(request, TableGetItemClient(FixtureTable()), City(Some(EnabledCityId), Some("Quito"), None, None, ACTIVE));
  }

  /** The disabled test city answers 406. */
  lemma DisabledCityScenario()
    ensures var r := Pipeline(DataRequests.CityDataRequest(Some(DisabledCityId)), TableGetItemClient(FixtureTable()));
      r.Err? && StatusCodeOf(r.error) == NotAcceptable
  {
    assert ValidUuid.Matches(DisabledCityId) by { ValidUuid.FixtureIdentifiers(); }
    DataValidation.ValidIdentifierPasses(DisabledCityId);
    DisabledCityFound();
    PassedStages(DataRequests.CityDataRequest(Some(DisabledCityId)), TableGetItemClient(FixtureTable()),
      City(Some(DisabledCityId), Some("Guayaquil"), None, None, DISABLED));
  }

  /** An identifier no item has answers 404. */
  lemma NonExistingCityScenario()
    ensures var r := Pipeline(DataRequests.CityDataRequest(Some(NonExistingCityId)), TableGetItemClient(FixtureTable()));
      r.Err? && StatusCodeOf(r.error) == NotFound
  {
    assert ValidUuid.Matches(NonExistingCityId) by { ValidUuid.FixtureIdentifiers(); }
    DataValidation.ValidIdentifierPasses(NonExistingCityId);
    FixtureLookups();
  }

  /** A null, a blank and a truncated identifier answer 400, the last with "Invalid UUID". */
  lemma InvalidIdentifierScenarios(getItem: GetItemClient)
    ensures var r := Pipeline(DataRequests.CityDataRequest(None), getItem); r.Err? && StatusCodeOf(r.error) == BadRequest
    ensures var r := Pipeline(DataRequests.CityDataRequest(Some(" ")), getItem); r.Err? && StatusCodeOf(r.error) == BadRequest
    ensures Pipeline(DataRequests.CityDataRequest(Some("a0ecb466-7ef5-47bf")), getItem) == Err(Validation("Invalid UUID"))
  {
    DataValidation.ValidateFixtures();
  }
}
