/** `services/CityService` of the city-read function: look the city up, take the first item,
    map it with the read `CityMapper`, reject an INACTIVE city; for sectors, query them only
    for an ACTIVE city and map every item. */
module CityService {
  import opened Common
  import opened Dynamo
  import opened ReadEntities
  import opened ReadErrors
  import opened ReadRequests
  import opened ReadMappers
  import CityRepository

  const CityNotFoundMessage := "City not found with ID: "
  const InactiveRecordMessage := "The city record is inactive."
  const InactiveCityMessage := "Cannot perform operations on an Inactive city."

  /** `retrieveCityData`: not-found for an empty answer, else its first item. */
  function RetrieveCityData(cityId: Option<string>, items: seq<Item>): (r: Result<Item, ReadError>)
    ensures r.Err? <==> |items| == 0
    ensures r.Ok? ==> r.value == items[0]
    ensures r.Err? ==> r.error == ResourceNotFound(CityNotFoundMessage + JavaText(cityId))
  {
    if |items| == 0 then Err(ResourceNotFound(CityNotFoundMessage + JavaText(cityId))) else Ok(items[0])
  }

  /** `validateCityStatus`: only an INACTIVE status is rejected; ACTIVE and a null status
      pass, and an entity without its common part throws a `NullPointerException`. */
  function ValidateCityStatus(city: CityEntity): (r: Result<CityEntity, ReadError>)
    ensures city.common.None? ==> r == Err(Other(NullCommonMessage))
    ensures city.common.Some? ==> (r.Err? <==> city.common.value.status == Some(INACTIVE))
    ensures r.Ok? ==> r.value == city
    ensures city.common.Some? && r.Err? ==> r.error == InactiveCity(InactiveRecordMessage, None)
  {
    if city.common.None? then Err(Other(NullCommonMessage))
    else if city.common.value.status == Some(INACTIVE) then Err(InactiveCity(InactiveRecordMessage, None))
    else Ok(city)
  }

  /** `findActiveCityById`: repository, first item, mapper, status check, stopping at the
      first failure. A returned city is the mapping of the first item and is not INACTIVE;
      a first item that maps is returned unless its status is INACTIVE or its common part
      is null. */
  function FindActiveCityById(request: FunctionRequest, tableName: string, client: QueryClient, parse: Parser)
    : (r: Result<CityEntity, ReadError>)
    ensures var found := CityRepository.FindByCityId(tableName, request.cityId, client);
      && (found.Err? ==> r == Err(found.error))
      && (found.Ok? && |found.value| == 0 ==> r == Err(ResourceNotFound(CityNotFoundMessage + JavaText(request.cityId))))
      && (found.Ok? && |found.value| > 0 && MapCityDataResponse(CityMapper(parse), found.value[0]).Err? ==>
            r == Err(MapCityDataResponse(CityMapper(parse), found.value[0]).error))
      && (r.Ok? ==>
            found.Ok? && |found.value| > 0
            && MapCityDataResponse(CityMapper(parse), found.value[0]) == Ok(r.value)
            && r.value.common.Some? && r.value.common.value.status != Some(INACTIVE))
    ensures var found := CityRepository.FindByCityId(tableName, request.cityId, client);
      found.Ok? && |found.value| > 0 && MapCityDataResponse(CityMapper(parse), found.value[0]).Ok? ==>
        var city := MapCityDataResponse(CityMapper(parse), found.value[0]).value;
        && r == ValidateCityStatus(city)
        && (r == Ok(city) <==> city.common.Some? && city.common.value.status != Some(INACTIVE))
        && (city.common.Some? && city.common.value.status == Some(INACTIVE) ==>
              r == Err(InactiveCity(InactiveRecordMessage, None)))
  {
    var items :- CityRepository.FindByCityId(tableName, request.cityId, client);
    var item :- RetrieveCityData(request.cityId, items);
    var city :- MapCityDataResponse(CityMapper(parse), item);
    ValidateCityStatus(city)
  }

  /** `findActiveSectorsByCityId`: the sectors of an ACTIVE city, mapped one by one in order;
      an inactive error for any other city status, including a null one. */
  function FindActiveSectorsByCityId(request: FunctionRequest, tableName: string, client: QueryClient, parse: Parser)
    : (r: Result<seq<SectorEntity>, ReadError>)
    ensures var city := FindActiveCityById(request, tableName, client, parse);
      && (city.Err? ==> r == Err(city.error))
      && (city.Ok? && CityStatusOf(city.value) != Some(ACTIVE) ==> r == Err(InactiveCity(InactiveCityMessage, None)))
      && (r.Ok? ==> city.Ok? && CityStatusOf(city.value) == Some(ACTIVE))
    ensures var city := FindActiveCityById(request, tableName, client, parse);
      city.Ok? && CityStatusOf(city.value) == Some(ACTIVE) ==>
        var sectors := CityRepository.FindSectorsByCityAndStatus(tableName, request.cityId, ACTIVE, client);
        && (sectors.Err? ==> r == Err(sectors.error))
        && (sectors.Ok? ==> r == MapSectors(CityMapper(parse), sectors.value))
  {
    var city :- FindActiveCityById(request, tableName, client, parse);
    if city.common.None? then Err(Other(NullCommonMessage))
    else if city.common.value.status == Some(ACTIVE) then
      var items :- CityRepository.FindSectorsByCityAndStatus(tableName, request.cityId, ACTIVE, client);
      MapSectors(CityMapper(parse), items)
    else
      Err(InactiveCity(InactiveCityMessage, None))
  }

  /** The sector query is never consulted unless the city is ACTIVE: two clients that answer
      the city query alike give the same result for a city that is not ACTIVE. */
  lemma SectorQueryOnlyForActiveCity(request: FunctionRequest, tableName: string, c1: QueryClient, c2: QueryClient, parse: Parser)
    requires c1(CityRepository.CityQuery(tableName, request.cityId)) == c2(CityRepository.CityQuery(tableName, request.cityId))
    requires var city := FindActiveCityById(request, tableName, c1, parse);
      !(city.Ok? && CityStatusOf(city.value) == Some(ACTIVE))
    ensures FindActiveSectorsByCityId(request, tableName, c1, parse) == FindActiveSectorsByCityId(request, tableName, c2, parse)
  {
    assert FindActiveCityById(request, tableName, c1, parse) == FindActiveCityById(request, tableName, c2, parse);
  }

  /** A city item without a status passes the city lookup but is refused sectors. */
  lemma NullStatusCity(request: FunctionRequest, tableName: string, client: QueryClient, parse: Parser)
    requires var found := CityRepository.FindByCityId(tableName, request.cityId, client);
      found.Ok? && |found.value| > 0 && "status" !in found.value[0]
      && MapMetadataAttributes(CityMapper(parse), Some(found.value[0])).Ok?
    ensures FindActiveCityById(request, tableName, client, parse).Ok?
    ensures FindActiveSectorsByCityId(request, tableName, client, parse) == Err(InactiveCity(InactiveCityMessage, None))
  {
    var item := CityRepository.FindByCityId(tableName, request.cityId, client).value[0];
    AbsentStatusIsNull(CityMapper(parse), item);
  }

  /** Against a table, every sector returned for a city is ACTIVE and there is one per
      ACTIVE sector item of that city. */
  lemma ActiveSectorsOnly(request: FunctionRequest, tableName: string, table: seq<Item>, parse: Parser)
    requires FindActiveSectorsByCityId(request, tableName, TableQueryClient(table), parse).Ok?
    ensures var sectors := FindActiveSectorsByCityId(request, tableName, TableQueryClient(table), parse).value;
      && |sectors| == |Query(table, CityRepository.SectorsQuery(tableName, request.cityId, ACTIVE))|
      && forall i :: 0 <= i < |sectors| ==> SectorStatusOf(sectors[i]) == Some(ACTIVE)
  {
    var items := Query(table, CityRepository.SectorsQuery(tableName, request.cityId, ACTIVE));
    CityRepository.SectorsQueryAgainstTable(table, tableName, request.cityId, ACTIVE);
    var sectors := FindActiveSectorsByCityId(request, tableName, TableQueryClient(table), parse).value;
    assert MapSectors(CityMapper(parse), items) == Ok(sectors);
    forall i | 0 <= i < |sectors| ensures SectorStatusOf(sectors[i]) == Some(ACTIVE) {
      assert items[i] in items;
      ActiveItemMapsToActiveSector(CityMapper(parse), items[i]);
    }
  }
}
