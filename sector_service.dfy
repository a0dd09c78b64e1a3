/** `services/SectorService` of the city-read function: the active-parent gate before the
    sector query, with the `FunctionMapper` and the configured city time zone. Its request,
    as this file reads it, holds a city identifier and a request id; the city lookup it
    delegates to is a parameter, since its signature does not match `CityService`. */
module SectorService {
  import opened Common
  import opened Dynamo
  import opened ReadEntities
  import opened ReadErrors
  import opened ReadMappers
  import CityRepository
  import SectorRepository

  /** `cityIdRequest().cityId()` and `requestId()` of the request. */
  datatype SectorsRequest = SectorsRequest(cityId: Option<string>, requestId: Option<string>)

  /** `cityService.findActiveCityById(request)`. */
  type CityLookup = SectorsRequest -> Result<CityEntity, ReadError>

  const InactiveCityPrefix := "Cannot perform operations on an Inactive city: "

  /** `findActiveSectorsByCityId`: city-lookup errors pass through unchanged; an ACTIVE city
      has its ACTIVE sectors queried with its id and the request id and mapped in order;
      any other city gets an inactive error naming the id and carrying the request id, and a
      city without its common part throws a `NullPointerException`. */
  function FindActiveSectorsByCityId(request: SectorsRequest, findActiveCity: CityLookup, tableName: string,
                                     client: QueryClient, cityTimeZone: string, parseInZone: ZonedParser)
    : (r: Result<seq<SectorEntity>, ReadError>)
    ensures findActiveCity(request).Err? ==> r == Err(findActiveCity(request).error)
    ensures findActiveCity(request).Ok? && findActiveCity(request).value.common.None? ==>
      r == Err(Other(NullCommonMessage))
    ensures (findActiveCity(request).Ok? && findActiveCity(request).value.common.Some?
             && findActiveCity(request).value.common.value.status != Some(ACTIVE)) ==>
      r == Err(InactiveCity(InactiveCityPrefix + JavaText(request.cityId), request.requestId))
    ensures r.Ok? ==> findActiveCity(request).Ok? && CityStatusOf(findActiveCity(request).value) == Some(ACTIVE)
    ensures findActiveCity(request).Ok? && CityStatusOf(findActiveCity(request).value) == Some(ACTIVE) ==>
      var sectors := SectorRepository.FindSectorsByCityAndStatus(tableName, request.cityId, ACTIVE, request.requestId, client);
      && (sectors.Err? ==> r == Err(sectors.error))
      && (sectors.Ok? ==> r == MapSectors(FunctionMapper(cityTimeZone, parseInZone), sectors.value))
  {
    var city :- findActiveCity(request);
    if city.common.None? then Err(Other(NullCommonMessage))
    else if city.common.value.status == Some(ACTIVE) then
      var items :- SectorRepository.FindSectorsByCityAndStatus(tableName, request.cityId, ACTIVE, request.requestId, client);
      MapSectors(FunctionMapper(cityTimeZone, parseInZone), items)
    else
      Err(InactiveCity(InactiveCityPrefix + JavaText(request.cityId), request.requestId))
  }

  /** The sector query is not consulted for a city that is not ACTIVE. */
  lemma SectorQueryOnlyForActiveCity(request: SectorsRequest, findActiveCity: CityLookup, tableName: string,
                                     c1: QueryClient, c2: QueryClient, cityTimeZone: string, parseInZone: ZonedParser)
    requires !(findActiveCity(request).Ok? && CityStatusOf(findActiveCity(request).value) == Some(ACTIVE))
    ensures FindActiveSectorsByCityId(request, findActiveCity, tableName, c1, cityTimeZone, parseInZone)
         == FindActiveSectorsByCityId(request, findActiveCity, tableName, c2, cityTimeZone, parseInZone)
  {
  }

  /** Against a table, the sectors of an ACTIVE city are all ACTIVE, one per ACTIVE sector item. */
  lemma ActiveSectorsOnly(request: SectorsRequest, findActiveCity: CityLookup, tableName: string,
                          table: seq<Item>, cityTimeZone: string, parseInZone: ZonedParser)
    requires FindActiveSectorsByCityId(request, findActiveCity, tableName, TableQueryClient(table), cityTimeZone, parseInZone).Ok?
    ensures var sectors := FindActiveSectorsByCityId(request, findActiveCity, tableName, TableQueryClient(table), cityTimeZone, parseInZone).value;
      && |sectors| == |Query(table, CityRepository.SectorsQuery(tableName, request.cityId, ACTIVE))|
      && forall i :: 0 <= i < |sectors| ==> SectorStatusOf(sectors[i]) == Some(ACTIVE)
  {
    var m := FunctionMapper(cityTimeZone, parseInZone);
    var items := Query(table, CityRepository.SectorsQuery(tableName, request.cityId, ACTIVE));
    SectorRepository.ActiveSectorsAgainstTable(table, tableName, request.cityId, request.requestId);
    var sectors := FindActiveSectorsByCityId(request, findActiveCity, tableName, TableQueryClient(table), cityTimeZone, parseInZone).value;
    assert MapSectors(m, items) == Ok(sectors);
    forall i | 0 <= i < |sectors| ensures SectorStatusOf(sectors[i]) == Some(ACTIVE) {
      assert items[i] in items;
      ActiveItemMapsToActiveSector(m, items[i]);
    }
  }
}
