/** `repositories/SectorRepository` of the city-read function: the same sector query as
    `CityRepository`, with a failure that also carries error code INTERNAL_001 and the
    request id. */
module SectorRepository {
  import opened Common
  import opened Dynamo
  import opened ReadEntities
  import opened ReadErrors
  import CityRepository

  /** `findSectorsByCityAndStatus(cityId, status, requestId)`. */
  function FindSectorsByCityAndStatus(tableName: string, cityId: Option<string>, status: RecordStatus,
                                      requestId: Option<string>, client: QueryClient): (r: Result<seq<Item>, ReadError>)
    ensures r.Ok? <==> client(CityRepository.SectorsQuery(tableName, cityId, status)).Answered?
    ensures r.Ok? ==> r.value == client(CityRepository.SectorsQuery(tableName, cityId, status)).value
    ensures client(CityRepository.SectorsQuery(tableName, cityId, status)).DynamoDbFailure? ==>
      r == Err(City(CityRepository.SectorsQueryFailure + JavaText(cityId), Some(INTERNAL_001), requestId))
    ensures client(CityRepository.SectorsQuery(tableName, cityId, status)).OtherFailure? ==>
      r == Err(Other(client(CityRepository.SectorsQuery(tableName, cityId, status)).message))
  {
    match client(CityRepository.SectorsQuery(tableName, cityId, status))
    case Answered(items) => Ok(items)
    case DynamoDbFailure(_) =>
      Err(City(CityRepository.SectorsQueryFailure + JavaText(cityId), Some(INTERNAL_001), requestId))
    case OtherFailure(message) => Err(Other(message))
  }

  /** Against a table, asking for ACTIVE sectors returns only sector items of that city whose
      status attribute is "ACTIVE", all of them, and nothing for a city without sectors. */
  lemma ActiveSectorsAgainstTable(table: seq<Item>, tableName: string, cityId: Option<string>, requestId: Option<string>)
    ensures var r := FindSectorsByCityAndStatus(tableName, cityId, ACTIVE, requestId, TableQueryClient(table));
      r.Ok?
      && (forall x :: x in r.value ==> HasAttribute(x, "status", S("ACTIVE")))
      && (forall x :: x in r.value <==> x in table && CityRepository.IsSectorItem(x, cityId, ACTIVE))
      && ((forall x :: x in table ==> !CityRepository.IsSectorItem(x, cityId, ACTIVE)) ==> r.value == [])
  {
    var q := CityRepository.SectorsQuery(tableName, cityId, ACTIVE);
    assert forall x :: MatchesQuery(x, q) <==> CityRepository.IsSectorItem(x, cityId, ACTIVE);
    if forall x :: x in table ==> !CityRepository.IsSectorItem(x, cityId, ACTIVE) {
      NoMatchQueriesEmpty(table, q);
    }
  }
}
