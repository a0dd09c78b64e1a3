/** `repositories/CityRepository` of the city-read function: the city query (pk = sk =
    "CITY#" + id), the sector query (pk = "CITY#" + id, sk beginning with "SECTOR#", status
    filter) and the wrapping of a `DynamoDbException` into a `CityException`; any other
    exception of the client passes through unchanged. */
module CityRepository {
  import opened Common
  import opened Dynamo
  import opened ReadEntities
  import opened ReadErrors

  /** "CITY#" + cityId, as Java concatenates a possibly null identifier. */
  function CityPartition(cityId: Option<string>): string {
    CityPkPrefix + JavaText(cityId)
  }

  /** The request `findByCityId` sends. */
  function CityQuery(tableName: string, cityId: Option<string>): QueryRequest {
    QueryRequest(tableName, PartitionAndSortEqual(S(CityPartition(cityId)), S(CityPartition(cityId))), None)
  }

  /** The request both sector lookups send; `#status` stands for the attribute "status". */
  function SectorsQuery(tableName: string, cityId: Option<string>, status: RecordStatus): QueryRequest {
    QueryRequest(tableName, PartitionAndSortPrefix(S(CityPartition(cityId)), S(SectorSkPrefix)),
      Some(AttributeEquals("status", S(RecordStatusValue(status)))))
  }

  const CityQueryFailure := "Error when retrieving city data with ID: "
  const SectorsQueryFailure := "Error when querying sectors by city ID: "

  /** `findByCityId`: the items the client answers, or a `CityException` naming the id. */
  function FindByCityId(tableName: string, cityId: Option<string>, client: QueryClient): (r: Result<seq<Item>, ReadError>)
    ensures r.Ok? <==> client(CityQuery(tableName, cityId)).Answered?
    ensures r.Ok? ==> r.value == client(CityQuery(tableName, cityId)).value
    ensures client(CityQuery(tableName, cityId)).DynamoDbFailure? ==>
      r == Err(City(CityQueryFailure + JavaText(cityId), None, None))
    ensures client(CityQuery(tableName, cityId)).OtherFailure? ==>
      r == Err(Other(client(CityQuery(tableName, cityId)).message))
  {
    match client(CityQuery(tableName, cityId))
    case Answered(items) => Ok(items)
    case DynamoDbFailure(_) => Err(City(CityQueryFailure + JavaText(cityId), None, None))
    case OtherFailure(message) => Err(Other(message))
  }

  /** `findSectorsByCityAndStatus`: the items the client answers, or a `CityException`. */
  function FindSectorsByCityAndStatus(tableName: string, cityId: Option<string>, status: RecordStatus, client: QueryClient)
    : (r: Result<seq<Item>, ReadError>)
    ensures r.Ok? <==> client(SectorsQuery(tableName, cityId, status)).Answered?
    ensures r.Ok? ==> r.value == client(SectorsQuery(tableName, cityId, status)).value
    ensures client(SectorsQuery(tableName, cityId, status)).DynamoDbFailure? ==>
      r == Err(City(SectorsQueryFailure + JavaText(cityId), None, None))
    ensures client(SectorsQuery(tableName, cityId, status)).OtherFailure? ==>
      r == Err(Other(client(SectorsQuery(tableName, cityId, status)).message))
  {
    match client(SectorsQuery(tableName, cityId, status))
    case Answered(items) => Ok(items)
    case DynamoDbFailure(_) => Err(City(SectorsQueryFailure + JavaText(cityId), None, None))
    case OtherFailure(message) => Err(Other(message))
  }

  /** The city item shape: both keys equal "CITY#" + id. */
  predicate IsCityItem(item: Item, cityId: Option<string>) {
    HasAttribute(item, PartitionKey, S(CityPartition(cityId))) && HasAttribute(item, SortKey, S(CityPartition(cityId)))
  }

  /** The sector item shape for a city and a status. */
  predicate IsSectorItem(item: Item, cityId: Option<string>, status: RecordStatus) {
    HasAttribute(item, PartitionKey, S(CityPartition(cityId)))
    && SortKey in item && item[SortKey].s.Some? && StartsWith(item[SortKey].s.value, SectorSkPrefix)
    && HasAttribute(item, "status", S(RecordStatusValue(status)))
  }

  /** Against a table, the city query returns exactly the city items of that id, and nothing
      (not an error) for an unknown id. */
  lemma CityQueryAgainstTable(table: seq<Item>, tableName: string, cityId: Option<string>)
    ensures var r := FindByCityId(tableName, cityId, TableQueryClient(table));
      r.Ok?
      && (forall x :: x in r.value <==> x in table && IsCityItem(x, cityId))
      && ((forall x :: x in table ==> !IsCityItem(x, cityId)) ==> r.value == [])
  {
    assert forall x :: MatchesQuery(x, CityQuery(tableName, cityId)) <==> IsCityItem(x, cityId);
    if forall x :: x in table ==> !IsCityItem(x, cityId) {
      NoMatchQueriesEmpty(table, CityQuery(tableName, cityId));
    }
  }

  /** A table holding one city item among items of other keys answers exactly that item. */
  lemma SingleCityItem(before: seq<Item>, city: Item, after: seq<Item>, tableName: string, cityId: Option<string>)
    requires IsCityItem(city, cityId)
    requires forall x :: x in before + after ==> !IsCityItem(x, cityId)
    ensures FindByCityId(tableName, cityId, TableQueryClient(before + [city] + after)) == Ok([city])
  {
    var q := CityQuery(tableName, cityId);
    assert forall x :: MatchesQuery(x, q) <==> IsCityItem(x, cityId);
    QueryConcat(before + [city], after, q);
    QueryConcat(before, [city], q);
    NoMatchQueriesEmpty(before, q);
    NoMatchQueriesEmpty(after, q);
    assert [city][1..] == [];
    assert Query([city], q) == [city];
    assert Query(before + [city] + after, q) == [city];
  }

  /** Against a table, the sector query returns exactly the sector items of that city whose
      status is the requested one, in table order. */
  lemma SectorsQueryAgainstTable(table: seq<Item>, tableName: string, cityId: Option<string>, status: RecordStatus)
    ensures var r := FindSectorsByCityAndStatus(tableName, cityId, status, TableQueryClient(table));
      r.Ok? && r.value == Query(table, SectorsQuery(tableName, cityId, status))
      && forall x :: x in r.value <==> x in table && IsSectorItem(x, cityId, status)
  {
    assert forall x :: MatchesQuery(x, SectorsQuery(tableName, cityId, status)) <==> IsSectorItem(x, cityId, status);
  }
}
