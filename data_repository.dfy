/** The city-data function's `repository/CitiesRepository.findCityById`: a point get on the
    "Cities" table with the one-entry key {"id": cityId}. Only a `DynamoDbException` is
    caught and rewrapped; not-found and mapping errors pass through unchanged. */
module DataRepository {
  import opened Common
  import opened Dynamo
  import opened DataErrors
  import opened DataMapper
  import DataRequests

  /** The key map built by `put`; a null id gives an attribute value without a string. */
  function CityKey(cityId: Option<string>): (key: Item)
    ensures |key| == 1 && IdColumn in key && key[IdColumn].s == cityId
  {
    map[IdColumn := AttributeValue(cityId)]
  }

  const NotFoundPrefix := "City not found with ID: "
  const FailurePrefix := "Error finding city with ID: "

  /** `findCityById`. */
  function FindCityById(request: DataRequests.CityDataRequest, getItem: GetItemClient): (r: Result<City, Failure>)
    ensures var answer := getItem(GetItemRequest(TableName, CityKey(request.cityId)));
      && (answer.DynamoDbFailure? ==> r == Err(Runtime(FailurePrefix + JavaText(request.cityId))))
      && (answer.OtherFailure? ==> r == Err(Runtime(answer.message)))
      && (answer.Answered? && (answer.value.None? || answer.value.value == map[]) ==>
            r == Err(CityError(ResourceNotFound(NotFoundPrefix + JavaText(request.cityId)))))
      && (answer.Answered? && answer.value.Some? && answer.value.value != map[] ==> r == ToCity(answer.value.value))
  {
    match getItem(GetItemRequest(TableName, CityKey(request.cityId)))
    case DynamoDbFailure(_) => Err(Runtime(FailurePrefix + JavaText(request.cityId)))
    case OtherFailure(message) => Err(Runtime(message))
    case Answered(item) =>
      if item.None? || item.value == map[] then Err(CityError(ResourceNotFound(NotFoundPrefix + JavaText(request.cityId))))
      else ToCity(item.value)
  }

  /** Against a table: the city is reported not found exactly when no item has the id, and
      otherwise the result is the mapping of the first item that has it. */
  lemma FindAgainstTable(table: seq<Item>, request: DataRequests.CityDataRequest)
    ensures var r := FindCityById(request, TableGetItemClient(table));
      && ((forall x :: x in table ==> !HasKey(x, CityKey(request.cityId))) <==>
            r == Err(CityError(ResourceNotFound(NotFoundPrefix + JavaText(request.cityId)))))
      && (GetItem(table, CityKey(request.cityId)).Some? ==> r == ToCity(GetItem(table, CityKey(request.cityId)).value))
  {
    var key := CityKey(request.cityId);
    var found := GetItem(table, key);
    if found.Some? {
      assert IdColumn in found.value;
      assert found.value != map[];
    }
  }
}
