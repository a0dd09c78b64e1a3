/** The city-data function's `entities/City` and `mappers/CityMapper`: an item of the "Cities"
    table becomes a `City`, read by column name, and a `City` with a status code and an
    optional message becomes a `CityDataResponse`. Unlike the read mappers, a missing status
    is an error here, because `CityStatus.valueOf(null)` throws. */
module DataMapper {
  import opened Common
  import opened Dynamo
  import opened DataErrors
  import opened DataResponses

  /** The constants of `entities/CityStatus`. */
  datatype CityStatus = ACTIVE | INACTIVE | DISABLED

  function CityStatusName(s: CityStatus): string {
    match s
    case ACTIVE => "ACTIVE"
    case INACTIVE => "INACTIVE"
    case DISABLED => "DISABLED"
  }

  const CityStatusClass := "hiperium.city.data.function.entities.CityStatus"
  const NullNameMessage := "Name is null"

  /** `entities/City` and its table and column names. */
  datatype City = City(id: Option<string>, name: Option<string>, country: Option<string>,
                       timezone: Option<string>, status: CityStatus)

  const TableName := "Cities"
  const IdColumn := "id"
  const NameColumn := "name"
  const StatusColumn := "status"
  const CountryColumn := "country"
  const TimezoneColumn := "timezone"

  /** `getStatusEnumFromAttributesMap`: `CityStatus.valueOf` of the status column, which
      throws for a missing value and for anything that is not exactly a constant name. */
  function GetStatus(item: Item): (r: Result<CityStatus, Failure>)
    ensures var v := StringAttribute(Some(item), StatusColumn);
      && (v.None? ==> r == Err(NullPointer(NullNameMessage)))
      && (r.Ok? ==> v == Some(CityStatusName(r.value)))
      && (v.Some? && (forall s: CityStatus :: CityStatusName(s) != v.value) ==>
            r == Err(IllegalArgument("No enum constant " + CityStatusClass + "." + v.value)))
  {
    match StringAttribute(Some(item), StatusColumn)
    case None => Err(NullPointer(NullNameMessage))
    case Some(v) =>
      if v == "ACTIVE" then Ok(ACTIVE)
      else if v == "INACTIVE" then Ok(INACTIVE)
      else if v == "DISABLED" then Ok(DISABLED)
      else Err(IllegalArgument("No enum constant " + CityStatusClass + "." + v))
  }

  /** Every status reads back from its own name. */
  lemma StatusRoundTrip(item: Item, s: CityStatus)
    requires HasAttribute(item, StatusColumn, S(CityStatusName(s)))
    ensures GetStatus(item) == Ok(s)
  {
    assert StringAttribute(Some(item), StatusColumn) == Some(CityStatusName(s));
  }

  /** `toCity`: the four string columns (null when absent) and the status, which is the only
      part that can fail. */
  function ToCity(item: Item): (r: Result<City, Failure>)
    ensures r.Ok? <==> GetStatus(item).Ok?
    ensures r.Err? ==> r.error == GetStatus(item).error
    ensures r.Ok? ==>
      && r.value.id == StringAttribute(Some(item), IdColumn)
      && r.value.name == StringAttribute(Some(item), NameColumn)
      && r.value.country == StringAttribute(Some(item), CountryColumn)
      && r.value.timezone == StringAttribute(Some(item), TimezoneColumn)
      && r.value.status == GetStatus(item).value
  {
    var status :- GetStatus(item);
    Ok(City(StringAttribute(Some(item), IdColumn), StringAttribute(Some(item), NameColumn),
      StringAttribute(Some(item), CountryColumn), StringAttribute(Some(item), TimezoneColumn), status))
  }

  /** An item without a status column does not map: `valueOf(null)` throws. */
  lemma AbsentStatusFails(item: Item)
    requires StatusColumn !in item
    ensures ToCity(item) == Err(NullPointer(NullNameMessage))
  {
  }

  /** `toCityResponse`: the id, name and timezone of the city with the status code and the
      message passed through; country and status are not carried. */
  function ToCityResponse(city: City, httpStatus: int, errorMessage: Option<string>): (r: CityDataResponse)
    ensures r.cityId == city.id && r.name == city.name && r.timezone == city.timezone
    ensures r.httpStatus == Some(httpStatus) && r.errorMessage == errorMessage
  {
    CityDataResponse(city.id, city.name, city.timezone, Some(httpStatus), errorMessage)
  }

  /** Mapping an item and then the city echoes the item's id column in the response. */
  lemma ResponseEchoesId(item: Item, httpStatus: int)
    requires ToCity(item).Ok?
    ensures ToCityResponse(ToCity(item).value, httpStatus, None).cityId == StringAttribute(Some(item), IdColumn)
  {
  }
}
