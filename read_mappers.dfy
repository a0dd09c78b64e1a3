/** The two MapStruct mappers of the city-read function, `mappers/FunctionMapper` and
    `mappers/CityMapper`. They read the same attributes by the same fixed names; they differ
    in the `RecordStatus` class they parse into and in how a timestamp is parsed: with the
    configured city time zone and error code INTERNAL_002, or with neither. */
module ReadMappers {
  import opened Common
  import opened Dynamo
  import opened ReadEntities
  import opened ReadErrors

  /** ISO-8601 parsing into a zone (`DateTimeUtil.getZonedDateTimeUsingISO8601(text, zone)`). */
  type ZonedParser = (string, string) -> Result<ZonedDateTime, ReadError>

  /** ISO-8601 parsing without a zone (`DateTimeUtils.getZonedDateTimeUsingISO8601(text)`). */
  type Parser = string -> Result<ZonedDateTime, ReadError>

  /** One of the two mapper implementations with the collaborators it is given. */
  datatype Mapper =
    | FunctionMapper(cityTimeZone: string, parseInZone: ZonedParser)
    | CityMapper(parse: Parser)

  /** Canonical name of the `RecordStatus` enum each mapper's source file imports. */
  function RecordStatusClass(m: Mapper): string {
    if m.FunctionMapper? then "hiperium.city.functions.common.enums.RecordStatus"
    else "hiperium.cities.common.enums.RecordStatus"
  }

  /** Message of the `IllegalArgumentException` that `Enum.valueOf` throws for an unknown name. */
  function NoEnumConstant(className: string, name: string): string {
    "No enum constant " + className + "." + name
  }

  const DateTimeMissingMessage := "Date time value cannot be null or empty in attribute: "

  /** `getEnumValue(item, name, RecordStatus.class)`: an absent value is null, a present one
      must be exactly a constant name. */
  function GetEnumValue(m: Mapper, item: Option<Item>, name: string): (r: Result<Option<RecordStatus>, ReadError>)
    ensures StringAttribute(item, name).None? ==> r == Ok(None)
    ensures r.Ok? && r.value.Some? ==> StringAttribute(item, name) == Some(RecordStatusValue(r.value.value))
    ensures r.Err? <==> StringAttribute(item, name).Some? && forall s: RecordStatus :: RecordStatusValue(s) != StringAttribute(item, name).value
    ensures r.Err? ==> r.error == Other(NoEnumConstant(RecordStatusClass(m), StringAttribute(item, name).value))
  {
    match StringAttribute(item, name)
    case None => Ok(None)
    case Some(v) =>
      match ParseRecordStatus(v)
      case Some(s) => Ok(Some(s))
      case None => Err(Other(NoEnumConstant(RecordStatusClass(m), v)))
  }

  /** `getDateTimeValue`: a null or empty value is a `CityException` naming the attribute;
      anything else, whitespace included, is handed to the parser. */
  function GetDateTimeValue(m: Mapper, item: Option<Item>, name: string): (r: Result<ZonedDateTime, ReadError>)
    ensures var v := StringAttribute(item, name);
      (v.None? || v.value == "") ==>
        r == Err(City(DateTimeMissingMessage + name, if m.FunctionMapper? then Some(INTERNAL_002) else None, None))
    ensures var v := StringAttribute(item, name);
      v.Some? && v.value != "" ==>
        r == (if m.FunctionMapper? then m.parseInZone(v.value, m.cityTimeZone) else m.parse(v.value))
  {
    var v := StringAttribute(item, name);
    if v.None? || v.value == "" then
      Err(City(DateTimeMissingMessage + name, if m.FunctionMapper? then Some(INTERNAL_002) else None, None))
    else if m.FunctionMapper? then m.parseInZone(v.value, m.cityTimeZone)
    else m.parse(v.value)
  }

  /** `mapCommonAttributes`: null for a null item, else name, description and status. */
  function MapCommonAttributes(m: Mapper, item: Option<Item>): (r: Result<Option<CommonAttributes>, ReadError>)
    ensures item.None? ==> r == Ok(None)
    ensures item.Some? ==> (r.Ok? <==> GetEnumValue(m, item, "status").Ok?)
    ensures r.Ok? && item.Some? ==> r.value == Some(CommonAttributes(
      StringAttribute(item, "name"), StringAttribute(item, "description"), GetEnumValue(m, item, "status").value))
  {
    if item.None? then Ok(None)
    else
      var status :- GetEnumValue(m, item, "status");
      Ok(Some(CommonAttributes(StringAttribute(item, "name"), StringAttribute(item, "description"), status)))
  }

  /** `mapMetadataAttributes`: null for a null item, else `createdAt` then `updatedAt`; the
      first failing timestamp is the error. */
  function MapMetadataAttributes(m: Mapper, item: Option<Item>): (r: Result<Option<EntityMetadata>, ReadError>)
    ensures item.None? ==> r == Ok(None)
    ensures item.Some? ==> (r.Ok? <==> GetDateTimeValue(m, item, "createdAt").Ok? && GetDateTimeValue(m, item, "updatedAt").Ok?)
    ensures item.Some? && GetDateTimeValue(m, item, "createdAt").Err? ==>
      r == Err(GetDateTimeValue(m, item, "createdAt").error)
    ensures r.Ok? && item.Some? ==> r.value == Some(EntityMetadata(
      GetDateTimeValue(m, item, "createdAt").value, GetDateTimeValue(m, item, "updatedAt").value))
  {
    if item.None? then Ok(None)
    else
      var createdAt :- GetDateTimeValue(m, item, "createdAt");
      var updatedAt :- GetDateTimeValue(m, item, "updatedAt");
      Ok(Some(EntityMetadata(createdAt, updatedAt)))
  }

  /** `mapCityDataResponse`: the common part, the three string fields read from
      "timezone", "languageCode" and "countryCode", and the metadata part, in that order. */
  function MapCityDataResponse(m: Mapper, item: Item): (r: Result<CityEntity, ReadError>)
    ensures r.Ok? <==> MapCommonAttributes(m, Some(item)).Ok? && MapMetadataAttributes(m, Some(item)).Ok?
    ensures r.Ok? ==> r.value.common.Some? && r.value.metadata.Some?
    ensures r.Ok? ==> r.value.common == MapCommonAttributes(m, Some(item)).value
    ensures r.Ok? ==>
      r.value.timezone == StringAttribute(Some(item), "timezone")
      && r.value.languageCode == StringAttribute(Some(item), "languageCode")
      && r.value.countryCode == StringAttribute(Some(item), "countryCode")
  {
    var common :- MapCommonAttributes(m, Some(item));
    var metadata :- MapMetadataAttributes(m, Some(item));
    Ok(CityEntity(common, StringAttribute(Some(item), "timezone"), StringAttribute(Some(item), "languageCode"),
      StringAttribute(Some(item), "countryCode"), metadata))
  }

  /** `mapSectorsDataResponse`: the common part, "latitude", "longitude" and the metadata part. */
  function MapSectorsDataResponse(m: Mapper, item: Item): (r: Result<SectorEntity, ReadError>)
    ensures r.Ok? <==> MapCommonAttributes(m, Some(item)).Ok? && MapMetadataAttributes(m, Some(item)).Ok?
    ensures r.Ok? ==> r.value.common.Some? && r.value.metadata.Some?
    ensures r.Ok? ==> r.value.common == MapCommonAttributes(m, Some(item)).value
    ensures r.Ok? ==>
      r.value.latitude == StringAttribute(Some(item), "latitude")
      && r.value.longitude == StringAttribute(Some(item), "longitude")
  {
    var common :- MapCommonAttributes(m, Some(item));
    var metadata :- MapMetadataAttributes(m, Some(item));
    Ok(SectorEntity(common, StringAttribute(Some(item), "latitude"), StringAttribute(Some(item), "longitude"), metadata))
  }

  /** The stream `map(mapSectorsDataResponse)` over a query's items: one entity per item, in
      item order, or the error of the first item that fails to map. */
  function MapSectors(m: Mapper, items: seq<Item>): (r: Result<seq<SectorEntity>, ReadError>)
    ensures r.Ok? <==> forall i :: 0 <= i < |items| ==> MapSectorsDataResponse(m, items[i]).Ok?
    ensures r.Ok? ==> |r.value| == |items|
    ensures r.Ok? ==> forall i :: 0 <= i < |items| ==> MapSectorsDataResponse(m, items[i]) == Ok(r.value[i])
    ensures r.Err? ==> exists i :: (0 <= i < |items| && MapSectorsDataResponse(m, items[i]) == Err(r.error)
      && forall j :: 0 <= j < i ==> MapSectorsDataResponse(m, items[j]).Ok?)
    decreases |items|
  {
    if |items| == 0 then Ok([])
    else
      var first :- MapSectorsDataResponse(m, items[0]);
      var rest :- MapSectors(m, items[1..]);
      Ok([first] + rest)
  }

  /** A sector item whose status attribute is "ACTIVE" maps to an ACTIVE sector. */
  lemma ActiveItemMapsToActiveSector(m: Mapper, item: Item)
    requires HasAttribute(item, "status", S(RecordStatusValue(ACTIVE)))
    requires MapSectorsDataResponse(m, item).Ok?
    ensures SectorStatusOf(MapSectorsDataResponse(m, item).value) == Some(ACTIVE)
  {
    assert StringAttribute(Some(item), "status") == Some("ACTIVE");
  }

  /** An item without a status attribute maps to a null status, never to an error. */
  lemma AbsentStatusIsNull(m: Mapper, item: Item)
    requires "status" !in item
    ensures MapCommonAttributes(m, Some(item)).Ok?
    ensures MapCommonAttributes(m, Some(item)).value.value.status.None?
  {
  }

  /** A status that differs from every constant name only by case is rejected. */
  lemma LowerCaseStatusRejected(m: Mapper, item: Item)
    requires HasAttribute(item, "status", S("active"))
    ensures MapCommonAttributes(m, Some(item)) == Err(Other(NoEnumConstant(RecordStatusClass(m), "active")))
  {
    assert StringAttribute(Some(item), "status") == Some("active");
  }

  /** When both timestamps are missing the error names `createdAt`. */
  lemma BothTimestampsMissing(m: Mapper, item: Item)
    requires "createdAt" !in item && "updatedAt" !in item
    ensures MapMetadataAttributes(m, Some(item)).Err?
    ensures MapMetadataAttributes(m, Some(item)).error.message == DateTimeMissingMessage + "createdAt"
  {
  }

  /** Only emptiness is checked: a blank timestamp reaches the parser with the city time zone. */
  lemma BlankTimestampReachesParser(zone: string, parse: ZonedParser, item: Item)
    requires HasAttribute(item, "createdAt", S(" "))
    ensures GetDateTimeValue(FunctionMapper(zone, parse), Some(item), "createdAt") == parse(" ", zone)
  {
    assert StringAttribute(Some(item), "createdAt") == Some(" ");
  }
}
