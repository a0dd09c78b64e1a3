/** Records of the city-read function (packages `entities` and `commons`) and the key
    prefixes of the single-table layout: a city item has pk = sk = "CITY#" + id, a sector item
    has pk = "CITY#" + id and sk beginning with "SECTOR#". */
module ReadEntities {
  import opened Common

  const CityPkPrefix := "CITY#"
  const SectorSkPrefix := "SECTOR#"

  /** `RecordStatus`, whose `getValue()` is its constant name. */
  datatype RecordStatus = ACTIVE | INACTIVE

  function RecordStatusValue(s: RecordStatus): string {
    match s
    case ACTIVE => "ACTIVE"
    case INACTIVE => "INACTIVE"
  }

  /** `Enum.valueOf(RecordStatus.class, text)`: an exact, case-sensitive match of a constant name. */
  function ParseRecordStatus(text: string): (r: Option<RecordStatus>)
    ensures r.Some? ==> RecordStatusValue(r.value) == text
    ensures r.None? ==> forall s: RecordStatus :: RecordStatusValue(s) != text
  {
    if text == "ACTIVE" then Some(ACTIVE)
    else if text == "INACTIVE" then Some(INACTIVE)
    else None
  }

  /** Parsing a status value gives the status back. */
  lemma ParseRecordStatusRoundTrip(s: RecordStatus)
    ensures ParseRecordStatus(RecordStatusValue(s)) == Some(s)
  {
  }

  /** A parsed `ZonedDateTime`; the model never inspects it. */
  datatype ZonedDateTime = ZonedDateTime(epochSecond: int, zoneId: string)

  /** `commons/CommonAttributes`. */
  datatype CommonAttributes = CommonAttributes(name: Option<string>, description: Option<string>, status: Option<RecordStatus>)

  /** `commons/EntityMetadata`. */
  datatype EntityMetadata = EntityMetadata(createdAt: ZonedDateTime, updatedAt: ZonedDateTime)

  /** `entities/CityEntity`. */
  datatype CityEntity = CityEntity(
    common: Option<CommonAttributes>,
    timezone: Option<string>,
    languageCode: Option<string>,
    countryCode: Option<string>,
    metadata: Option<EntityMetadata>)

  /** `entities/SectorEntity`. */
  datatype SectorEntity = SectorEntity(
    common: Option<CommonAttributes>,
    latitude: Option<string>,
    longitude: Option<string>,
    metadata: Option<EntityMetadata>)

  /** A `NullPointerException` from calling `status()` on a null `entityCommon()`; the
      JVM's text of the message is not modelled. */
  const NullCommonMessage := "entityCommon() is null"

  /** `entityCommon().status()` of a city, null when either is absent. */
  function CityStatusOf(e: CityEntity): Option<RecordStatus> {
    if e.common.Some? then e.common.value.status else None
  }

  function SectorStatusOf(e: SectorEntity): Option<RecordStatus> {
    if e.common.Some? then e.common.value.status else None
  }
}
