# city-sectors, modelled in Dafny

These Dafny modules model the request pipelines of the hiperium city-sectors functions.

**The serverless functions.** The functions read a city, or the sectors of a city, from a single DynamoDB table and answer with a status code. Each pipeline runs these stages in order:
- decode the request;
- validate the identifier with Bean Validation;
- look the item up by key;
- map its attributes;
- check its status;
- translate any error into a response.

The repository holds three snapshots of this pipeline, and each is modelled against its own code:
- the city-read function: routed requests, sector queries, `FunctionResponse`;
- the city-data function: point get, `CityDataResponse` builders;
- the read-city function: a snapshot of the city-data function.

**How Java behaviour is represented.**
- A Java `null` is `Option.None`.
- A thrown exception is the `Err` side of a `Result`. A reactive `Mono` chain is a `:-` chain, which stops at the first stage that fails.
- The DynamoDB client is a function from request to outcome. The outcome is an answer, a `DynamoDbException`, or an exception of another class. The repositories rewrap only a `DynamoDbException` and pass any other exception through unchanged.
- A table is a `seq` of attribute maps. A query filters it in order, and a point get takes the first item holding the key. These give concrete clients for the lemmas that reason against a table.
- Jackson decoding, ISO-8601 parsing, the MapStruct mappers that are not shown, and the services whose signatures differ from the callers' are function parameters.
- The Bean Validation engine computes the set of violations. "The first violation" is `iterator().next()` on a `Set`, so it is a fixed but unspecified choice among the violations (`SomeMessage`). Every contract about a validator states only that the message is that of some violation. This is why the validators and the pipelines that use them are `ghost`.
- The two `Builder` classes are Dafny classes with fields, `modifies` setters and a `Build` that changes nothing.

**Status codes.** The city-read handlers answer 406 for every client error (parsing, validation, not found, inactive) and 500 for a `CityException`. `ExceptionHandlerUtil` also answers 500, with a fixed message, for any other throwable. `GlobalExceptionHandler` has no handler for other throwables. The city-data function and the read-city function answer 400 for validation, 404 for not found, 406 for a disabled city and 500 otherwise.

**A whitespace identifier.** A whitespace id fails both `@NotBlank` and the UUID pattern; `@Pattern` accepts only null. So either message may be the one reported, and the model says exactly that.

**Modelling decisions.**
- Exceptions of the same simple name are taken to be the same kind. This is an assumption about the shared libraries, which are not part of this model. Java matches type patterns by class, and in the city-read function the thrown and the matched classes come from different packages:
  - `ValidationUtils` and `UnmarshallUtils` throw `ValidationException` and `CityException` of `hiperium.city.functions.common`;
  - `SectorService` raises that package's `InactiveCityException`;
  - `ExceptionHandlerUtil` matches jakarta's `ValidationException` and the `hiperium.cities.common` exception classes.
  Without a class hierarchy joining those packages, these failures would reach the 500 default.
- Two different notions of "blank" are modelled separately:
  - `@NotBlank`, as Hibernate Validator implements it, trims characters up to U+0020.
  - `String.isBlank` uses `Character.isWhitespace`.

  `Common.BlankNotionsDiffer` shows a string on which they disagree.

## Model

| member | source | states |
|---|---|---|
| Common.JavaText | functions/city-read-function/src/main/java/hiperium/city/read/function/repositories/CityRepository.java:56-58 | a string concatenated with `+` is itself, and "null" for null |
| Common.TrimEmptyIff | functions/city-read-function/src/main/java/hiperium/city/read/function/requests/FunctionRequest.java:13-14 | the trimmed string `@NotBlank` checks is empty iff every character is at most U+0020 |
| Common.BlankNotionsDiffer | functions/city-read-function/src/main/java/hiperium/city/read/function/utils/UnmarshallUtils.java:37 | "\0" trims to empty but is not `isBlank`; U+3000 is `isBlank` but survives a trim |
| Common.BlankNotionsAgreeOnAsciiSpace | functions/city-read-function/src/main/java/hiperium/city/read/function/utils/UnmarshallUtils.java:37 | on strings of spaces, tabs and line ends both notions agree |
| BeanValidation.Check | functions/city-read-function/src/main/java/hiperium/city/read/function/requests/FunctionRequest.java:12-19 | a constraint contributes no violation when it holds and exactly one, with its message, when it fails |
| BeanValidation.SomeMessage | functions/city-read-function/src/main/java/hiperium/city/read/function/utils/ValidationUtils.java:33-35 | `iterator().next().getMessage()`: none iff the set is empty, else the message of a member |
| BeanValidation.SingleViolationMessage | functions/city-read-function/src/main/java/hiperium/city/read/function/utils/ValidationUtils.java:35 | with one violation, the reported message is its message |
| BeanValidation.NotBlankRejects | functions/city-read-function/src/main/java/hiperium/city/read/function/requests/FunctionRequest.java:17 | `@NotBlank` refuses null, the empty string and strings of characters up to U+0020, and accepts the rest |
| BeanValidation.NotBlankImpliesNotEmpty | functions/city-read-function/src/main/java/hiperium/city/read/function/dto/CityDataRequest.java:12-13 | whatever passes `@NotBlank` passes `@NotEmpty` |
| ValidUuid.MatchesGroupsIff | functions/city-data-function/src/main/java/hiperium/city/data/function/annotations/ValidUUID.java:59 | the group matcher accepts exactly the strings whose hex groups have the given widths with '-' between them |
| ValidUuid.UuidLayout | functions/city-data-function/src/main/java/hiperium/city/data/function/annotations/ValidUUID.java:59 | the pattern spans 36 characters with hyphens at 8, 13, 18 and 23 |
| ValidUuid.MatchesIffCanonical | functions/city-data-function/src/main/java/hiperium/city/data/function/annotations/ValidUUID.java:59 | a string matches iff it has 36 characters, '-' at the four hyphen positions and `[0-9a-f]` everywhere else |
| ValidUuid.UpperCaseRejected | functions/city-data-function/src/main/java/hiperium/city/data/function/annotations/ValidUUID.java:59 | an upper-case hex digit anywhere makes the match fail |
| ValidUuid.VersionAndVariantUnchecked | functions/city-data-function/src/main/java/hiperium/city/data/function/annotations/ValidUUID.java:59 | any lower-case hex digit at the version (14) and variant (19) positions keeps a match |
| ValidUuid.MatchImpliesNotBlank | functions/city-data-function/src/main/java/hiperium/city/data/function/annotations/ValidUUID.java:59 | a matching string is neither blank nor empty |
| ValidUuid.Violations | functions/city-data-function/src/main/java/hiperium/city/data/function/annotations/ValidUUID.java:58-67 | the composed constraint reports at most one violation, none iff the value is null or matches, with the constraint's message |
| ValidUuid.CanonicalMatches | functions/city-data-function/src/main/java/hiperium/city/data/function/annotations/ValidUUID.java:59 | a 36-character string with hyphens at the four hyphen positions and lower-case hex elsewhere matches |
| ValidUuid.FixtureMatches | functions/city-data-function/src/test/java/hiperium/city/data/function/CityDataApplicationTest.java:28-30 | each of the three positive fixture identifiers matches |
| ValidUuid.FixtureIdentifiers | functions/city-data-function/src/test/java/hiperium/city/data/function/CityDataApplicationTest.java:28-30 | the three fixture ids match; the truncated id, an upper-case id, "" and "non-existing-id" do not |
| ReadRequests.CityIdViolationsIff | functions/city-read-function/src/main/java/hiperium/city/read/function/requests/CityDataRequest.java:10-14 | the blank violation appears iff the id is blank, the format violation iff a present id does not match, and none iff the id is a lower-case UUID |
| ReadRequests.FunctionRequestValidIff | functions/city-read-function/src/main/java/hiperium/city/read/function/requests/FunctionRequest.java:12-19 | a `FunctionRequest` is valid iff the function name is not blank and the id is a lower-case UUID; each failing constraint shows up with its message |
| ReadRequests.BlankCityIdViolations | functions/city-read-function/src/main/java/hiperium/city/read/function/requests/FunctionRequest.java:16-18 | a whitespace id violates both constraints; a null id only the blank one |
| ReadRequests.CityDataDtoViolationsCases | functions/city-read-function/src/main/java/hiperium/city/read/function/dto/CityDataRequest.java:11-14 | the `dto` record is valid iff its id is a lower-case UUID; "" violates all three constraints; null violates not-empty and not-blank |
| DataRequests.IdentifierViolationsCases | functions/city-data-function/src/main/java/hiperium/city/data/function/dto/CityDataRequest.java:9 | no violation iff a lower-case UUID; only "Invalid UUID" for a non-blank non-UUID; only "must not be blank" for null; both for whitespace |
| ReadValidation.ValidateRequest | functions/city-read-function/src/main/java/hiperium/city/read/function/utils/ValidationUtils.java:30-39 | no error iff no violation; otherwise one `ValidationException` with one violation's message and the caller's request id |
| ReadValidation.ValidateDto | functions/city-read-function/src/main/java/hiperium/city/read/function/validations/BeanValidations.java:28-38 | no error iff no violation; otherwise the message of one violation (also `FunctionUtils.validateRequest`) |
| ReadValidation.MalformedIdentifierMessage | functions/city-read-function/src/main/java/hiperium/city/read/function/requests/CityDataRequest.java:11 | a non-blank malformed id is reported as "City ID must have a valid format." |
| ReadValidation.NullIdentifierMessage | functions/city-read-function/src/main/java/hiperium/city/read/function/requests/CityDataRequest.java:12-13 | a null id is reported as "City ID must not be blank." |
| DataValidation.ValidateCityDataRequest | functions/city-data-function/src/main/java/hiperium/city/data/function/validations/BeanValidations.java:25-34 | no error iff no violation; otherwise the message of one violation |
| DataValidation.ValidateCityIdRequest | functions/city-data-function/src/main/java/hiperium/city/data/function/utils/BeanValidationUtils.java:29-39 | no error iff `CityIdRequest` has no violation; otherwise the message of one violation |
| DataValidation.ValidIdentifierPasses | functions/city-data-function/src/main/java/hiperium/city/data/function/dto/CityIdRequest.java:9 | a lower-case UUID passes both validators |
| DataValidation.ValidateFixtures | functions/city-data-function/src/test/java/hiperium/city/data/function/CityDataApplicationTest.java:83-117 | the enabled id passes; null gives "must not be blank"; " " is refused; the truncated id and "non-existing-id" give "Invalid UUID" |
| ReadErrors.HandleException | functions/city-read-function/src/main/java/hiperium/city/read/function/utils/ExceptionHandlerUtil.java:36-89 | never a body and never 2xx; 406 iff a client kind, 500 otherwise; the error's message, with a fixed one for unknown throwables |
| ReadErrors.HandleGlobally | functions/city-read-function/src/main/java/hiperium/city/read/function/handlers/GlobalExceptionHandler.java:16-70 | no handler iff the kind is none of the five; 406 for client kinds and 500 for `CityException`, with the message unchanged |
| ReadErrors.HandlersAgree | functions/city-read-function/src/main/java/hiperium/city/read/function/handlers/GlobalExceptionHandler.java:16-70 | on every kind the global handler covers it answers as `handleException` does |
| ReadUtils.DeserializeEvent | functions/city-read-function/src/main/java/hiperium/city/read/function/utils/UnmarshallUtils.java:35-46 | a null or blank body is a validation error with the request id; an undecodable body is a `CityException` with INTERNAL_002 quoting it; otherwise the decoded request |
| ReadUtils.BlankBodyNeverDecoded | functions/city-read-function/src/main/java/hiperium/city/read/function/utils/UnmarshallUtils.java:37-41 | the blank check comes before decoding: the decoder cannot change the result |
| ReadUtils.WhitespaceBodyIsMissing | functions/city-read-function/src/main/java/hiperium/city/read/function/utils/UnmarshallUtils.java:37 | a body of tab, space and newline counts as missing |
| ReadUtils.DeserializePayload | functions/city-read-function/src/main/java/hiperium/city/read/function/utils/FunctionUtils.java:39-47 | the decoded record iff decoding succeeds, else `ParsingException` "Couldn't deserialize request message." |
| ReadUtils.HandleRuntimeException | functions/city-read-function/src/main/java/hiperium/city/read/function/utils/FunctionUtils.java:73-78 | id, name and timezone null, error set to the generated error response |
| Dynamo.StringAttribute | functions/city-read-function/src/main/java/hiperium/city/read/function/mappers/FunctionMapper.java:69-75 | a string iff the item is present and holds the attribute with a string payload, and then that payload |
| Dynamo.Query | functions/city-read-function/src/main/java/hiperium/city/read/function/repositories/CityRepository.java:54-73 | the items returned are exactly the table's items matching key and filter |
| Dynamo.QueryConcat | functions/city-read-function/src/main/java/hiperium/city/read/function/repositories/CityRepository.java:85-112 | query order is table order: the query of a concatenation is the concatenation of the queries |
| Dynamo.NoMatchQueriesEmpty | functions/city-read-function/src/main/java/hiperium/city/read/function/repositories/CityRepository.java:54-73 | a table without a matching item answers an empty list, not an error |
| Dynamo.GetItem | functions/city-data-function/src/main/java/hiperium/city/data/function/repository/CitiesRepository.java:61 | a returned item is in the table and holds the key; nothing is returned iff no item holds it |
| ReadEntities.ParseRecordStatus | functions/city-read-function/src/main/java/hiperium/city/read/function/mappers/FunctionMapper.java:135 | `Enum.valueOf`: a status iff the text is exactly its name |
| ReadEntities.ParseRecordStatusRoundTrip | functions/city-read-function/src/main/java/hiperium/city/read/function/mappers/FunctionMapper.java:135 | parsing a status's value gives the status back |
| ReadMappers.GetEnumValue | functions/city-read-function/src/main/java/hiperium/city/read/function/mappers/FunctionMapper.java:131-136 | an absent status is null; an error iff a present value names no constant, with the `valueOf` message of the mapper's enum class |
| ReadMappers.GetDateTimeValue | functions/city-read-function/src/main/java/hiperium/city/read/function/mappers/FunctionMapper.java:148-157 | null or "" is a `CityException` naming the attribute (INTERNAL_002 for `FunctionMapper`); anything else goes to the parser with the city time zone |
| ReadMappers.MapCommonAttributes | functions/city-read-function/src/main/java/hiperium/city/read/function/mappers/FunctionMapper.java:87-96 | null for a null item; otherwise fails iff the status does; name, description and status read by their names |
| ReadMappers.MapMetadataAttributes | functions/city-read-function/src/main/java/hiperium/city/read/function/mappers/FunctionMapper.java:110-119 | null for a null item; otherwise both timestamps must parse, and a `createdAt` failure is the one reported |
| ReadMappers.MapCityDataResponse | functions/city-read-function/src/main/java/hiperium/city/read/function/mappers/FunctionMapper.java:39-44 | fails iff common part or metadata fails; otherwise both present and timezone, languageCode and countryCode read by name |
| ReadMappers.MapSectorsDataResponse | functions/city-read-function/src/main/java/hiperium/city/read/function/mappers/FunctionMapper.java:56-60 | fails iff common part or metadata fails; otherwise latitude and longitude read by name |
| ReadMappers.MapSectors | functions/city-read-function/src/main/java/hiperium/city/read/function/services/CityService.java:64-66 | all items map iff the list does; one sector per item in order; otherwise the first failing item's error |
| ReadMappers.ActiveItemMapsToActiveSector | functions/city-read-function/src/main/java/hiperium/city/read/function/mappers/CityMapper.java:126-129 | an item whose status is "ACTIVE" maps to an ACTIVE sector |
| ReadMappers.AbsentStatusIsNull | functions/city-read-function/src/main/java/hiperium/city/read/function/mappers/CityMapper.java:126-129 | a missing status maps to null, never to an error |
| ReadMappers.LowerCaseStatusRejected | functions/city-read-function/src/main/java/hiperium/city/read/function/mappers/CityMapper.java:128 | "active" is refused with the `valueOf` message |
| ReadMappers.BothTimestampsMissing | functions/city-read-function/src/main/java/hiperium/city/read/function/mappers/CityMapper.java:110-113 | with both timestamps missing the error names `createdAt` |
| ReadMappers.BlankTimestampReachesParser | functions/city-read-function/src/main/java/hiperium/city/read/function/mappers/FunctionMapper.java:152-156 | a blank timestamp is handed to the parser with the provider's zone |
| CityRepository.FindByCityId | functions/city-read-function/src/main/java/hiperium/city/read/function/repositories/CityRepository.java:54-73 | the client's items iff it answers the pk = sk = "CITY#"+id query; a `DynamoDbException` becomes a `CityException` naming the id, and any other client exception passes through unchanged |
| CityRepository.FindSectorsByCityAndStatus | functions/city-read-function/src/main/java/hiperium/city/read/function/repositories/CityRepository.java:85-112 | the items of the "SECTOR#"-prefix query with the status filter; a `DynamoDbException` becomes a `CityException` naming the id, and other exceptions pass through |
| CityRepository.CityQueryAgainstTable | functions/city-read-function/src/test/java/hiperium/city/read/function/repositories/CityRepositoryTest.java:98-109 | against a table, exactly the city items of that id are returned, and an unknown id gives an empty list |
| CityRepository.SingleCityItem | functions/city-read-function/src/test/java/hiperium/city/read/function/repositories/CityRepositoryTest.java:47-60 | one city item among other keys gives exactly that item |
| CityRepository.SectorsQueryAgainstTable | functions/city-read-function/src/main/java/hiperium/city/read/function/repositories/CityRepository.java:85-112 | against a table, exactly that city's sector items with the status are returned, in table order |
| SectorRepository.FindSectorsByCityAndStatus | functions/city-read-function/src/main/java/hiperium/city/read/function/repositories/SectorRepository.java:50-81 | the prefix query's items; a `DynamoDbException` becomes a `CityException` with INTERNAL_001 and the request id, and other exceptions pass through |
| SectorRepository.ActiveSectorsAgainstTable | functions/city-read-function/src/main/java/hiperium/city/read/function/repositories/SectorRepository.java:50-81 | against a table, the ACTIVE sector items of the city, in order |
| CityService.RetrieveCityData | functions/city-read-function/src/main/java/hiperium/city/read/function/services/CityService.java:73-79 | not-found naming the id iff there are no items, else the first item |
| CityService.ValidateCityStatus | functions/city-read-function/src/main/java/hiperium/city/read/function/services/CityService.java:81-87 | refused iff INACTIVE ("The city record is inactive."); ACTIVE and null pass; a null common part throws |
| CityService.FindActiveCityById | functions/city-read-function/src/main/java/hiperium/city/read/function/services/CityService.java:43-49 | stage errors in order; a first item that maps is returned iff its common part is present and its status is not INACTIVE, INACTIVE giving "The city record is inactive."; a returned city is always that mapping |
| CityService.FindActiveSectorsByCityId | functions/city-read-function/src/main/java/hiperium/city/read/function/services/CityService.java:59-71 | sectors only for an ACTIVE city, mapped in order; any other status is "Cannot perform operations on an Inactive city." |
| CityService.SectorQueryOnlyForActiveCity | functions/city-read-function/src/main/java/hiperium/city/read/function/services/CityService.java:62-69 | for a city that is not ACTIVE the sector query's answer cannot change the result |
| CityService.NullStatusCity | functions/city-read-function/src/main/java/hiperium/city/read/function/services/CityService.java:82-86 | a city item without status passes the city check but is refused sectors |
| CityService.ActiveSectorsOnly | functions/city-read-function/src/test/java/hiperium/city/read/function/services/CityServiceTest.java:75-85 | against a table, one sector per ACTIVE sector item, all ACTIVE |
| SectorService.FindActiveSectorsByCityId | functions/city-read-function/src/main/java/hiperium/city/read/function/services/SectorService.java:44-63 | lookup errors pass unchanged; ACTIVE sectors queried with the request's id and request id and mapped in order; otherwise an inactive error naming the id with the request id |
| SectorService.SectorQueryOnlyForActiveCity | functions/city-read-function/src/main/java/hiperium/city/read/function/services/SectorService.java:47-60 | for a city that is not ACTIVE the sector client cannot change the result |
| SectorService.ActiveSectorsOnly | functions/city-read-function/src/test/java/hiperium/city/read/function/services/SectorServiceTest.java:41-57 | against a table, one sector per ACTIVE item, all ACTIVE |
| CitiesService.FindById | functions/city-read-function/src/main/java/hiperium/city/read/function/services/CitiesService.java:43-53 | a null completion is empty, since `fromCompletionStage` completes empty and `handle` never runs; an empty item is "No city found with the provided ID."; any other item is emitted as the mapper's city, or the mapper's error; a lookup failure passes through |
| CitiesService.NotFoundOnlyForEmptyItem | functions/city-read-function/src/main/java/hiperium/city/read/function/services/CitiesService.java:44-49 | for a mapper that never raises not-found, not-found comes only from an empty item or from the lookup itself: the null check in `handle` never fires |
| CitiesService.MapperUnusedWhenNotFound | functions/city-read-function/src/main/java/hiperium/city/read/function/services/CitiesService.java:46-51 | when nothing is found the mapper cannot change the result |
| ReadFunctions.Apply | functions/city-read-function/src/main/java/hiperium/city/read/function/functions/FindCityFunction.java:35-49 | decoding errors escape; validation errors and lookup errors go through `handleException`; a lookup value is wrapped by `success` |
| ReadFunctions.FindCity | functions/city-read-function/src/main/java/hiperium/city/read/function/functions/FindCityFunction.java:35-49 | escapes iff decoding fails; a body only for a valid request, and it is the looked-up city |
| ReadFunctions.FindSectors | functions/city-read-function/src/main/java/hiperium/city/read/function/functions/FindSectorsFunction.java:35-49 | escapes iff decoding fails; a body only for a valid request, and it is the looked-up sector list |
| ReadFunctions.SuccessIff | functions/city-read-function/src/test/java/hiperium/city/read/function/functions/FindCityFunctionTest.java:71-76 | a response is 2xx iff the request had no violation and the lookup answered, and is then 200 with the value |
| ReadFunctions.InvalidRequestNeverLooksUp | functions/city-read-function/src/main/java/hiperium/city/read/function/functions/FindSectorsFunction.java:39-46 | a request with violations gets a response the lookup cannot change |
| ReadFunctions.InvalidIdentifierRefused | functions/city-read-function/src/test/java/hiperium/city/read/function/functions/FindCityFunctionTest.java:79-107 | an id that is not a lower-case UUID is answered with 406 |
| ReadFunctions.NotFoundRefused | functions/city-read-function/src/test/java/hiperium/city/read/function/functions/FindCityFunctionTest.java:79-107 | a city not found is answered with 406 and the service's message |
| ReadFunctions.MissingBodyEscapes | functions/city-read-function/src/main/java/hiperium/city/read/function/functions/FindCityFunction.java:38 | a missing body throws out of `apply` instead of becoming a response |
| DataMapper.GetStatus | functions/city-data-function/src/main/java/hiperium/city/data/function/mappers/CityMapper.java:66-68 | a missing status is the `valueOf(null)` error, an unknown one the "No enum constant" error, and a status comes only from its exact name |
| DataMapper.StatusRoundTrip | functions/city-data-function/src/main/java/hiperium/city/data/function/mappers/CityMapper.java:66-68 | every status reads back from its own name |
| DataMapper.ToCity | functions/city-data-function/src/main/java/hiperium/city/data/function/mappers/CityMapper.java:28-33 | fails iff the status does; id, name, country and timezone read from their columns |
| DataMapper.AbsentStatusFails | functions/city-data-function/src/main/java/hiperium/city/data/function/mappers/CityMapper.java:66-68 | an item without status does not map |
| DataMapper.ToCityResponse | functions/city-data-function/src/main/java/hiperium/city/data/function/mappers/CityMapper.java:43-44 | `cityId` from `city.id`, name and timezone copied, status code and message passed through |
| DataMapper.ResponseEchoesId | functions/city-data-function/src/test/java/hiperium/city/data/function/CityDataApplicationTest.java:51 | the response echoes the item's id column |
| DataRepository.CityKey | functions/city-data-function/src/main/java/hiperium/city/data/function/repository/CitiesRepository.java:52-53 | the key has exactly one entry, id with the request's id |
| DataRepository.FindCityById | functions/city-data-function/src/main/java/hiperium/city/data/function/repository/CitiesRepository.java:49-71 | a `DynamoDbException` is a `RuntimeException` "Error finding city with ID: ", another client exception passes unchanged; a null or empty item is not-found naming the id; otherwise `toCity` (its errors pass through) |
| DataRepository.FindAgainstTable | functions/city-data-function/src/main/java/hiperium/city/data/function/repository/CitiesRepository.java:61-65 | against a table: not found iff no item has the id, else the mapping of the first item with it |
| DataFunction.ValidateCityStatus | functions/city-data-function/src/main/java/hiperium/city/data/function/functions/CityDataFunction.java:67-72 | refused iff DISABLED, with "City is disabled: " and the id |
| DataFunction.Pipeline | functions/city-data-function/src/main/java/hiperium/city/data/function/functions/CityDataFunction.java:59-64 | validate, find, status check, map with 200 and no message, stopping at the first failure |
| DataFunction.StatusCodeOf | functions/city-data-function/src/main/java/hiperium/city/data/function/functions/CityDataFunction.java:80-94 | 400 iff validation, 404 iff not found, 406 iff disabled, 500 for the rest (a plain `CityException` included), never 200 |
| DataFunction.CreateDeviceUpdateResponse | functions/city-data-function/src/main/java/hiperium/city/data/function/functions/CityDataFunction.java:80-94 | the kind's status and the throwable's message, with null data fields |
| DataFunction.Apply | functions/city-data-function/src/main/java/hiperium/city/data/function/functions/CityDataFunction.java:48-65 | 400 "Invalid request payload" when decoding fails; otherwise the pipeline's response or its error response |
| DataFunction.SuccessIff | functions/city-data-function/src/main/java/hiperium/city/data/function/functions/CityDataFunction.java:59-64 | 200 iff decoded, valid, found and not DISABLED, echoing the city with no message; otherwise a null id and a message |
| DataFunction.NoLookupBeforeValidation | functions/city-data-function/src/main/java/hiperium/city/data/function/functions/CityDataFunction.java:50-63 | an undecodable or invalid request gets a response the table cannot change |
| DataFunction.FixtureLookups | functions/city-data-function/src/test/java/hiperium/city/data/function/CityDataApplicationTest.java:28-30 | the point gets of the fixture ids find the enabled and disabled items and nothing for the non-existing id |
| DataFunction.EnabledCityFound | functions/city-data-function/src/main/java/hiperium/city/data/function/repository/CitiesRepository.java:61-65 | the enabled fixture id is found and maps to Quito with status ACTIVE |
| DataFunction.DisabledCityFound | functions/city-data-function/src/main/java/hiperium/city/data/function/repository/CitiesRepository.java:61-65 | the disabled fixture id is found and maps to Guayaquil with status DISABLED |
| DataFunction.PassedStages | functions/city-data-function/src/main/java/hiperium/city/data/function/functions/CityDataFunction.java:62-63 | a valid, found city gives 200 unless DISABLED, which gives 406 |
| DataFunction.EnabledCityScenario | functions/city-data-function/src/test/java/hiperium/city/data/function/CityDataApplicationTest.java:43-53 | the enabled city answers 200 with its id |
| DataFunction.NonExistingCityScenario | functions/city-data-function/src/test/java/hiperium/city/data/function/CityDataApplicationTest.java:55-66 | the unknown id answers 404 |
| DataFunction.DisabledCityScenario | functions/city-data-function/src/test/java/hiperium/city/data/function/CityDataApplicationTest.java:68-79 | the disabled city answers 406 |
| DataFunction.InvalidIdentifierScenarios | functions/city-data-function/src/test/java/hiperium/city/data/function/CityDataApplicationTest.java:81-118 | null and " " answer 400; the truncated id answers 400 with "Invalid UUID" |
| DataResponses.CityDataResponseBuilder.constructor | functions/city-data-function/src/main/java/hiperium/city/data/function/dto/CityDataResponse.java:18-22 | a new builder has every field null |
| DataResponses.CityDataResponseBuilder.CityId | functions/city-data-function/src/main/java/hiperium/city/data/function/dto/CityDataResponse.java:30-33 | sets `cityId` only and returns the same builder |
| DataResponses.CityDataResponseBuilder.Name | functions/city-data-function/src/main/java/hiperium/city/data/function/dto/CityDataResponse.java:41-44 | sets `name` only and returns the same builder |
| DataResponses.CityDataResponseBuilder.Timezone | functions/city-data-function/src/main/java/hiperium/city/data/function/dto/CityDataResponse.java:52-55 | sets `timezone` only and returns the same builder |
| DataResponses.CityDataResponseBuilder.HttpStatus | functions/city-data-function/src/main/java/hiperium/city/data/function/dto/CityDataResponse.java:63-66 | sets `httpStatus` only and returns the same builder |
| DataResponses.CityDataResponseBuilder.ErrorMessage | functions/city-data-function/src/main/java/hiperium/city/data/function/dto/CityDataResponse.java:74-77 | sets `errorMessage` only and returns the same builder |
| DataResponses.CityDataResponseBuilder.Build | functions/city-data-function/src/main/java/hiperium/city/data/function/dto/CityDataResponse.java:84-86 | the record of the builder's fields, the abstraction the setters are stated in; the builder is not modified |
| DataResponses.CityResponseBuilder.constructor | functions/city-data-function/src/main/java/hiperium/city/data/function/dto/CityResponse.java:15-19 | a new builder has every field null |
| DataResponses.CityResponseBuilder.Id | functions/city-data-function/src/main/java/hiperium/city/data/function/dto/CityResponse.java:21-24 | sets `id` only and returns the same builder |
| DataResponses.CityResponseBuilder.Name | functions/city-data-function/src/main/java/hiperium/city/data/function/dto/CityResponse.java:26-29 | sets `name` only and returns the same builder |
| DataResponses.CityResponseBuilder.Timezone | functions/city-data-function/src/main/java/hiperium/city/data/function/dto/CityResponse.java:31-34 | sets `timezone` only and returns the same builder |
| DataResponses.CityResponseBuilder.HttpStatus | functions/city-data-function/src/main/java/hiperium/city/data/function/dto/CityResponse.java:36-39 | sets `httpStatus` only and returns the same builder |
| DataResponses.CityResponseBuilder.ErrorMessage | functions/city-data-function/src/main/java/hiperium/city/data/function/dto/CityResponse.java:41-44 | sets `errorMessage` only and returns the same builder |
| DataResponses.CityResponseBuilder.Build | functions/city-data-function/src/main/java/hiperium/city/data/function/dto/CityResponse.java:46-48 | the record of the builder's fields; the builder is not modified |
| DataResponses.BuildErrorResponse | functions/city-data-function/src/main/java/hiperium/city/data/function/functions/CityDataFunction.java:54-57 | a builder given only status and message builds a record with null data fields |
| DataResponses.RebuildAfterOverwrite | functions/city-data-function/src/main/java/hiperium/city/data/function/dto/CityDataResponse.java:30-33 | a second setter call overwrites the first, unset fields stay null, and two builds are equal |
| DataResponses.BuildCityResponse | functions/city-data-function/src/main/java/hiperium/city/data/function/dto/CityResponse.java:21-48 | setting all five fields builds exactly the record of those values |
| ReadCitySnapshot.FindById | functions/read-city-function/src/main/java/hiperium/city/read/function/repository/CitiesRepository.java:49-71 | a `DynamoDbException` is a `RuntimeException` "Error finding City with ID: ", another client exception passes unchanged; a null or empty item is not-found naming the id; otherwise `mapToCity` of the item |
| ReadCitySnapshot.RepositoriesAgree | functions/read-city-function/src/main/java/hiperium/city/read/function/repository/CitiesRepository.java:62-68 | it agrees with the city-data repository on not-found and on uncaught client exceptions, and their `DynamoDbException` messages differ |
| ReadCitySnapshot.ValidateCityStatus | functions/read-city-function/src/main/java/hiperium/city/read/function/functions/CityDataFunction.java:67-72 | refused iff DISABLED, with "City is disabled: " and the id |
| ReadCitySnapshot.Pipeline | functions/read-city-function/src/main/java/hiperium/city/read/function/functions/CityDataFunction.java:59-64 | validate, `findById`, status check, `mapToCityResponse(city, 200, null)`, stopping at the first failure |
| ReadCitySnapshot.Apply | functions/read-city-function/src/main/java/hiperium/city/read/function/functions/CityDataFunction.java:48-94 | 400 "Invalid request payload" when decoding fails; otherwise the pipeline's response or the 400/404/406/500 error response |
| ReadCitySnapshot.SuccessIff | functions/read-city-function/src/main/java/hiperium/city/read/function/functions/CityDataFunction.java:59-64 | with a response mapper that keeps the given status, 200 iff decoded, valid, found and not DISABLED, and then the mapper's response for that city; otherwise a null id and a message |
| ReadCitySnapshot.NoLookupBeforeValidation | functions/read-city-function/src/main/java/hiperium/city/read/function/functions/CityDataFunction.java:50-63 | an undecodable or invalid request gets a response neither the table nor the mappers can change |
| ReadCitySnapshot.InvalidIdentifierRefused | functions/read-city-function/src/main/java/hiperium/city/read/function/functions/CityDataFunction.java:59-64 | an id that is not a lower-case UUID gets 400 with a null id and a message |

## Left out

- Jackson decoding, ISO-8601 and time-zone parsing, and `Enum.valueOf` text beyond its message are foreign calls. Decoding and parsing are function parameters, so the model does not say which bodies decode.
- Which violation Hibernate Validator reports first is an engine detail. The model leaves it unspecified, and the validators and the pipelines using them are ghost functions for that reason.
- Reactor scheduling, `CompletableFuture` and logging are not modelled. The chains are sequential `Result` chains.
- DynamoDB consistency, pagination, throttling and the `#status` name placeholder are not modelled. The filter is written with the attribute name it stands for.
- Framework wiring is not modelled: configuration classes, routing, the application classes, and the `ReadFunction` stub, whose `apply` returns null.
- The asynchronous `repository/CitiesRepository` of the city-read function is not modelled. `CitiesService.FindById` starts from the completion it yields.
- The pipeline that takes a `CityIdRequest` is not part of this model. Its test expects 404 for "non-existing-id", which `DataValidation.ValidateFixtures` shows the `CityIdRequest` validator refuses. So that pipeline cannot validate before its lookup.
- The sector fixture data behind "7 sectors" is not part of this model. `CityService.ActiveSectorsOnly` states the count for any table: one sector per ACTIVE sector item.
- `ReadFunctions.FindCity`, `ReadFunctions.FindSectors`: the services these functions call take the request and the request id. No modelled service has that signature, so the lookup is a parameter and is not tied to `CityService` or `SectorService`.
- `ReadCitySnapshot.Pipeline`: this snapshot calls `BeanValidations::validateBean`, while the shown class of that package declares `validateRequest`. The model uses the shown check of the `dto` record.
- `ReadCitySnapshot.Pipeline`: this snapshot's `CityStatus`, response record and mapper are not part of this model. The statuses and the response are the city-data function's, and the mapper is taken to return a city with a non-null status.
- `ReadErrors.HandleException`: the shared library's `ErrorResponse`, `FunctionResponse` and `ErrorCode` are not part of this model. Responses are a status, an optional body and an optional message.
- `ReadUtils.HandleRuntimeException`: `ExceptionHandlerUtil.generateErrorResponse` of the shared library is not part of this model and is a parameter.
- `ReadFunctions.InvalidIdentifierRefused`, `SectorService.FindActiveSectorsByCityId`: their 406 outcomes, and the `Validation`, `City` and `InactiveCity` kinds given to the failures of `ReadValidation.ValidateRequest`, `ReadUtils.DeserializeEvent`, `SectorRepository.FindSectorsByCityAndStatus` and `ReadMappers.GetDateTimeValue`, rest on taking exceptions of the same simple name to be the same kind. The classes these throw, of `hiperium.city.functions.common`, are not the classes `ExceptionHandlerUtil` matches, and no class hierarchy joining them is part of this model.
- `ReadRequests.CityIdViolationsIff`, `ReadRequests.FunctionRequestValidIff`, `ReadRequests.CityDataDtoViolationsCases`, `DataRequests.IdentifierViolationsCases`: the `@ValidUUID` these records use is imported from shared libraries that are not part of this model:
  - `hiperium.cities.common` for `FunctionRequest`;
  - `hiperium.city.functions.common` for the read `requests/CityDataRequest`;
  - `hiperium.cities.commons` for the read `dto/CityDataRequest` and the data `dto/CityDataRequest`.

  The model gives each of them the pattern, the single-violation reporting and the null acceptance of the one shown annotation, which only `CityIdRequest` imports.
- `DataFunction.Apply`, `ReadCitySnapshot.Apply`: a payload of JSON `null` decodes to a null request, and `Mono.just(null)` then throws out of `apply`. The decoder here yields a request or nothing, so this escape is not modelled.
- `ReadUtils.DeserializeEvent`: an event without a request context throws a `NullPointerException` wherever its request id is read, in the blank-body branch and in the functions' later stages. The event here always carries a request id, so this failure is not modelled.
- `CityService.ValidateCityStatus`, `SectorService.FindActiveSectorsByCityId`: the text of the JVM's `NullPointerException` message for a null common part is not modelled.
