/** Request records of the city-read function (functions/city-read-function): the routed
    `FunctionRequest` and the two `CityDataRequest` records, one in package `requests` and
    one in package `dto`, each with the constraints its components are annotated with. */
module ReadRequests {
  import opened Common
  import opened BeanValidation
  import ValidUuid

  const FunctionNameBlankMessage := "Function name must not be blank."
  const CityIdFormatMessage := "City ID must have a valid format."
  const CityIdBlankMessage := "City ID must not be blank."
  const CityIdEmptyMessage := "City ID must not be empty."

  /** `requests/FunctionRequest`: the function to route to and the city identifier. */
  datatype FunctionRequest = FunctionRequest(functionName: Option<string>, cityId: Option<string>)

  /** `requests/CityDataRequest`: the city identifier. */
  datatype CityDataRequest = CityDataRequest(cityId: Option<string>)

  /** `dto/CityDataRequest`: the city identifier, with an extra `@NotEmpty`. */
  datatype CityDataDto = CityDataDto(cityId: Option<string>)

  /** The city identifier's constraints shared by all three records. */
  function CityIdViolations(cityId: Option<string>): set<Violation> {
    ValidUuid.Violations("cityId", cityId, CityIdFormatMessage)
    + Check("cityId", NotBlank, CityIdBlankMessage, NotBlankHolds(cityId))
  }

  /** The violations Hibernate Validator reports for a `FunctionRequest`. */
  function FunctionRequestViolations(r: FunctionRequest): set<Violation> {
    Check("functionName", NotBlank, FunctionNameBlankMessage, NotBlankHolds(r.functionName))
    + CityIdViolations(r.cityId)
  }

  /** The violations reported for a `requests/CityDataRequest`. */
  function CityDataRequestViolations(r: CityDataRequest): set<Violation> {
    CityIdViolations(r.cityId)
  }

  /** The violations reported for a `dto/CityDataRequest`. */
  function CityDataDtoViolations(r: CityDataDto): set<Violation> {
    ValidUuid.Violations("cityId", r.cityId, CityIdFormatMessage)
    + Check("cityId", NotEmpty, CityIdEmptyMessage, NotEmptyHolds(r.cityId))
    + Check("cityId", NotBlank, CityIdBlankMessage, NotBlankHolds(r.cityId))
  }

  /** Each city-identifier violation appears exactly when its constraint fails; in particular a
      present identifier that does not match the pattern always carries the format violation. */
  lemma CityIdViolationsIff(cityId: Option<string>)
    ensures Violation("cityId", NotBlank, CityIdBlankMessage) in CityIdViolations(cityId)
      <==> !NotBlankHolds(cityId)
    ensures Violation("cityId", ValidUuid, CityIdFormatMessage) in CityIdViolations(cityId)
      <==> cityId.Some? && !ValidUuid.Matches(cityId.value)
    ensures CityIdViolations(cityId) == {} <==> cityId.Some? && ValidUuid.Matches(cityId.value)
  {
    if cityId.Some? && ValidUuid.Matches(cityId.value) {
      ValidUuid.MatchImpliesNotBlank(cityId.value);
    }
  }

  /** A `FunctionRequest` is valid exactly when the function name is not blank and the city
      identifier is a canonical lower-case UUID; each failing constraint shows up. */
  lemma FunctionRequestValidIff(r: FunctionRequest)
    ensures FunctionRequestViolations(r) == {} <==>
      NotBlankHolds(r.functionName) && r.cityId.Some? && ValidUuid.Matches(r.cityId.value)
    ensures Violation("functionName", NotBlank, FunctionNameBlankMessage) in FunctionRequestViolations(r)
      <==> !NotBlankHolds(r.functionName)
    ensures Violation("cityId", NotBlank, CityIdBlankMessage) in FunctionRequestViolations(r)
      <==> !NotBlankHolds(r.cityId)
    ensures Violation("cityId", ValidUuid, CityIdFormatMessage) in FunctionRequestViolations(r)
      <==> r.cityId.Some? && !ValidUuid.Matches(r.cityId.value)
  {
    CityIdViolationsIff(r.cityId);
  }

  /** An identifier made only of characters up to U+0020 (the empty string included) violates
      both the blank and the format constraint; a null one violates the blank constraint only,
      since a pattern accepts null. */
  lemma BlankCityIdViolations(cityId: Option<string>)
    ensures cityId.Some? && (forall i :: 0 <= i < |cityId.value| ==> cityId.value[i] <= ' ') ==>
      CityIdViolations(cityId) == {
        Violation("cityId", ValidUuid, CityIdFormatMessage),
        Violation("cityId", NotBlank, CityIdBlankMessage)}
    ensures cityId.None? ==> CityIdViolations(cityId) == {Violation("cityId", NotBlank, CityIdBlankMessage)}
  {
    NotBlankRejects(cityId);
    CityIdViolationsIff(cityId);
  }

  /** The `dto` record: a valid identifier gives no violation; an empty one violates all three
      constraints; a null one the two null-rejecting ones. */
  lemma CityDataDtoViolationsCases(r: CityDataDto)
    ensures CityDataDtoViolations(r) == {} <==> r.cityId.Some? && ValidUuid.Matches(r.cityId.value)
    ensures r.cityId == Some("") ==> CityDataDtoViolations(r) == {
      Violation("cityId", ValidUuid, CityIdFormatMessage),
      Violation("cityId", NotEmpty, CityIdEmptyMessage),
      Violation("cityId", NotBlank, CityIdBlankMessage)}
    ensures r.cityId.None? ==> CityDataDtoViolations(r) == {
      Violation("cityId", NotEmpty, CityIdEmptyMessage),
      Violation("cityId", NotBlank, CityIdBlankMessage)}
  {
    if r.cityId.Some? && ValidUuid.Matches(r.cityId.value) {
      ValidUuid.MatchImpliesNotBlank(r.cityId.value);
    }
    NotBlankImpliesNotEmpty(r.cityId);
    ValidUuid.FixtureIdentifiers();
    NotBlankRejects(r.cityId);
  }
}
