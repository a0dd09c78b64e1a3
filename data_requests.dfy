/** Request records of the city-data function (functions/city-data-function, package `dto`):
    `CityDataRequest` and `CityIdRequest`, both a single identifier annotated `@NotBlank`
    and `@ValidUUID` with default messages. */
module DataRequests {
  import opened Common
  import opened BeanValidation
  import ValidUuid

  /** `dto/CityDataRequest`. */
  datatype CityDataRequest = CityDataRequest(cityId: Option<string>)

  /** `dto/CityIdRequest`. */
  datatype CityIdRequest = CityIdRequest(id: Option<string>)

  /** Default-message constraints on one identifier component. */
  function IdentifierViolations(property: string, value: Option<string>): set<Violation> {
    Check(property, NotBlank, NotBlankDefaultMessage, NotBlankHolds(value))
    + ValidUuid.Violations(property, value, ValidUuid.DefaultMessage)
  }

  function CityDataRequestViolations(r: CityDataRequest): set<Violation> {
    IdentifierViolations("cityId", r.cityId)
  }

  function CityIdRequestViolations(r: CityIdRequest): set<Violation> {
    IdentifierViolations("id", r.id)
  }

  /** The violation set of one identifier, case by case: empty exactly for a canonical UUID,
      a single format violation for a non-blank non-UUID, a single blank violation for null,
      and both for a string of characters up to U+0020. */
  lemma IdentifierViolationsCases(property: string, value: Option<string>)
    ensures IdentifierViolations(property, value) == {} <==> value.Some? && ValidUuid.Matches(value.value)
    ensures NotBlankHolds(value) && !ValidUuid.Matches(value.value) ==>
      IdentifierViolations(property, value) == {Violation(property, ValidUuid, ValidUuid.DefaultMessage)}
    ensures value.None? ==>
      IdentifierViolations(property, value) == {Violation(property, NotBlank, NotBlankDefaultMessage)}
    ensures value.Some? && (forall i :: 0 <= i < |value.value| ==> value.value[i] <= ' ') ==>
      IdentifierViolations(property, value) == {
        Violation(property, NotBlank, NotBlankDefaultMessage),
        Violation(property, ValidUuid, ValidUuid.DefaultMessage)}
  {
    if value.Some? && ValidUuid.Matches(value.value) {
      ValidUuid.MatchImpliesNotBlank(value.value);
    }
    NotBlankRejects(value);
  }
}
