/** The city-data function's validators, `validations/BeanValidations.validateBean` and
    `utils/BeanValidationUtils.validateBean`: the message of the one `ValidationException`
    they raise, or none when the record has no violation. */
module DataValidation {
  import opened Common
  import opened BeanValidation
  import opened DataRequests
  import ValidUuid

  /** `BeanValidations.validateBean` on a `CityDataRequest`. */
  ghost function ValidateCityDataRequest(request: CityDataRequest): (r: Option<string>)
    ensures r.None? <==> CityDataRequestViolations(request) == {}
    ensures r.Some? ==> exists v :: v in CityDataRequestViolations(request) && v.message == r.value
  {
    SomeMessage(CityDataRequestViolations(request))
  }

  /** `BeanValidationUtils.validateBean` on a `CityIdRequest`. */
  ghost function ValidateCityIdRequest(request: CityIdRequest): (r: Option<string>)
    ensures r.None? <==> CityIdRequestViolations(request) == {}
    ensures r.Some? ==> exists v :: v in CityIdRequestViolations(request) && v.message == r.value
  {
    SomeMessage(CityIdRequestViolations(request))
  }

  /** A canonical lower-case UUID passes both validators. */
  lemma ValidIdentifierPasses(id: string)
    requires ValidUuid.Matches(id)
    ensures ValidateCityDataRequest(CityDataRequest(Some(id))).None?
    ensures ValidateCityIdRequest(CityIdRequest(Some(id))).None?
  {
    IdentifierViolationsCases("cityId", Some(id));
    IdentifierViolationsCases("id", Some(id));
  }

  /** The identifiers of the function tests: the canonical one passes, null is reported as
      blank, a single space is rejected, and a truncated UUID is reported as "Invalid UUID". */
  lemma ValidateFixtures()
    ensures ValidateCityDataRequest(CityDataRequest(Some("a0ecb466-7ef5-47bf-a1ca-12f9f9328528"))).None?
    ensures ValidateCityDataRequest(CityDataRequest(None)) == Some(NotBlankDefaultMessage)
    ensures ValidateCityDataRequest(CityDataRequest(Some(" "))).Some?
    ensures ValidateCityDataRequest(CityDataRequest(Some("a0ecb466-7ef5-47bf"))) == Some(ValidUuid.DefaultMessage)
    ensures ValidateCityIdRequest(CityIdRequest(Some("non-existing-id"))) == Some(ValidUuid.DefaultMessage)
  {
    ValidUuid.FixtureIdentifiers();
    IdentifierViolationsCases("cityId", Some("a0ecb466-7ef5-47bf-a1ca-12f9f9328528"));
    IdentifierViolationsCases("cityId", None);
    SingleViolationMessage(Violation("cityId", NotBlank, NotBlankDefaultMessage));
    IdentifierViolationsCases("cityId", Some(" "));
    var truncated := Some("a0ecb466-7ef5-47bf");
    NotBlankRejects(truncated);
    assert truncated.value[0] > ' ';
    IdentifierViolationsCases("cityId", truncated);
    SingleViolationMessage(Violation("cityId", ValidUuid, ValidUuid.DefaultMessage));
    var other := Some("non-existing-id");
    NotBlankRejects(other);
    assert other.value[0] > ' ';
    IdentifierViolationsCases("id", other);
    SingleViolationMessage(Violation("id", ValidUuid, ValidUuid.DefaultMessage));
  }
}
