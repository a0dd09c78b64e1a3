/** The city-read function's validators: each runs the Bean Validation engine over a request
    and raises one exception carrying the message of one violation, or returns normally. */
module ReadValidation {
  import opened Common
  import opened BeanValidation
  import opened ReadRequests
  import opened ReadErrors

  /** `utils/ValidationUtils.validateRequest`: an error only when there are violations; it is a
      `ValidationException` carrying one violation's message (never a combination of several)
      and the caller's request id. */
  ghost function ValidateRequest(request: CityDataRequest, requestId: string): (r: Option<ReadError>)
    ensures r.None? <==> CityDataRequestViolations(request) == {}
    ensures r.Some? ==> r.value.Validation? && r.value.requestId == Some(requestId)
    ensures r.Some? ==> exists v :: v in CityDataRequestViolations(request) && v.message == r.value.message
  {
    match SomeMessage(CityDataRequestViolations(request))
    case None => None
    case Some(m) => Some(Validation(m, Some(requestId)))
  }

  /** `validations/BeanValidations.validateRequest` (and the same check in
      `utils/FunctionUtils.validateRequest`): the message of the thrown jakarta
      `ValidationException`, or none when the `dto` record has no violation. */
  ghost function ValidateDto(request: CityDataDto): (r: Option<string>)
    ensures r.None? <==> CityDataDtoViolations(request) == {}
    ensures r.Some? ==> exists v :: v in CityDataDtoViolations(request) && v.message == r.value
  {
    SomeMessage(CityDataDtoViolations(request))
  }

  /** A city identifier that is non-blank but no UUID is reported with the format message,
      the only violation then present. */
  lemma MalformedIdentifierMessage(request: CityDataRequest, requestId: string)
    requires NotBlankHolds(request.cityId) && !ValidUuid.Matches(request.cityId.value)
    ensures ValidateRequest(request, requestId) == Some(Validation(CityIdFormatMessage, Some(requestId)))
  {
    CityIdViolationsIff(request.cityId);
    assert CityDataRequestViolations(request) == {Violation("cityId", ValidUuid, CityIdFormatMessage)};
    SingleViolationMessage(Violation("cityId", ValidUuid, CityIdFormatMessage));
  }

  /** A null city identifier is reported with the blank message. */
  lemma NullIdentifierMessage(request: CityDataRequest, requestId: string)
    requires request.cityId.None?
    ensures ValidateRequest(request, requestId) == Some(Validation(CityIdBlankMessage, Some(requestId)))
  {
    BlankCityIdViolations(request.cityId);
    SingleViolationMessage(Violation("cityId", NotBlank, CityIdBlankMessage));
  }
}
