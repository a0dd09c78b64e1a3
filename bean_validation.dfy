/** The part of Jakarta Bean Validation (Hibernate Validator) the request records rely on:
    a constraint violation, the built-in `@NotBlank` and `@NotEmpty` checks, and the
    unspecified order in which a validator's result set is iterated. */
module BeanValidation {
  import opened Common

  /** The annotation that reported a violation. `ValidUuid` is the composed constraint,
      which reports itself instead of its inner `@Pattern`. */
  datatype Constraint = NotBlank | NotEmpty | ValidUuid

  /** A constraint violation: the record component, the constraint and the interpolated message. */
  datatype Violation = Violation(property: string, constraint: Constraint, message: string)

  /** Hibernate Validator's default message for `@NotBlank`. */
  const NotBlankDefaultMessage := "must not be blank"

  /** `@NotBlank`: not null, and `trim()` leaves at least one character. */
  predicate NotBlankHolds(value: Option<string>) {
    value.Some? && Trim(value.value) != []
  }

  /** `@NotEmpty` on a string: not null and of non-zero length. */
  predicate NotEmptyHolds(value: Option<string>) {
    value.Some? && |value.value| > 0
  }

  /** The violations one constraint contributes: none when it holds, else exactly one. */
  function Check(property: string, constraint: Constraint, message: string, holds: bool): (r: set<Violation>)
    ensures holds <==> r == {}
    ensures !holds ==> r == {Violation(property, constraint, message)}
  {
    if holds then {} else {Violation(property, constraint, message)}
  }

  /** `iterator().next()` on the validator's result set: some member, in an order the
      validator does not specify; nothing when the set is empty. */
  ghost function SomeViolation(violations: set<Violation>): (r: Option<Violation>)
    ensures r.None? <==> violations == {}
    ensures r.Some? ==> r.value in violations
  {
    if violations == {} then None else var v :| v in violations; Some(v)
  }

  /** The message a validator reports: that of some violation, or none when there is none. */
  ghost function SomeMessage(violations: set<Violation>): (r: Option<string>)
    ensures r.None? <==> violations == {}
    ensures r.Some? ==> exists v :: v in violations && v.message == r.value
  {
    match SomeViolation(violations)
    case None => None
    case Some(v) => Some(v.message)
  }

  /** With a single violation the reported message is determined. */
  lemma SingleViolationMessage(v: Violation)
    ensures SomeMessage({v}) == Some(v.message)
  {
  }

  /** `@NotBlank` fails on a null value, and on any string made only of characters up to U+0020. */
  lemma NotBlankRejects(value: Option<string>)
    ensures value.None? ==> !NotBlankHolds(value)
    ensures value.Some? && (forall i :: 0 <= i < |value.value| ==> value.value[i] <= ' ') ==> !NotBlankHolds(value)
    ensures value.Some? && (exists i :: 0 <= i < |value.value| && value.value[i] > ' ') ==> NotBlankHolds(value)
  {
    if value.Some? {
      TrimEmptyIff(value.value);
    }
  }

  /** `@NotBlank` is the stronger of the two built-ins: whatever it accepts `@NotEmpty` accepts. */
  lemma NotBlankImpliesNotEmpty(value: Option<string>)
    ensures NotBlankHolds(value) ==> NotEmptyHolds(value)
  {
    if NotBlankHolds(value) {
      TrimEmptyIff(value.value);
    }
  }
}
