/**
 * The pieces every form screen shares: a validator's verdict, the rule a
 * field-change event applies to that field's error, and the two rules a
 * submit applies (by message, as the transaction forms do, or by
 * success flag, as the sign-in forms do).
 */
module Forms {
  import opened Common

  /** `ValidationResult(isSuccess, message)`. */
  datatype ValidationResult = ValidationResult(isSuccess: bool, message: Option<string>)

  /**
   * `String.toFloatOrNull()`. Which texts it accepts (exponents, `NaN`,
   * type suffixes) is the standard library's business and stays abstract:
   * a screen is given the parser and only asks whether it succeeded.
   */
  type FloatParser = string -> Option<real>

  const IncorrectFormat: string := "Incorrect Format"

  /**
   * The number-field validators: a success carries no message, a failure
   * carries "Incorrect Format", and success is exactly a successful parse.
   */
  function ParsedCheck(parses: bool): (r: ValidationResult)
    ensures r.isSuccess == parses
    ensures r.isSuccess <==> r.message.None?
    ensures !r.isSuccess ==> r.message == Some(IncorrectFormat)
  {
    if parses then ValidationResult(true, None) else ValidationResult(false, Some(IncorrectFormat))
  }

  /**
   * The sign-in validators (`isNullOrEmpty`): failure exactly on null or
   * empty text, with the field's own message; a success carries "Success".
   */
  function NonEmptyCheck(value: Option<string>, emptyMessage: string): (r: ValidationResult)
    ensures r.isSuccess <==> value.Some? && |value.value| > 0
    ensures r.message.Some?
    ensures !r.isSuccess ==> r.message.value == emptyMessage
    ensures r.isSuccess ==> r.message.value == "Success"
  {
    if value.None? || value.value == [] then ValidationResult(false, Some(emptyMessage))
    else ValidationResult(true, Some("Success"))
  }

  /**
   * A field-change event stores the value, then clears the field's error
   * when the new value validates; an invalid value keeps whatever error
   * was showing.
   */
  function ErrorAfterChange(error: Option<string>, valid: bool): (r: Option<string>)
    ensures valid ==> r.None?
    ensures !valid ==> r == error
  {
    if valid && error.Some? then None else error
  }

  /** The transaction forms' submit: a verdict with a message shows it; one without leaves the error. */
  function ErrorAfterSubmit(error: Option<string>, v: ValidationResult): (r: Option<string>)
    ensures v.message.Some? ==> r == v.message
    ensures v.message.None? ==> r == error
  {
    if v.message.Some? then v.message else error
  }

  /** The sign-in forms' submit: a failing verdict shows its message; a passing one leaves the error. */
  function ErrorAfterFailure(error: Option<string>, v: ValidationResult): (r: Option<string>)
    ensures !v.isSuccess ==> r == v.message
    ensures v.isSuccess ==> r == error
  {
    if !v.isSuccess then v.message else error
  }

  /** An error is explained by a verdict on the current value: none, or exactly that verdict's failure. */
  predicate Explains(error: Option<string>, v: ValidationResult) {
    error.Some? ==> !v.isSuccess && error == v.message
  }
}
