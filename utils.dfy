/** The input check of src/utils/index.ts (`validateNumber`). */
module Utils {
  import opened Wrappers

  /** An arbitrary JavaScript value as far as the check can tell it apart:
      a number (never NaN here), a string, or anything else. */
  datatype JsValue = Number(n: real) | Str(s: string) | Other

  /** What follows the field's name in the message of a failed check. */
  const InvalidSuffix: string := " must be a positive number"

  /** Accepts exactly the positive numbers and returns them unchanged;
      anything else fails with the field's message. */
  function ValidateNumber(value: JsValue, fieldName: string): (r: Result<real, string>)
    ensures r.Ok? <==> value.Number? && value.n > 0.0
    ensures r.Ok? ==> r.value == value.n
    ensures r.Err? ==> r.error == fieldName + InvalidSuffix
  {
    if !value.Number? || value.n <= 0.0 then Err(fieldName + InvalidSuffix) else Ok(value.n)
  }

  /** A validated number passes the check again with the same result. */
  lemma ValidateIdempotent(value: JsValue, fieldName: string, other: string)
    requires ValidateNumber(value, fieldName).Ok?
    ensures ValidateNumber(Number(ValidateNumber(value, fieldName).value), other)
         == ValidateNumber(value, fieldName)
  {
  }

  /** The examples of the validator's tests: 100 passes, zero, a negative
      number and the string "100" fail with the field's message. */
  lemma ValidateExamples()
    ensures ValidateNumber(Number(100.0), "test") == Ok(100.0)
    ensures ValidateNumber(Number(0.0), "test") == Err("test" + InvalidSuffix)
    ensures ValidateNumber(Number(-10.0), "test") == Err("test" + InvalidSuffix)
    ensures ValidateNumber(Str("100"), "test") == Err("test" + InvalidSuffix)
  {
  }
}
