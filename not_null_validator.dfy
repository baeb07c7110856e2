/** `NotNullValidator` of the `com.kodelog` API: rejects a null subject. */
module NotNullValidator {
  import opened Values

  /** `validate(paramValue, value)`: the null test is on the subject
      `paramValue`; the comparison value is never looked at. */
  function Validate(paramValue: Value, value: Value): (r: Result<bool>)
    ensures r == Err(ValidationFailed) <==> paramValue == Null
    ensures r == Ok(true) <==> paramValue != Null
  {
    if paramValue == Null then Err(ValidationFailed) else Ok(true)
  }

  /** The outcome does not depend on the comparison value, and no other kind
      of exception is ever raised. */
  lemma IgnoresComparison(paramValue: Value, value1: Value, value2: Value)
    ensures Validate(paramValue, value1) == Validate(paramValue, value2)
    ensures Validate(paramValue, value1) != Err(InvalidArgument)
    ensures Validate(paramValue, value1) != Err(NullDeref)
  {
  }
}
