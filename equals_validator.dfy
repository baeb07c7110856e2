/** `EqualsValidator` of the `com.kodelog` API: the subject must equal the
    comparison value under `equals`. Java's `equals` is modelled as equality of
    `Value`s. */
module EqualsValidator {
  import opened Values

  /** `validate(paramValue, value)` as written: `paramValue.equals(value)` is
      called with no null guard, and on inequality the failure message is built
      with `value.toString()`, which itself dereferences a null comparison value
      before the `IllegalStateException` can be thrown. */
  function ValidateAsWritten(paramValue: Value, value: Value): (r: Result<bool>)
    ensures r == Ok(true) <==> paramValue != Null && paramValue == value
    ensures r == Err(ValidationFailed) <==> paramValue != Null && value != Null && paramValue != value
    ensures r == Err(NullDeref) <==> paramValue == Null || (value == Null && paramValue != value)
  {
    if paramValue == Null then Err(NullDeref)
    else if paramValue != value then
      if value == Null then Err(NullDeref) else Err(ValidationFailed)
    else Ok(true)
  }

  /** `validate(paramValue, value)` with the failure path raising the
      `IllegalStateException` it was written to raise. The rest of the model
      uses this definition. */
  function Validate(paramValue: Value, value: Value): (r: Result<bool>)
    ensures r == Ok(true) <==> paramValue != Null && paramValue == value
    ensures r == Err(ValidationFailed) <==> paramValue != Null && paramValue != value
    ensures r == Err(NullDeref) <==> paramValue == Null
  {
    if paramValue == Null then Err(NullDeref)
    else if paramValue != value then Err(ValidationFailed)
    else Ok(true)
  }

  /** Every non-null value is equal to itself. */
  lemma Reflexive(a: Value)
    requires a != Null
    ensures Validate(a, a) == Ok(true)
  {
  }

  /** Between two non-null values the check is symmetric. */
  lemma Symmetric(a: Value, b: Value)
    requires a != Null && b != Null
    ensures Validate(a, b) == Validate(b, a)
  {
  }

  /** A non-null subject against a null comparison value: the written code
      dereferences the null while building its message, the intended code
      reports a validation failure. */
  lemma AsWrittenDereferencesNullComparison(a: Value)
    requires a != Null
    ensures ValidateAsWritten(a, Null) == Err(NullDeref)
    ensures Validate(a, Null) == Err(ValidationFailed)
  {
  }

  /** The written and the intended code differ on no other input. */
  lemma AsWrittenAgreesOtherwise(paramValue: Value, value: Value)
    requires value != Null || paramValue == Null
    ensures ValidateAsWritten(paramValue, value) == Validate(paramValue, value)
  {
  }
}
