/** `NotNullEqualValidator` of the `com.kodelog` API: NotNull on the subject,
    then Equals, stopping at the first failure. The temporary builder chain
    the Java code uses is replayed in `ValidationHelper.NotNullEqualThroughChain`,
    which is proved to agree with this function. */
module NotNullEqualValidator {
  import opened Values
  import NotNullValidator
  import EqualsValidator

  /** `validate(paramValue, value)`: a null subject stops at the NotNull step,
      so Equals never dereferences it; otherwise the result is Equals'. */
  function Validate(paramValue: Value, value: Value): (r: Result<bool>)
    ensures r.Ok? ==> r.value
    ensures r == Ok(true) <==> paramValue != Null && paramValue == value
    ensures r == Err(ValidationFailed) <==> !(paramValue != Null && paramValue == value)
  {
    match NotNullValidator.Validate(paramValue, value)
    case Err(e) => Err(e)
    case Ok(_) => EqualsValidator.Validate(paramValue, value)
  }

  /** A null subject fails validation; there is no null dereference. */
  lemma NullSubjectFailsValidation(value: Value)
    ensures Validate(Null, value) == Err(ValidationFailed)
    ensures EqualsValidator.Validate(Null, value) == Err(NullDeref)
  {
  }

  /** On a non-null subject the compound validator is exactly Equals. */
  lemma AgreesWithEqualsOnNonNull(paramValue: Value, value: Value)
    requires paramValue != Null
    ensures Validate(paramValue, value) == EqualsValidator.Validate(paramValue, value)
  {
  }
}
