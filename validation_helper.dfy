/** `ValidationHelper` of the `com.kodelog` API: a builder holding a subject
    (`paramValue`) and a comparison value (`value`), validators run against the
    pair, and a constraint handle for chaining further validators. */
module ValidationHelper {
  import opened Values
  import NotNullValidator
  import EqualsValidator
  import NotNullEqualValidator
  import GreaterThanValidator

  /** The validator references a caller can pass: each of the first four
      constructors stands for the singleton its static accessor
      (`isNotNull()`, `isEqual()`, `isNotNullAndEqual()`, `isGreaterThan()`)
      returns, and `NullReference` for a null reference. */
  datatype Validator = IsNotNull | IsEqual | IsNotNullAndEqual | IsGreaterThan | NullReference

  /** `validator.validate(paramValue, value)`. Every validator of the
      catalogue returns `true` when it completes, and none raises
      `InvalidArgument`; invoking a null reference dereferences it. */
  function Run(validator: Validator, paramValue: Value, value: Value): (r: Result<bool>)
    ensures r.Ok? ==> r.value
    ensures r != Err(InvalidArgument)
  {
    match validator
    case IsNotNull => NotNullValidator.Validate(paramValue, value)
    case IsEqual => EqualsValidator.Validate(paramValue, value)
    case IsNotNullAndEqual => NotNullEqualValidator.Validate(paramValue, value)
    case IsGreaterThan => GreaterThanValidator.Validate(paramValue, value)
    case NullReference => Err(NullDeref)
  }

  /** Running `validators` one after another on the same pair, stopping at
      the first one that raises. */
  function RunAll(validators: seq<Validator>, paramValue: Value, value: Value): (o: Outcome)
    decreases |validators|
  {
    if validators == [] then Pass
    else match Run(validators[0], paramValue, value)
      case Err(e) => Raised(e)
      case Ok(_) => RunAll(validators[1..], paramValue, value)
  }

  /** The run completes exactly when every validator succeeds. */
  lemma {:induction false} RunAllPassesIff(validators: seq<Validator>, paramValue: Value, value: Value)
    ensures RunAll(validators, paramValue, value) == Pass <==>
      forall i :: 0 <= i < |validators| ==> Run(validators[i], paramValue, value).Ok?
    decreases |validators|
  {
    if validators != [] {
      RunAllPassesIff(validators[1..], paramValue, value);
      assert forall i :: 0 < i < |validators| ==> validators[1..][i - 1] == validators[i];
    }
  }

  /** The run raises the error of the first validator that fails; the ones
      after it are never consulted. */
  lemma {:induction false} RunAllStopsAtFirstFailure(validators: seq<Validator>, paramValue: Value, value: Value, k: nat)
    requires k < |validators|
    requires forall i :: 0 <= i < k ==> Run(validators[i], paramValue, value).Ok?
    requires Run(validators[k], paramValue, value).Err?
    ensures RunAll(validators, paramValue, value) == Raised(Run(validators[k], paramValue, value).error)
    decreases k
  {
    if k > 0 {
      assert Run(validators[0], paramValue, value).Ok?;
      assert forall i :: 0 <= i < k - 1 ==> validators[1..][i] == validators[i + 1];
      RunAllStopsAtFirstFailure(validators[1..], paramValue, value, k - 1);
    }
  }

  /** Running `first + rest` is running `first`, then `rest` only if `first`
      completed: validators run in order and a failure halts the chain. */
  lemma {:induction false} RunAllAppend(first: seq<Validator>, rest: seq<Validator>, paramValue: Value, value: Value)
    ensures RunAll(first + rest, paramValue, value) ==
      if RunAll(first, paramValue, value) == Pass then RunAll(rest, paramValue, value)
      else RunAll(first, paramValue, value)
    decreases |first|
  {
    if first == [] {
      assert first + rest == rest;
    } else {
      assert (first + rest)[0] == first[0];
      assert (first + rest)[1..] == first[1..] + rest;
      RunAllAppend(first[1..], rest, paramValue, value);
    }
  }

  /** The order of a run matters: on a null subject NotNull before Equals
      fails validation, Equals before NotNull dereferences the null. */
  lemma OrderMatters(value: Value)
    ensures RunAll([IsNotNull, IsEqual], Null, value) == Raised(ValidationFailed)
    ensures RunAll([IsEqual, IsNotNull], Null, value) == Raised(NullDeref)
  {
  }

  /** A validation session: the subject and the comparison value. */
  class Builder {
    /** The comparison value; null until `Against` sets it. */
    var value: Value
    /** The subject being validated. */
    var paramValue: Value

    /** `new Builder(paramValue)`: the comparison value starts as null. */
    constructor (paramValue: Value)
      ensures this.paramValue == paramValue && value == Null
    {
      this.value := Null;
      this.paramValue := paramValue;
    }

    /** `against(value)`: sets the comparison value (the Java doc comment
        calls it the param name), keeps the subject, returns this builder. */
    method Against(value: Value) returns (b: Builder)
      modifies this
      ensures b == this
      ensures this.value == value && paramValue == old(paramValue)
    {
      this.value := value;
      b := this;
    }

    /** `getValue()`. */
    function GetValue(): Value
      reads this
    {
      value
    }

    /** `getParamValue()`. */
    function GetParamValue(): Value
      reads this
    {
      paramValue
    }

    /** `usingValidator(validator)`: on success a fresh constraint bound to
        this builder; on failure the validator's own error. Nothing of the
        builder changes (there is no `modifies` clause). */
    method UsingValidator(validator: Validator) returns (r: Result<Constraint>)
      ensures r.Ok? <==> Run(validator, paramValue, value).Ok?
      ensures r.Err? ==> r.error == Run(validator, paramValue, value).error
      ensures r.Ok? ==> fresh(r.value) && r.value.builder == this
    {
      var outcome := Run(validator, paramValue, value);
      if outcome.Err? {
        return Err(outcome.error);
      }
      var c := new Constraint(this);
      r := Ok(c);
    }

    /** `getValidationResult(validator)`: exactly what the validator returns
        or raises on this builder's pair. */
    method GetValidationResult(validator: Validator) returns (r: Result<bool>)
      ensures r == Run(validator, paramValue, value)
    {
      r := Run(validator, paramValue, value);
    }

    /** `usingValidators(validators...)`: a null array does nothing;
        otherwise the validators run in array order and the first failure
        ends the loop. */
    method UsingValidators(validators: array?<Validator>) returns (o: Outcome)
      ensures validators == null ==> o == Pass
      ensures validators != null ==> o == RunAll(validators[..], paramValue, value)
    {
      if validators == null {
        return Pass;
      }
      var i := 0;
      while i < validators.Length
        invariant 0 <= i <= validators.Length
        invariant RunAll(validators[..], paramValue, value) == RunAll(validators[i..], paramValue, value)
      {
        var outcome := Run(validators[i], paramValue, value);
        assert validators[i..][0] == validators[i];
        if outcome.Err? {
          return Raised(outcome.error);
        }
        assert validators[i..][1..] == validators[i + 1..];
        i := i + 1;
      }
      o := Pass;
    }
  }

  /** The handle returned by a successful validation, for chaining more
      validators against the same builder. */
  class Constraint {
    const builder: Builder

    constructor (builder: Builder)
      ensures this.builder == builder
    {
      this.builder := builder;
    }

    /** `and(validator)`: runs the validator on the originating builder's
        pair and returns this same constraint, or the validator's error. */
    method And(validator: Validator) returns (r: Result<Constraint>)
      ensures r.Ok? <==> Run(validator, builder.paramValue, builder.value).Ok?
      ensures r.Err? ==> r.error == Run(validator, builder.paramValue, builder.value).error
      ensures r.Ok? ==> r.value == this
    {
      var outcome := Run(validator, builder.GetParamValue(), builder.GetValue());
      if outcome.Err? {
        return Err(outcome.error);
      }
      r := Ok(this);
    }

    /** `and(validator, throwResult)`: with the flag set, the validator's
        result or error; with it clear, null, whatever the validator, which
        is never run. */
    method AndReturning(validator: Validator, throwResult: bool) returns (r: Result<Option<bool>>)
      ensures !throwResult ==> r == Ok(None)
      ensures throwResult ==> (r.Ok? <==> Run(validator, builder.paramValue, builder.value).Ok?)
      ensures throwResult && r.Ok? ==> r.value == Some(Run(validator, builder.paramValue, builder.value).value)
      ensures throwResult && r.Err? ==> r.error == Run(validator, builder.paramValue, builder.value).error
    {
      if throwResult {
        var outcome := Run(validator, builder.GetParamValue(), builder.GetValue());
        match outcome
        case Ok(b) => r := Ok(Some(b));
        case Err(e) => r := Err(e);
      } else {
        r := Ok(None);
      }
    }
  }

  /** `validateValue(paramValue)`: a fresh builder for the subject, with a
      null comparison value. */
  method ValidateValue(paramValue: Value) returns (b: Builder)
    ensures fresh(b)
    ensures b.paramValue == paramValue && b.value == Null
  {
    b := new Builder(paramValue);
  }

  /** `NotNullEqualValidator.validate(paramValue, value)` as the Java code
      writes it: `validateValue(paramValue).against(value)
      .usingValidator(isNotNull()).and(isEqual(), true)`. The chain computes
      the compound validator's function. */
  method NotNullEqualThroughChain(paramValue: Value, value: Value) returns (r: Result<bool>)
    ensures r == NotNullEqualValidator.Validate(paramValue, value)
  {
    var b := ValidateValue(paramValue);
    b := b.Against(value);
    var c := b.UsingValidator(IsNotNull);
    if c.Err? {
      return Err(c.error);
    }
    var e := c.value.AndReturning(IsEqual, true);
    match e
    case Err(err) => r := Err(err);
    case Ok(response) =>
      if response.Some? {
        r := Ok(response.value);
      } else {
        assert false;
        r := Err(NullDeref);
      }
  }
}
