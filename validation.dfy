/** `Validation` of the `com.poc` API: a builder holding a value and an
    optional display name, two validators (not-null and not-empty), and a
    constraint handle for chaining. These validators return nothing: they
    complete or raise. */
module Validation {
  import opened Values

  /** The validator references a caller can pass: `IsNotNull` and
      `IsNotEmpty` stand for the singletons their static accessors
      (`isNotNull()`, `isNotEmpty()`) return, `NullReference` for a null
      reference. */
  datatype Validator = IsNotNull | IsNotEmpty | NullReference

  /** The not-null rule: a null value fails validation. */
  function NotNull(param: Option<string>, value: Value): (o: Outcome)
    ensures o == Pass <==> value != Null
    ensures o != Pass ==> o == Raised(ValidationFailed)
  {
    if value == Null then Raised(ValidationFailed) else Pass
  }

  /** The not-empty rule as its documentation states it. Only strings,
      collections and arrays can be assessed; null and every other object is
      an invalid argument. A string or collection is empty at size zero; an
      array is empty when it holds no non-null element, so a zero-length array
      is empty too. */
  function NotEmptyOutcome(value: Value): (o: Outcome)
    ensures o == Raised(InvalidArgument) <==> value.Null? || value.Num? || value.Other?
    ensures value.Str? ==> (o == Raised(ValidationFailed) <==> |value.units| == 0)
    ensures value.Coll? ==> (o == Raised(ValidationFailed) <==> |value.items| == 0)
    ensures value.Arr? ==> (o == Pass <==> exists i :: 0 <= i < |value.elems| && value.elems[i] != Null)
    ensures value.Arr? && |value.elems| == 0 ==> o == Raised(ValidationFailed)
    ensures o != Raised(NullDeref) && o != Raised(ClassCast)
  {
    match value
    case Str(s) => if |s| == 0 then Raised(ValidationFailed) else Pass
    case Coll(xs) => if |xs| == 0 then Raised(ValidationFailed) else Pass
    case Arr(xs) => if forall i :: 0 <= i < |xs| ==> xs[i] == Null then Raised(ValidationFailed) else Pass
    case _ => Raised(InvalidArgument)
  }

  /** The not-empty validator as the Java code runs it: the type test first,
      then, for an array, a scan for a non-null element that stops at the
      first one found. */
  method NotEmpty(param: Option<string>, value: Value) returns (o: Outcome)
    ensures o == NotEmptyOutcome(value)
  {
    if value == Null || !(value.Str? || value.Coll? || value.Arr?) {
      return Raised(InvalidArgument);
    }
    if value.Str? {
      if |value.units| == 0 {
        return Raised(ValidationFailed);
      }
    } else if value.Coll? {
      if |value.items| == 0 {
        return Raised(ValidationFailed);
      }
    } else {
      var elems := value.elems;
      var isEmpty := true;
      var i := 0;
      while i < |elems|
        invariant 0 <= i <= |elems|
        invariant isEmpty
        invariant forall k :: 0 <= k < i ==> elems[k] == Null
      {
        if elems[i] != Null {
          isEmpty := false;
          break;
        }
        i := i + 1;
      }
      if isEmpty {
        return Raised(ValidationFailed);
      }
    }
    o := Pass;
  }

  /** `validator.validate(param, value)`; invoking a null reference
      dereferences it. */
  function Apply(validator: Validator, param: Option<string>, value: Value): (o: Outcome) {
    match validator
    case IsNotNull => NotNull(param, value)
    case IsNotEmpty => NotEmptyOutcome(value)
    case NullReference => Raised(NullDeref)
  }

  /** Running a validator of the catalogue: its outcome is `Apply`'s. */
  method Validate(validator: Validator, param: Option<string>, value: Value) returns (o: Outcome)
    ensures o == Apply(validator, param, value)
  {
    match validator
    case IsNotNull => o := NotNull(param, value);
    case IsNotEmpty => o := NotEmpty(param, value);
    case NullReference => o := Raised(NullDeref);
  }

  /** Neither validator's outcome depends on the display name. */
  lemma IgnoresName(validator: Validator, param1: Option<string>, param2: Option<string>, value: Value)
    ensures Apply(validator, param1, value) == Apply(validator, param2, value)
  {
  }

  /** A validation session: the value and its display name. */
  class Builder {
    /** The value being validated. */
    var value: Value
    /** The display name; null until `As` sets it. */
    var param: Option<string>

    /** `new Builder(value)`: no display name yet. */
    constructor (value: Value)
      ensures this.value == value && param == None
    {
      this.value := value;
      this.param := None;
    }

    /** `as(param)`: sets the display name, keeps the value, returns this
        builder; a later call overwrites an earlier one. */
    method As(param: Option<string>) returns (b: Builder)
      modifies this
      ensures b == this
      ensures this.param == param && value == old(value)
    {
      this.param := param;
      b := this;
    }

    /** `getValue()`. */
    function GetValue(): Value
      reads this
    {
      value
    }

    /** `getParam()`. */
    function GetParam(): Option<string>
      reads this
    {
      param
    }

    /** `is(validator)`: on success a fresh constraint bound to this builder;
        on failure the validator's own error. Nothing of the builder changes. */
    method Is(validator: Validator) returns (r: Result<Constraint>)
      ensures r.Ok? <==> Apply(validator, param, value) == Pass
      ensures r.Err? ==> r.error == Apply(validator, param, value).error
      ensures r.Ok? ==> fresh(r.value) && r.value.builder == this
    {
      var outcome := Validate(validator, param, value);
      if outcome.Raised? {
        return Err(outcome.error);
      }
      var c := new Constraint(this);
      r := Ok(c);
    }
  }

  /** The handle returned by `Is`, for chaining more validators against the
      same builder. */
  class Constraint {
    const builder: Builder

    constructor (builder: Builder)
      ensures this.builder == builder
    {
      this.builder := builder;
    }

    /** `add(validator)`: runs the validator on the originating builder's
        name and value, and returns this same constraint or the error. */
    method Add(validator: Validator) returns (r: Result<Constraint>)
      ensures r.Ok? <==> Apply(validator, builder.param, builder.value) == Pass
      ensures r.Err? ==> r.error == Apply(validator, builder.param, builder.value).error
      ensures r.Ok? ==> r.value == this
    {
      var outcome := Validate(validator, builder.GetParam(), builder.GetValue());
      if outcome.Raised? {
        return Err(outcome.error);
      }
      r := Ok(this);
    }
  }

  /** `checkThat(value)`: a fresh builder for the value, with no name. */
  method CheckThat(value: Value) returns (b: Builder)
    ensures fresh(b)
    ensures b.value == value && b.param == None
  {
    b := new Builder(value);
  }
}
