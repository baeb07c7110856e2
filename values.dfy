/** Values shared by both validation APIs: the Java objects a validator may be
    handed, the kinds of exception a validator may raise, and the two shapes of
    a validator call's result (a returned value, or a `void` call that either
    completes or raises). */
module Values {

  /** A UTF-16 code unit, the element of a Java `String`. */
  newtype CodeUnit = x: int | 0 <= x < 0x1_0000

  /** A Java object as the validators see it.
      - `Null`: the null reference.
      - `Str`: a `java.lang.String`, as its UTF-16 code units.
      - `Coll`: a `java.util.Collection`; only its elements (and so its size) matter.
      - `Arr`: an object array `Object[]`.
      - `Num`: an object of a `Comparable` class other than `String` (an
        `Integer`, a `Date`); `kind` names its class and `n` is its ordering key.
      - `Other`: an object of a class that is not `Comparable`; `id` stands
        for its identity, which is what `Object.equals` compares. */
  datatype Value =
    | Null
    | Str(units: seq<CodeUnit>)
    | Coll(items: seq<Value>)
    | Arr(elems: seq<Value>)
    | Num(kind: nat, n: int)
    | Other(id: int)

  /** The exception kinds the core can raise.
      - `InvalidArgument`: `IllegalArgumentException`, the value has a type the validator cannot assess.
      - `ValidationFailed`: `IllegalStateException`, the value was assessed and broke the rule.
      - `NullDeref`: `NullPointerException`, a method was invoked on a null reference.
      - `ClassCast`: `ClassCastException`, `compareTo` was handed objects that are not mutually comparable. */
  datatype Error = InvalidArgument | ValidationFailed | NullDeref | ClassCast

  /** The result of a call that returns a value or raises. */
  datatype Result<T> = Ok(value: T) | Err(error: Error)

  /** The result of a `void` call: it completes or raises. */
  datatype Outcome = Pass | Raised(error: Error)

  /** A Java reference that may be null. */
  datatype Option<T> = None | Some(value: T)
}
