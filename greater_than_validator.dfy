/** `GreaterThanValidator` of the `com.kodelog` API: the subject must compare
    strictly greater than the comparison value under `compareTo`. */
module GreaterThanValidator {
  import opened Values

  /** `String.compareTo` over UTF-16 code units: the difference of the first
      pair of differing code units, or the difference of the lengths when one
      string is a prefix of the other. */
  function StrCompare(x: seq<CodeUnit>, y: seq<CodeUnit>): (c: int)
    decreases |x|
  {
    if x == [] || y == [] then |x| - |y|
    else if x[0] != y[0] then x[0] as int - y[0] as int
    else StrCompare(x[1..], y[1..])
  }

  /** Lexicographic order, stated directly: `x` comes strictly after `y` when
      at the first position where they differ `x` has the larger code unit, or
      when `y` is a proper prefix of `x`. */
  predicate StrAfter(x: seq<CodeUnit>, y: seq<CodeUnit>) {
    (exists k :: 0 <= k < |x| && k < |y| && x[..k] == y[..k] && x[k] > y[k])
    || (|y| < |x| && x[..|y|] == y)
  }

  /** Whether a reference survives the cast to `Comparable` that the erased
      `validate(Comparable, Comparable)` performs on both arguments before
      its body runs: null does, and so does an object of a `Comparable` class. */
  predicate CastsToComparable(v: Value) {
    v.Null? || v.Str? || v.Num?
  }

  /** `receiver.compareTo(argument)`, for a receiver and an argument that have
      passed the cast to `Comparable`. A null receiver or a null argument is
      dereferenced; an argument of another class than the receiver's fails
      the cast in the receiver's `compareTo`. */
  function CompareTo(receiver: Value, argument: Value): (r: Result<int>)
    requires CastsToComparable(receiver) && CastsToComparable(argument)
    ensures r == Err(NullDeref) <==> receiver == Null || argument == Null
    ensures r.Ok? <==> (receiver.Num? && argument.Num? && receiver.kind == argument.kind) || (receiver.Str? && argument.Str?)
    ensures r == Err(ClassCast) <==> !r.Ok? && r != Err(NullDeref)
  {
    match receiver
    case Num(kind, a) =>
      (match argument
       case Num(kind', b) =>
         if kind != kind' then Err(ClassCast)
         else Ok(if a < b then -1 else if a == b then 0 else 1)
       case Null => Err(NullDeref)
       case _ => Err(ClassCast))
    case Str(a) =>
      (match argument
       case Str(b) => Ok(StrCompare(a, b))
       case Null => Err(NullDeref)
       case _ => Err(ClassCast))
    case _ => Err(NullDeref)
  }

  /** The ordering the validator checks, stated without `compareTo`. */
  predicate Greater(param: Value, value: Value) {
    (param.Num? && value.Num? && param.kind == value.kind && param.n > value.n)
    || (param.Str? && value.Str? && StrAfter(param.units, value.units))
  }

  /** `validate(param, value)`, entered through the interface: both arguments
      are cast to `Comparable`, then it fails unless
      `param.compareTo(value) > 0`. It never raises `InvalidArgument`, and
      `true` is its only result. */
  function Validate(param: Value, value: Value): (r: Result<bool>)
    ensures r.Ok? ==> r.value
    ensures r != Err(InvalidArgument)
    ensures !CastsToComparable(param) || !CastsToComparable(value) ==> r == Err(ClassCast)
    ensures r == Err(ValidationFailed) <==>
      CastsToComparable(param) && CastsToComparable(value) &&
      CompareTo(param, value).Ok? && CompareTo(param, value).value <= 0
  {
    if !CastsToComparable(param) || !CastsToComparable(value) then Err(ClassCast)
    else match CompareTo(param, value)
      case Err(e) => Err(e)
      case Ok(c) => if c <= 0 then Err(ValidationFailed) else Ok(true)
  }

  /** `StrCompare` is zero exactly on equal strings. */
  lemma {:induction false} StrCompareZeroIff(x: seq<CodeUnit>, y: seq<CodeUnit>)
    ensures StrCompare(x, y) == 0 <==> x == y
    decreases |x|
  {
    if x != [] && y != [] && x[0] == y[0] {
      StrCompareZeroIff(x[1..], y[1..]);
      assert x == [x[0]] + x[1..] && y == [y[0]] + y[1..];
    }
  }

  /** Swapping the strings negates `StrCompare`. */
  lemma {:induction false} StrCompareAntisymmetric(x: seq<CodeUnit>, y: seq<CodeUnit>)
    ensures StrCompare(y, x) == -StrCompare(x, y)
    decreases |x|
  {
    if x != [] && y != [] && x[0] == y[0] {
      StrCompareAntisymmetric(x[1..], y[1..]);
    }
  }

  /** A witness of `StrAfter(x, y)` past the common first character is a
      witness of `StrAfter` on the tails. */
  lemma StrAfterDropHead(x: seq<CodeUnit>, y: seq<CodeUnit>)
    requires x != [] && y != [] && x[0] == y[0]
    requires StrAfter(x, y)
    ensures StrAfter(x[1..], y[1..])
  {
    var x', y' := x[1..], y[1..];
    if |y| < |x| && x[..|y|] == y {
      assert x'[..|y'|] == x[1..|y|];
      assert x[1..|y|] == x[..|y|][1..];
    } else {
      var k :| 0 <= k < |x| && k < |y| && x[..k] == y[..k] && x[k] > y[k];
      assert x'[k - 1] == x[k] && y'[k - 1] == y[k];
      assert x'[..k - 1] == x[..k][1..];
      assert y'[..k - 1] == y[..k][1..];
    }
  }

  /** A witness of `StrAfter` on the tails, shifted by the common first
      character, is a witness of `StrAfter(x, y)`. */
  lemma StrAfterAddHead(x: seq<CodeUnit>, y: seq<CodeUnit>)
    requires x != [] && y != [] && x[0] == y[0]
    requires StrAfter(x[1..], y[1..])
    ensures StrAfter(x, y)
  {
    var x', y' := x[1..], y[1..];
    if |y'| < |x'| && x'[..|y'|] == y' {
      assert x[..|y|] == [x[0]] + x'[..|y'|];
    } else {
      var k :| 0 <= k < |x'| && k < |y'| && x'[..k] == y'[..k] && x'[k] > y'[k];
      assert x[..k + 1] == [x[0]] + x'[..k];
      assert y[..k + 1] == [y[0]] + y'[..k];
      assert x[k + 1] > y[k + 1];
    }
  }

  /** `StrCompare` is positive exactly when `x` comes after `y` in
      lexicographic order. */
  lemma {:induction false} StrCompareSign(x: seq<CodeUnit>, y: seq<CodeUnit>)
    ensures StrCompare(x, y) > 0 <==> StrAfter(x, y)
    decreases |x|
  {
    if x == [] || y == [] {
      if x != [] {
        assert x[..|y|] == y;
      }
    } else if x[0] != y[0] {
      if x[0] > y[0] {
        assert x[..0] == y[..0];
      }
    } else {
      StrCompareSign(x[1..], y[1..]);
      if StrAfter(x, y) {
        StrAfterDropHead(x, y);
      }
      if StrAfter(x[1..], y[1..]) {
        StrAfterAddHead(x, y);
      }
    }
  }

  /** The validator succeeds exactly when the subject is greater than the
      comparison value, and fails with `ValidationFailed` exactly when both are
      of one comparable kind and the subject is not greater. */
  lemma SucceedsIffGreater(param: Value, value: Value)
    ensures Validate(param, value) == Ok(true) <==> Greater(param, value)
    ensures Validate(param, value) == Err(ValidationFailed) <==>
      ((param.Num? && value.Num? && param.kind == value.kind) || (param.Str? && value.Str?)) && !Greater(param, value)
  {
    if param.Str? && value.Str? {
      StrCompareSign(param.units, value.units);
    }
  }

  /** Equal values are not strictly greater: comparing a comparable value with
      itself always fails. */
  lemma EqualValuesFail(a: Value)
    requires a.Num? || a.Str?
    ensures Validate(a, a) == Err(ValidationFailed)
  {
    if a.Str? {
      StrCompareZeroIff(a.units, a.units);
    }
  }

  /** Success on `(a, b)` means failure on `(b, a)`. */
  lemma Asymmetric(a: Value, b: Value)
    requires Validate(a, b).Ok?
    ensures Validate(b, a) == Err(ValidationFailed)
  {
    if a.Str? {
      StrCompareAntisymmetric(a.units, b.units);
    }
  }
}
