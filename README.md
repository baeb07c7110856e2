# Fluent validation builders, modelled in Dafny

This project models the two small fluent validation APIs of the repository.
Both are built on the Builder pattern:

- **`com.kodelog.validation`**: `ValidationHelper.validateValue(subject).against(comparison)`
  returns a `Builder`. Its `usingValidator` runs one validator and returns a
  `Constraint`, `getValidationResult` returns the validator's result, and
  `usingValidators` runs an array of validators and stops at the first
  failure. `Constraint.and` chains further validators.
  There are four validators:
  - `NotNullValidator`
  - `EqualsValidator`
  - `GreaterThanValidator`
  - the compound `NotNullEqualValidator`
- **`com.poc.designpatterns.builderpattern`**: `Validation.checkThat(value).as(name).is(v).add(v2)`,
  with two validators, not-null and not-empty.

Java objects become the closed datatype `Values.Value`:

| Java | `Value` |
|---|---|
| null | `Null` |
| `String` | `Str`, as its UTF-16 code units |
| `Collection` | `Coll` |
| `Object[]` | `Arr` |
| an object of a `Comparable` class such as `Integer` or `Date` | `Num`: `kind` names its class and `n` is its ordering key |
| an object of a class that is not `Comparable` | `Other`: `id` stands for its identity |

Exceptions become `Values.Error`:

| Java | `Error` |
|---|---|
| `IllegalArgumentException` | `InvalidArgument` |
| `IllegalStateException` | `ValidationFailed` |
| `NullPointerException` | `NullDeref` |
| `ClassCastException` | `ClassCast` |

A call that returns a value yields a `Result`. A `void` call yields an
`Outcome`: `Pass` or `Raised`.

Each singleton accessor (`isNotNull()`, `isEqual()`, …) becomes a constructor
of a `Validator` datatype. A further constructor, `NullReference`, stands for
a null validator reference. `Run` (kodelog) or `Apply` (poc) maps each one to
its validator's function. For `NullReference` the result is a null
dereference.

The builders and constraints are classes with mutable fields:
- `against` and `as` update the builder in place.
- `usingValidators` is a loop over an `array?`. A null array is allowed.
- The not-empty array scan is a loop that leaves at the first non-null
  element.

The methods that run validators have no `modifies` clause. Dafny therefore
guarantees that running a validator never changes the builder's subject,
comparison value or name.

## Model

| member | source | states |
|---|---|---|
| NotNullValidator.Validate | src/com/kodelog/validation/validators/NotNullValidator.java:24-29 | raises ValidationFailed iff the subject (first argument) is null, otherwise returns true |
| NotNullValidator.IgnoresComparison | src/com/kodelog/validation/validators/NotNullValidator.java:24-29 | the outcome is independent of the comparison value; never InvalidArgument or a null dereference |
| EqualsValidator.ValidateAsWritten | src/com/kodelog/validation/validators/EqualsValidator.java:24-31 | as written: true iff the non-null subject equals the comparison value; a null subject, or a null comparison value that differs from the subject, dereferences null; otherwise ValidationFailed |
| EqualsValidator.Validate | src/com/kodelog/validation/validators/EqualsValidator.java:24-31 | true iff the non-null subject equals the comparison value; ValidationFailed iff it is non-null and differs; NullDeref iff the subject is null |
| EqualsValidator.Reflexive | src/com/kodelog/validation/validators/EqualsValidator.java:25-30 | every non-null value passes against itself |
| EqualsValidator.Symmetric | src/com/kodelog/validation/validators/EqualsValidator.java:25-30 | between non-null values the outcome does not depend on argument order |
| EqualsValidator.AsWrittenDereferencesNullComparison | src/com/kodelog/validation/validators/EqualsValidator.java:25-28 | a non-null subject against null: the written code dereferences null; the intended code raises ValidationFailed |
| EqualsValidator.AsWrittenAgreesOtherwise | src/com/kodelog/validation/validators/EqualsValidator.java:25-30 | written and intended code agree on every other input |
| GreaterThanValidator.CompareTo | src/com/kodelog/validation/innovativevalidators/GreaterThanValidator.java:26 | on references that passed the cast to `Comparable`: a null receiver or argument is dereferenced; a number results exactly for two strings or two objects of one class; every other pairing fails the cast (ClassCast) |
| GreaterThanValidator.StrCompareZeroIff | src/com/kodelog/validation/innovativevalidators/GreaterThanValidator.java:26 | string comparison is zero exactly on equal strings |
| GreaterThanValidator.StrCompareAntisymmetric | src/com/kodelog/validation/innovativevalidators/GreaterThanValidator.java:26 | swapping two strings negates their comparison |
| GreaterThanValidator.StrCompareSign | src/com/kodelog/validation/innovativevalidators/GreaterThanValidator.java:26 | string comparison is positive exactly when the first string comes after the second in lexicographic order |
| GreaterThanValidator.Validate | src/com/kodelog/validation/innovativevalidators/GreaterThanValidator.java:14-31 | a non-null argument that is not `Comparable` (collection, array, other object) fails the erased signature's cast (ClassCast) before anything else; otherwise ValidationFailed iff `compareTo` gives a value `<= 0`; never InvalidArgument; the only successful result is true |
| GreaterThanValidator.SucceedsIffGreater | src/com/kodelog/validation/innovativevalidators/GreaterThanValidator.java:26-30 | succeeds iff the subject is strictly greater (objects of one class: by key; strings: lexicographic over code units); ValidationFailed iff both are of one comparable class and the subject is not greater |
| GreaterThanValidator.EqualValuesFail | src/com/kodelog/validation/innovativevalidators/GreaterThanValidator.java:26-28 | a comparable value is never greater than itself: ValidationFailed |
| GreaterThanValidator.Asymmetric | src/com/kodelog/validation/innovativevalidators/GreaterThanValidator.java:26-30 | success on (a, b) implies ValidationFailed on (b, a) |
| NotNullEqualValidator.Validate | src/com/kodelog/validation/complexvalidators/NotNullEqualValidator.java:15-19 | its only result is true, returned iff the subject is non-null and equal to the comparison value; ValidationFailed otherwise, never a null dereference (with the corrected Equals) |
| NotNullEqualValidator.NullSubjectFailsValidation | src/com/kodelog/validation/complexvalidators/NotNullEqualValidator.java:16-17 | a null subject stops at the NotNull step with ValidationFailed, where Equals alone would dereference null |
| NotNullEqualValidator.AgreesWithEqualsOnNonNull | src/com/kodelog/validation/complexvalidators/NotNullEqualValidator.java:16-18 | on a non-null subject the outcome is exactly Equals' outcome |
| ValidationHelper.Run | src/com/kodelog/validation/utility/ValidationHelper.java:23-73 | every validator reference returns true when it completes and never raises InvalidArgument |
| ValidationHelper.RunAllPassesIff | src/com/kodelog/validation/utility/ValidationHelper.java:157-164 | a run of several validators completes iff every one of them succeeds |
| ValidationHelper.RunAllStopsAtFirstFailure | src/com/kodelog/validation/utility/ValidationHelper.java:157-164 | the run raises exactly the error of the first failing validator, whatever follows it |
| ValidationHelper.RunAllAppend | src/com/kodelog/validation/utility/ValidationHelper.java:159-163 | running `first + rest` runs `rest` only if `first` completed; the validators run in order |
| ValidationHelper.OrderMatters | src/com/kodelog/validation/utility/ValidationHelper.java:160-161 | on a null subject [NotNull, Equals] raises ValidationFailed, [Equals, NotNull] a null dereference |
| ValidationHelper.Builder.constructor | src/com/kodelog/validation/utility/ValidationHelper.java:102-105 | the subject is the argument and the comparison value is null |
| ValidationHelper.Builder.Against | src/com/kodelog/validation/utility/ValidationHelper.java:113-116 | sets the comparison value, keeps the subject, returns the same builder (so a later call overwrites) |
| ValidationHelper.Builder.UsingValidator | src/com/kodelog/validation/utility/ValidationHelper.java:127-131 | succeeds iff the validator succeeds on (subject, comparison); success gives a fresh constraint bound to this builder, failure the validator's error unchanged; builder unchanged |
| ValidationHelper.Builder.GetValidationResult | src/com/kodelog/validation/utility/ValidationHelper.java:145-148 | returns exactly the validator's result or error on (subject, comparison) |
| ValidationHelper.Builder.UsingValidators | src/com/kodelog/validation/utility/ValidationHelper.java:157-164 | a null array passes; otherwise the outcome is the fail-fast run of the array's validators in order |
| ValidationHelper.Constraint.constructor | src/com/kodelog/validation/utility/ValidationHelper.java:200-202 | the constraint refers to the given builder |
| ValidationHelper.Constraint.And | src/com/kodelog/validation/utility/ValidationHelper.java:211-214 | runs the validator on the originating builder's pair; succeeds iff it does, returning this same constraint; otherwise its error |
| ValidationHelper.Constraint.AndReturning | src/com/kodelog/validation/utility/ValidationHelper.java:225-231 | flag false: null, whatever the validator, so it cannot fail; flag true: the validator's result or error |
| ValidationHelper.ValidateValue | src/com/kodelog/validation/utility/ValidationHelper.java:81-83 | a fresh builder whose subject is the argument and whose comparison value is null |
| ValidationHelper.NotNullEqualThroughChain | src/com/kodelog/validation/complexvalidators/NotNullEqualValidator.java:16-18 | the builder chain the Java validator runs computes the compound validator's function on every input |
| Validation.NotNull | src/com/poc/designpatterns/builderpattern/Validation.java:27-32 | passes iff the value is non-null; otherwise ValidationFailed |
| Validation.NotEmptyOutcome | src/com/poc/designpatterns/builderpattern/Validation.java:84-93 | InvalidArgument iff the value is null or not a string, collection or array (a `Num` or `Other` object); a string or collection fails iff its size is 0; an array passes iff some element is non-null (so a zero-length array fails) |
| Validation.NotEmpty | src/com/poc/designpatterns/builderpattern/Validation.java:45-73 | the type test and the array scan that stops at the first non-null element produce exactly the documented not-empty outcome |
| Validation.Validate | src/com/poc/designpatterns/builderpattern/Validation.java:18-74 | running a catalogue validator yields its rule's outcome |
| Validation.IgnoresName | src/com/poc/designpatterns/builderpattern/Validation.java:27-73 | neither validator's outcome depends on the display name |
| Validation.Builder.constructor | src/com/poc/designpatterns/builderpattern/Validation.java:138-141 | holds the value, with no display name |
| Validation.Builder.As | src/com/poc/designpatterns/builderpattern/Validation.java:149-152 | sets the name, keeps the value, returns the same builder (a later call overwrites) |
| Validation.Builder.Is | src/com/poc/designpatterns/builderpattern/Validation.java:163-166 | succeeds iff the validator passes on (name, value), giving a fresh constraint bound to this builder; otherwise the validator's error |
| Validation.Constraint.constructor | src/com/poc/designpatterns/builderpattern/Validation.java:202-204 | the constraint refers to the given builder |
| Validation.Constraint.Add | src/com/poc/designpatterns/builderpattern/Validation.java:213-216 | runs the validator on the originating builder's (name, value); succeeds iff it passes, returning this same constraint; otherwise its error |
| Validation.CheckThat | src/com/poc/designpatterns/builderpattern/Validation.java:116-119 | a fresh builder holding the value, with no display name |

## Left out

- Exception messages, `toString` and `StringBuilder` formatting are not modelled. Only the kind of exception is.
- Java's `equals` is modelled as structural equality of `Value`s. This matches `String`, `Integer`, `Date` and `List` equality and, through `Other`'s identity, `Object.equals`. In Java, arrays compare by reference and sets compare without regard to order. Neither is modelled.
- A `Collection` is a sequence whose size is all that matters. `HashSet` duplicate removal is not modelled.
- `compareTo` is modelled for strings and for `Comparable` classes whose order is that of an integer key (`Integer`, `Date`) and that reject every other class. A user `Comparable` that compares across classes is not modelled.
- The display name of the `com.poc` builder is a Dafny `string`. Its encoding does not matter, because no validator reads it.
- Casting a primitive array (`int[]`) to `Object[]` in the not-empty scan would throw `ClassCastException`. Arrays here are object arrays only.
- Singleton identity of the static validator instances is not modelled. Each accessor is the datatype constructor of the same rule.
- Java generics and raw types are not modelled. Every parameter is a `Value`.
- Java overloading is not modelled. The two-argument `and(validator, throwResult)` is `Constraint.AndReturning`.
- The getters (`getValue`, `getParamValue`, `getParam`) are modelled as reading functions without contracts of their own.
- Fail-fast chaining across `is(...).add(...)` and `usingValidator(...).and(...)` is not a member of its own. Each step returns the `Err` it raised, so a chain built from these methods stops there, as Java's unwinding does.
- The demo drivers `Executor.java` and `Usage.java` are not modelled. The `Validator` interfaces are not modelled either: they are subsumed by the `Validator` datatypes.

- ValidationHelper.Run: `IsEqual` runs the corrected `EqualsValidator.Validate`. So `Run`, and every `Builder`/`Constraint` contract stated through it, gives ValidationFailed for a non-null subject against a null comparison value. The code as written raises a null dereference there (see Findings).
- NotNullEqualValidator.Validate: it composes NotNull with the corrected Equals. So a non-null subject against a null comparison value gives ValidationFailed, where the code as written raises a null dereference from `EqualsValidator.java:27`.

## Findings

| source | as written | input that shows it | evidently intended | confidence | as-written member | corrected member |
|---|---|---|---|---|---|---|
| src/com/kodelog/validation/validators/EqualsValidator.java:25-28 | On inequality the failure message calls `value.toString()`. A null comparison value is dereferenced, and a `NullPointerException` escapes. | `validateValue(1).against(null).usingValidator(isEqual())` | an `IllegalStateException` (ValidationFailed), as for every other unequal pair | high, not executed | EqualsValidator.AsWrittenDereferencesNullComparison | EqualsValidator.Validate |

The rest of the model uses the corrected `EqualsValidator.Validate`.
`NotNullEqualValidator.Validate` therefore never dereferences null. With the
code as written, a non-null subject against a null comparison value would
raise a null dereference through the compound validator too.

The Java doc comment on `against` says it sets the "param name". The code sets
the comparison value, and the model follows the code. The same holds for the
doc comment above `Validation.isNotNull()`, which describes the not-empty
rule.
