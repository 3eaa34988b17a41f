# JSON Schema validation core, modelled in Dafny

This project models the validation engine of a Java JSON Schema validator
(package `uk.co.o2.json.schema`). A schema is a tree with two node kinds.

- The leaf simple-type schema declares one of six types: NULL, BOOLEAN,
  STRING, NUMBER, INTEGER or ANY. It may add a pattern, a format, length
  bounds, numeric bounds with exclusive flags, and an enumeration.
- The array schema applies an items schema to every element. It also
  enforces `maxItems` and `minItems`, where 0 means "no bound".

Validation returns an ordered list of errors. Each error is a location plus
a message; the root location is the empty string. A leaf reports at most one
error: the first check that fails. An array reports one root error for a
wrong kind or a size out of bounds. Otherwise it collects the errors of all
its elements, in element order, with `[i]` in front of each location.

The leaf schema is a mutable object. Each setter checks the new field
against the declared type, and `setType` re-checks every field already set.
A setter that would break this rule fails and changes nothing, so the
invariant "no constraint is present that the type forbids" always holds.

Layout, one module per file:

- `json.dfy` (`Json`): the JSON document value and its kinds.
- `simple_type.dfy` (`SimpleTypes`): the six types, the acceptance table and
  the type names.
- `errors.dfy` (`Errors`): structured messages, error nesting, and the
  decimal text of an array index.
- `formats.dfy` (`Formats`): which format fits which type, and the format
  checks.
- `simple_type_schema.dfy` (`SimpleTypeSchemas`): the leaf configuration,
  its invariant, leaf validation, and the mutable `SimpleTypeSchema` class.
- `schema.dfy` (`Schemas`): the schema tree, recursive validation, and the
  array lemmas.
- `array_schema.dfy` (`ArraySchemas`): the mutable `ArraySchema` class. Its
  `Validate` method is the source's loop, proved equal to the function.
- `simple_type_schema_tests.dfy` (`SimpleTypeSchemaTests`): the leaf
  schema's test cases, replayed through the class.

The leaf schema's behaviour is derived from its test suite,
`SimpleTypeSchemaTest.java`. Choices the tests leave open:

- A schema whose type was never set has type ANY. The unknown-format test
  validates a string with such a schema and expects no error.
- The order of the leaf checks is: type, enumeration, then for strings
  pattern, maxLength, minLength and format, and for numbers minimum then
  maximum.
- An exclusive flag set to either value is refused unless the type is
  NUMBER or INTEGER. When `setType` re-checks fields, a flag counts as set
  only when it is true.
- `setPattern(null)` is accepted for every type, because it clears the
  pattern.
- The string formats (date-time, date, time, regex, uri) need type STRING.
  utc-millisec needs NUMBER or INTEGER. Any other format name fits every
  type.
- An enumeration fits a type that is neither NULL nor ANY when every value
  is acceptable for that type.

Library calls are passed in as the `Externals` value: pattern matching,
ISO 8601 date-time/date/time parsing, pattern compilation for the regex
format, and URI parsing. The predicate `Formats.AgreesWithTestExamples`
records the library behaviour the tests show: all 21 format examples and
the two pattern examples. It appears only as a precondition and is never
proved.

## Model

| member | source | states |
|---|---|---|
| SimpleTypes.IsAcceptable | src/test/java/uk/co/o2/json/schema/SimpleTypeSchemaTest.java:1063-1145 | a value is acceptable exactly when its kind is in the type's row of the acceptance table |
| SimpleTypes.AnyAcceptsEverything | src/test/java/uk/co/o2/json/schema/SimpleTypeSchemaTest.java:1133-1145 | ANY accepts every value; every other type rejects arrays and objects |
| SimpleTypes.NumericTypesAcceptIntegers | src/test/java/uk/co/o2/json/schema/SimpleTypeSchemaTest.java:1063-1131 | NUMBER and INTEGER accept integral values and no non-number; STRING, BOOLEAN and NULL accept only their own kind |
| SimpleTypes.Description | src/test/java/uk/co/o2/json/schema/SimpleTypeSchemaTest.java:1050-1061 | a type's name is non-empty and lower-case |
| SimpleTypes.DescriptionInjective | src/test/java/uk/co/o2/json/schema/SimpleTypeSchemaTest.java:1050-1061 | distinct types have distinct names |
| Errors.SingleError | src/main/java/uk/co/o2/json/schema/ArraySchema.java:26 | a single-error result holds exactly one error, at the root, with the given message |
| Errors.NestAll | src/main/java/uk/co/o2/json/schema/ArraySchema.java:45-50 | nesting keeps the number and order of errors and each message; each location gets the segment in front |
| Errors.NestAllAppend | src/main/java/uk/co/o2/json/schema/ArraySchema.java:37-42 | nesting distributes over appending error lists |
| Errors.NestAllCompose | src/main/java/uk/co/o2/json/schema/ArraySchema.java:46-48 | nesting under an inner and then an outer segment is the same as nesting once under both joined |
| Errors.NestedIn | src/main/java/uk/co/o2/json/schema/ArraySchema.java:45-50 | an error is in the nested list exactly when the child had it, with the segment in front |
| Errors.Decimal | src/main/java/uk/co/o2/json/schema/ArraySchema.java:46 | an index's text is a non-empty run of digits with no leading zero |
| Errors.ParseDecimalOfDecimal | src/main/java/uk/co/o2/json/schema/ArraySchema.java:46 | reading an index's text back gives the index |
| Errors.DecimalInjective | src/main/java/uk/co/o2/json/schema/ArraySchema.java:46 | distinct indices have distinct texts |
| Formats.FormatFitsType | src/test/java/uk/co/o2/json/schema/SimpleTypeSchemaTest.java:157-467 | on STRING every format but utc-millisec fits; on NUMBER and INTEGER every format but the five string formats fits; on NULL, BOOLEAN and ANY only names with no check of their own fit |
| Formats.FormatHolds | src/test/java/uk/co/o2/json/schema/SimpleTypeSchemaTest.java:113-454 | each string format holds exactly when its own library check accepts the string; utc-millisec and unknown names accept every string |
| SimpleTypeSchemas.Consistent | src/test/java/uk/co/o2/json/schema/SimpleTypeSchemaTest.java:38-63 | any type with no constraint is consistent; a consistent NULL, BOOLEAN or ANY schema has no pattern, length, bound or exclusive flag, only a format with no check of its own, and an enumeration only when BOOLEAN |
| SimpleTypeSchemas.StringViolation | src/test/java/uk/co/o2/json/schema/SimpleTypeSchemaTest.java:76-567 | a string check fails exactly when some string constraint present fails; the error names the string; a failing pattern is reported before every other string check |
| SimpleTypeSchemas.NumberViolation | src/test/java/uk/co/o2/json/schema/SimpleTypeSchemaTest.java:569-894 | a bound check fails exactly when some bound present fails (inclusive unless flagged); the error names the number; a maximum error only when the minimum holds |
| SimpleTypeSchemas.FirstViolation | src/test/java/uk/co/o2/json/schema/SimpleTypeSchemaTest.java:18-36 | some check fails exactly when the value does not conform; the failure is the type error exactly when the type rejects the value |
| SimpleTypeSchemas.ValidateSimple | src/test/java/uk/co/o2/json/schema/SimpleTypeSchemaTest.java:18-106 | a leaf gives at most one error, always at the root; it gives none exactly when every constraint present holds (bounds inclusive unless flagged exclusive) |
| SimpleTypeSchemas.TypeMismatchIsSingleError | src/test/java/uk/co/o2/json/schema/SimpleTypeSchemaTest.java:18-27 | a value of a kind the type rejects gets exactly one root type error |
| SimpleTypeSchemas.UnconstrainedAcceptsAcceptable | src/test/java/uk/co/o2/json/schema/SimpleTypeSchemaTest.java:29-36 | with only a type, a value is valid exactly when its kind is acceptable |
| SimpleTypeSchemas.PatternViolation | src/test/java/uk/co/o2/json/schema/SimpleTypeSchemaTest.java:76-94 | a well-typed string in the enumeration that the pattern does not match gets exactly one root error carrying the string and the pattern source |
| SimpleTypeSchemas.EnumerationViolation | src/test/java/uk/co/o2/json/schema/SimpleTypeSchemaTest.java:1002-1048 | a well-typed value outside the enumeration gets one root error carrying the value and all members in order |
| SimpleTypeSchemas.LengthViolation | src/test/java/uk/co/o2/json/schema/SimpleTypeSchemaTest.java:469-554 | a string longer than maxLength, or else shorter than minLength, gets that one root error with value and bound |
| SimpleTypeSchemas.BoundViolation | src/test/java/uk/co/o2/json/schema/SimpleTypeSchemaTest.java:569-868 | a number at or beyond an exclusive bound, or beyond an inclusive one, gets one root error with value, bound and the exclusive flag; minimum is checked first |
| SimpleTypeSchemas.FormatViolation | src/test/java/uk/co/o2/json/schema/SimpleTypeSchemaTest.java:125-155 | a string failing only its format check gets one root error with the value and the format name, and the format is one of the string formats |
| SimpleTypeSchemas.FormatWithoutCheckIsIgnored | src/test/java/uk/co/o2/json/schema/SimpleTypeSchemaTest.java:420-454 | declaring utc-millisec or an unknown format never changes the result |
| SimpleTypeSchemas.TestSuiteFormatExamples | src/test/java/uk/co/o2/json/schema/SimpleTypeSchemaTest.java:113-405 | given the library behaves as the tests show, all 21 date-time, date, time, regex and uri examples validate as the tests expect: 5 with no error, 16 with one root format error naming the string and the format |
| SimpleTypeSchemas.SimpleTypeSchema.constructor | src/test/java/uk/co/o2/json/schema/SimpleTypeSchemaTest.java:420-430 | a new schema has type ANY, no constraint, and satisfies the invariant |
| SimpleTypeSchemas.SimpleTypeSchema.SetType | src/test/java/uk/co/o2/json/schema/SimpleTypeSchemaTest.java:51-63 | changing the type succeeds exactly when every constraint present fits the new type; on failure nothing changes |
| SimpleTypeSchemas.SimpleTypeSchema.SetPattern | src/test/java/uk/co/o2/json/schema/SimpleTypeSchemaTest.java:38-74 | a pattern is set only on STRING; clearing it always succeeds; only the pattern changes |
| SimpleTypeSchemas.SimpleTypeSchema.SetFormat | src/test/java/uk/co/o2/json/schema/SimpleTypeSchemaTest.java:157-167 | a format is set exactly when it fits the type; only the format changes |
| SimpleTypeSchemas.SimpleTypeSchema.SetMaxLength | src/test/java/uk/co/o2/json/schema/SimpleTypeSchemaTest.java:513-524 | maxLength is set only on STRING; only maxLength changes |
| SimpleTypeSchemas.SimpleTypeSchema.SetMinLength | src/test/java/uk/co/o2/json/schema/SimpleTypeSchemaTest.java:556-567 | minLength is set only on STRING; only minLength changes |
| SimpleTypeSchemas.SimpleTypeSchema.SetMinimum | src/test/java/uk/co/o2/json/schema/SimpleTypeSchemaTest.java:628-646 | minimum is set only on NUMBER or INTEGER; only minimum changes |
| SimpleTypeSchemas.SimpleTypeSchema.SetMaximum | src/test/java/uk/co/o2/json/schema/SimpleTypeSchemaTest.java:719-737 | maximum is set only on NUMBER or INTEGER; only maximum changes |
| SimpleTypeSchemas.SimpleTypeSchema.SetExclusiveMinimum | src/test/java/uk/co/o2/json/schema/SimpleTypeSchemaTest.java:870-881 | the flag is set only on NUMBER or INTEGER; only the flag changes |
| SimpleTypeSchemas.SimpleTypeSchema.SetExclusiveMaximum | src/test/java/uk/co/o2/json/schema/SimpleTypeSchemaTest.java:883-894 | the flag is set only on NUMBER or INTEGER; only the flag changes |
| SimpleTypeSchemas.SimpleTypeSchema.SetEnumeration | src/test/java/uk/co/o2/json/schema/SimpleTypeSchemaTest.java:922-988 | an enumeration is set exactly when the type is neither NULL nor ANY and every value is of that type |
| SimpleTypeSchemas.SimpleTypeSchema.IsAcceptableType | src/test/java/uk/co/o2/json/schema/SimpleTypeSchemaTest.java:1063-1145 | the schema accepts a value exactly when its kind is in its type's row of the table |
| SimpleTypeSchemas.SimpleTypeSchema.GetDescription | src/test/java/uk/co/o2/json/schema/SimpleTypeSchemaTest.java:1050-1061 | the description is the type's lower-case name |
| SimpleTypeSchemas.SimpleTypeSchema.Validate | src/test/java/uk/co/o2/json/schema/SimpleTypeSchemaTest.java:18-36 | the schema gives at most one root error, and none exactly when the value conforms to its current configuration |
| Schemas.IndexSegment | src/main/java/uk/co/o2/json/schema/ArraySchema.java:46 | an element's path segment is bracketed, `[` first and `]` last |
| Schemas.NestedErrorMessages | src/main/java/uk/co/o2/json/schema/ArraySchema.java:45-50 | the element's errors keep their number, order and messages; each location gets the element's segment in front |
| Schemas.Validate | src/main/java/uk/co/o2/json/schema/ArraySchema.java:24-43 | a leaf gives at most one root error; an array gives one root error when the value is not an array or its size is out of bounds, and otherwise as many errors as its elements get together |
| Schemas.ChildErrors | src/main/java/uk/co/o2/json/schema/ArraySchema.java:39-40 | there is one result per element, the items schema's result for that element |
| Schemas.ArrayOutcomes | src/main/java/uk/co/o2/json/schema/ArraySchema.java:24-43 | a non-array, then a size over maxItems, then a size under minItems each give exactly one root error; otherwise the result is the collected element errors |
| Schemas.ZeroBoundsAreUnbounded | src/main/java/uk/co/o2/json/schema/ArraySchema.java:29-35 | with both bounds 0, any array goes on to element validation |
| Schemas.Collect | src/main/java/uk/co/o2/json/schema/ArraySchema.java:37-42 | the accumulated error count is the sum of the elements' error counts |
| Schemas.CollectEmpty | src/main/java/uk/co/o2/json/schema/ArraySchema.java:37-42 | the array has no element error exactly when every element has none |
| Schemas.CollectPrefix | src/main/java/uk/co/o2/json/schema/ArraySchema.java:37-42 | the errors of the first k elements come first, as a prefix of the result |
| Schemas.PartInPlace | src/main/java/uk/co/o2/json/schema/ArraySchema.java:37-48 | element i's errors sit together right after those of elements before it, each with `[i]` in front of its location |
| Schemas.CollectMembership | src/main/java/uk/co/o2/json/schema/ArraySchema.java:37-48 | an error is reported exactly when it is some element's error nested under that element's index |
| Schemas.IndexSegmentInjective | src/main/java/uk/co/o2/json/schema/ArraySchema.java:46 | distinct indices give distinct path segments |
| Schemas.DefaultItemsAcceptEverything | src/main/java/uk/co/o2/json/schema/ArraySchema.java:17-21 | with the default items schema, every array within the size bounds is valid |
| Schemas.EmptyArrayWithinBoundsIsValid | src/main/java/uk/co/o2/json/schema/ArraySchema.java:37-42 | an empty array within the size bounds is valid |
| Schemas.ElementErrorReported | src/main/java/uk/co/o2/json/schema/ArraySchema.java:37-48 | every error of an element of an in-bounds array is reported, nested under that element's index |
| Schemas.NestedArrayLocation | src/main/java/uk/co/o2/json/schema/ArraySchema.java:45-50 | in an array of arrays, an error of element j of element i is reported at `[i][j]` followed by its own location |
| Schemas.InvalidElementsReportedAtTheirIndex | src/main/java/uk/co/o2/json/schema/ArraySchema.java:37-42 | two invalid elements give two errors, at `[0]` and `[2]`, in that order; there is no short-circuit |
| ArraySchemas.ArraySchema.constructor | src/main/java/uk/co/o2/json/schema/ArraySchema.java:17-21 | a new array schema has the ANY items schema with no constraint and no size bounds |
| ArraySchemas.ArraySchema.SetItems | src/main/java/uk/co/o2/json/schema/ArraySchema.java:52-54 | sets items and nothing else |
| ArraySchemas.ArraySchema.SetMaxItems | src/main/java/uk/co/o2/json/schema/ArraySchema.java:60-62 | sets maxItems and nothing else |
| ArraySchemas.ArraySchema.SetMinItems | src/main/java/uk/co/o2/json/schema/ArraySchema.java:68-70 | sets minItems and nothing else |
| ArraySchemas.ArraySchema.Validate | src/main/java/uk/co/o2/json/schema/ArraySchema.java:24-43 | the loop's result equals the recursive validation of the schema the object stands for |
| ArraySchemas.NewSchemaAcceptsEveryArray | src/main/java/uk/co/o2/json/schema/ArraySchema.java:17-21 | a freshly built array schema validates every array without error |
| SimpleTypeSchemaTests.TypeCheck | src/test/java/uk/co/o2/json/schema/SimpleTypeSchemaTest.java:18-36 | a string against NUMBER gives one root type error; an integer gives none |
| SimpleTypeSchemaTests.PatternNeedsString | src/test/java/uk/co/o2/json/schema/SimpleTypeSchemaTest.java:38-63 | a pattern on NUMBER is refused, and a STRING with a pattern cannot become NUMBER |
| SimpleTypeSchemaTests.NullPatternDisablesCheck | src/test/java/uk/co/o2/json/schema/SimpleTypeSchemaTest.java:65-74 | with the pattern cleared, a string is valid |
| SimpleTypeSchemaTests.PatternMismatch | src/test/java/uk/co/o2/json/schema/SimpleTypeSchemaTest.java:76-94 | a non-matching string gets one root error with the value and the pattern source |
| SimpleTypeSchemaTests.StringFormatsNeedString | src/test/java/uk/co/o2/json/schema/SimpleTypeSchemaTest.java:157-418 | date-time, date, time, regex and uri are refused on NUMBER |
| SimpleTypeSchemaTests.UtcMillisecNeedsNumber | src/test/java/uk/co/o2/json/schema/SimpleTypeSchemaTest.java:896-920 | utc-millisec is refused on BOOLEAN and STRING and taken on INTEGER; a NUMBER with it cannot become STRING |
| SimpleTypeSchemaTests.UnknownFormatAcceptsAnything | src/test/java/uk/co/o2/json/schema/SimpleTypeSchemaTest.java:420-430 | an unknown format on a schema of unset type accepts any string |
| SimpleTypeSchemaTests.FormatExamples | src/test/java/uk/co/o2/json/schema/SimpleTypeSchemaTest.java:169-211 | given the library's date check, "2011-05-10" is valid and "2011-05-44" gets one format error |
| SimpleTypeSchemaTests.LengthNeedsString | src/test/java/uk/co/o2/json/schema/SimpleTypeSchemaTest.java:513-567 | maxLength and minLength are refused on INTEGER |
| SimpleTypeSchemaTests.LengthBoundsAreInclusive | src/test/java/uk/co/o2/json/schema/SimpleTypeSchemaTest.java:469-554 | a string longer than maxLength or shorter than minLength gets one error; a string of exactly either length is valid |
| SimpleTypeSchemaTests.BoundsNeedNumericType | src/test/java/uk/co/o2/json/schema/SimpleTypeSchemaTest.java:628-894 | minimum and maximum are taken on NUMBER and INTEGER and refused on STRING and BOOLEAN; the exclusive flags are refused on STRING |
| SimpleTypeSchemaTests.BoundExamples | src/test/java/uk/co/o2/json/schema/SimpleTypeSchemaTest.java:486-868 | a value equal to an inclusive maximum is valid; one equal to an exclusive bound gets one error naming the flag; values inside are valid |
| SimpleTypeSchemaTests.EnumerationMustMatchType | src/test/java/uk/co/o2/json/schema/SimpleTypeSchemaTest.java:922-988 | a mixed-kind enumeration is refused on STRING; same-type enumerations are taken on STRING, NUMBER, INTEGER and BOOLEAN |
| SimpleTypeSchemaTests.EnumerationNotForNullOrAny | src/test/java/uk/co/o2/json/schema/SimpleTypeSchemaTest.java:935-959 | NULL and ANY schemas refuse an enumeration |
| SimpleTypeSchemaTests.EnumerationExamples | src/test/java/uk/co/o2/json/schema/SimpleTypeSchemaTest.java:990-1018 | a member is valid; a non-member gets one error listing the value and both members in order |
| SimpleTypeSchemaTests.Descriptions | src/test/java/uk/co/o2/json/schema/SimpleTypeSchemaTest.java:1050-1061 | STRING and NULL schemas describe themselves as "string" and "null" |

## Left out

- JSON parsing and the document libraries are left out. The document is the `Json.JsonValue` datatype.
- The object schema, the schema loader and `$ref` resolution are not part of this model.
- Regular-expression compilation and matching, ISO 8601 parsing and URI parsing are library calls. They are parameters (`Formats.Externals`), not modelled code.
- Message text is not rendered. That includes the `%d` formatting and `String.valueOf(double)`. A message is a `Errors.Message` value holding the offending value and the bound or format it would print.
- Floating point is not modelled. Numbers are exact `real`s, and a `long` beyond 2^53 compares exactly rather than after conversion to `double`.
- Setters signal an invalid configuration by returning `false` instead of throwing, and leave the schema unchanged.
- `SimpleTypeSchemas.SimpleTypeSchema.SetMaxLength` takes a `nat`, so a negative length is not modelled. The source's handling of one is not shown. The same holds for `SimpleTypeSchemas.SimpleTypeSchema.SetMinLength`.
- `SimpleTypeSchemas.ValidateSimple` counts a string's length in Unicode scalar values, not in the UTF-16 units that Java's `String.length()` counts. A string with a character outside the Basic Multilingual Plane is shorter here than in the source, so the maxLength and minLength outcomes can differ.
- `ArraySchemas.ArraySchema.SetItems` takes a `Schema` value, which cannot be null. The source accepts `setItems(null)`, and a later validation of a non-empty array within bounds then fails with a NullPointerException at line 40; that path is not modelled.
- `ArraySchemas.ArraySchema.SetItems` stores the items schema as an immutable value. Later changes to the Java object passed in (aliasing) are not modelled.
- `getItems`, `getMaxItems` and `getMinItems` are not separate members. They are the fields `items`, `maxItems` and `minItems`, which each setter's postcondition pins down.
- Validating the same schema and value twice gives the same list. This holds because validation is a function; no lemma states it.
- Concurrent use of the setters is not modelled.
