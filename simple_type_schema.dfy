/**
  The leaf schema. Its configuration is a record of optional constraints whose
  presence must fit the declared type; the mutable schema object enforces that
  fit on every field assignment, and validation reports the first failing check
  as a single error at the root location.
 */
module SimpleTypeSchemas {
  import opened Wrappers
  import opened Json
  import opened SimpleTypes
  import opened Errors
  import opened Formats

  /** A compiled pattern, known by its source text. */
  datatype Regex = Regex(source: string)

  /** The fields of a leaf schema; `None` is an unset (null) field. */
  datatype SimpleConfig = SimpleConfig(
    simpleType: SimpleType,
    pattern: Option<Regex>,
    format: Option<string>,
    maxLength: Option<nat>,
    minLength: Option<nat>,
    minimum: Option<real>,
    maximum: Option<real>,
    exclusiveMinimum: bool,
    exclusiveMaximum: bool,
    enumeration: Option<seq<JsonValue>>)

  /** A freshly built schema: type ANY, nothing else set. */
  const Unconstrained: SimpleConfig :=
    SimpleConfig(ANY, None, None, None, None, None, None, false, false, None)

  predicate HasNoConstraints(c: SimpleConfig) {
    c == Unconstrained.(simpleType := c.simpleType)
  }

  /** Whether the values of an enumeration all fit a type that admits enumerations. */
  predicate EnumerationFits(t: SimpleType, values: seq<JsonValue>) {
    t != NULL && t != ANY && forall m <- values :: IsAcceptable(t, m)
  }

  /** The schema invariant: no constraint is present that the declared type forbids.
      Any type with no constraint is consistent; a NULL, BOOLEAN or ANY schema has
      no string or numeric constraint and at most a format with no check of its own,
      and only a BOOLEAN one of them may have an enumeration. */
  predicate Consistent(c: SimpleConfig): (ok: bool)
    ensures HasNoConstraints(c) ==> ok
    ensures ok && c.simpleType in {NULL, BOOLEAN, ANY} ==>
              && c.pattern.None? && c.maxLength.None? && c.minLength.None?
              && c.minimum.None? && c.maximum.None? && !c.exclusiveMinimum && !c.exclusiveMaximum
              && (c.simpleType != BOOLEAN ==> c.enumeration.None?)
              && (c.format.Some? ==> c.format.value !in StringFormats && c.format.value != UtcMillisec)
  {
    && (c.pattern.Some? || c.maxLength.Some? || c.minLength.Some? ==> c.simpleType == STRING)
    && (c.minimum.Some? || c.maximum.Some? || c.exclusiveMinimum || c.exclusiveMaximum ==>
          IsNumeric(c.simpleType))
    && (c.format.Some? ==> FormatFitsType(c.format.value, c.simpleType))
    && (c.enumeration.Some? ==> EnumerationFits(c.simpleType, c.enumeration.value))
  }

  // ---- validation ----

  predicate BelowMinimumBound(c: SimpleConfig, n: real) {
    c.minimum.Some? && (if c.exclusiveMinimum then n <= c.minimum.value else n < c.minimum.value)
  }

  predicate AboveMaximumBound(c: SimpleConfig, n: real) {
    c.maximum.Some? && (if c.exclusiveMaximum then n >= c.maximum.value else n > c.maximum.value)
  }

  /** Every string constraint present holds of `s`. */
  ghost predicate StringConforms(c: SimpleConfig, s: string, x: Externals) {
    && (c.pattern.Some? ==> x.matches(c.pattern.value.source, s))
    && (c.maxLength.Some? ==> |s| <= c.maxLength.value)
    && (c.minLength.Some? ==> c.minLength.value <= |s|)
    && (c.format.Some? ==> FormatHolds(x, c.format.value, s))
  }

  /** Every numeric bound present holds of `n`; a bound is inclusive unless flagged. */
  ghost predicate NumberConforms(c: SimpleConfig, n: real) {
    && (c.minimum.Some? ==> c.minimum.value < n || (!c.exclusiveMinimum && c.minimum.value == n))
    && (c.maximum.Some? ==> n < c.maximum.value || (!c.exclusiveMaximum && c.maximum.value == n))
  }

  /** The first failing string check: pattern, maxLength, minLength, then format.
      There is one exactly when some string constraint fails, and it names the string. */
  function StringViolation(c: SimpleConfig, s: string, x: Externals): (r: Option<Message>)
    ensures r.None? <==> StringConforms(c, s, x)
    ensures r.Some? ==>
              (r.value.PatternMismatch? || r.value.TooLong? || r.value.TooShort? || r.value.InvalidFormat?)
              && r.value.text == s
    ensures c.pattern.Some? && !x.matches(c.pattern.value.source, s) ==>
              r == Some(PatternMismatch(s, c.pattern.value.source))
  {
    if c.pattern.Some? && !x.matches(c.pattern.value.source, s) then
      Some(PatternMismatch(s, c.pattern.value.source))
    else if c.maxLength.Some? && |s| > c.maxLength.value then
      Some(TooLong(s, c.maxLength.value))
    else if c.minLength.Some? && |s| < c.minLength.value then
      Some(TooShort(s, c.minLength.value))
    else if c.format.Some? && !FormatHolds(x, c.format.value, s) then
      Some(InvalidFormat(s, c.format.value))
    else
      None
  }

  /** The first failing numeric check: minimum, then maximum. There is one exactly
      when some bound fails, and it names the number. */
  function NumberViolation(c: SimpleConfig, n: real): (r: Option<Message>)
    ensures r.None? <==> NumberConforms(c, n)
    ensures r.Some? ==> (r.value.BelowMinimum? || r.value.AboveMaximum?) && r.value.number == n
    ensures r.Some? && r.value.AboveMaximum? ==> !BelowMinimumBound(c, n)
  {
    if BelowMinimumBound(c, n) then
      Some(BelowMinimum(n, c.minimum.value, c.exclusiveMinimum))
    else if AboveMaximumBound(c, n) then
      Some(AboveMaximum(n, c.maximum.value, c.exclusiveMaximum))
    else
      None
  }

  /** The first failing check: type, enumeration, then the value kind's own checks.
      There is one exactly when the value does not conform; a type error is reported
      exactly when the type rejects the value. */
  function FirstViolation(c: SimpleConfig, v: JsonValue, x: Externals): (r: Option<Message>)
    ensures r.None? <==> Conforms(c, v, x)
    ensures r.Some? ==> (r.value == InvalidType(c.simpleType) <==> !IsAcceptable(c.simpleType, v))
  {
    if !IsAcceptable(c.simpleType, v) then
      Some(InvalidType(c.simpleType))
    else if c.enumeration.Some? && v !in c.enumeration.value then
      Some(NotInEnumeration(v, c.enumeration.value))
    else if v.JString? then
      StringViolation(c, v.s, x)
    else if IsNumber(v) then
      NumberViolation(c, NumericValue(v))
    else
      None
  }

  /** Declarative conformance: every constraint present holds of the value.
      Bounds are inclusive unless their exclusive flag is set. */
  ghost predicate Conforms(c: SimpleConfig, v: JsonValue, x: Externals) {
    && IsAcceptable(c.simpleType, v)
    && (c.enumeration.Some? ==> v in c.enumeration.value)
    && (v.JString? ==> StringConforms(c, v.s, x))
    && (IsNumber(v) ==> NumberConforms(c, NumericValue(v)))
  }

  /** Leaf validation: at most one error, always at the root, and none exactly
      when the value conforms. */
  function ValidateSimple(c: SimpleConfig, v: JsonValue, x: Externals): (r: seq<ErrorMessage>)
    ensures |r| <= 1
    ensures forall e <- r :: e.location == ""
    ensures r == [] <==> Conforms(c, v, x)
  {
    match FirstViolation(c, v, x)
    case None => []
    case Some(m) => SingleError(m)
  }

  /** A value whose kind the type rejects gets exactly the type error, nothing else. */
  lemma TypeMismatchIsSingleError(c: SimpleConfig, v: JsonValue, x: Externals)
    requires !IsAcceptable(c.simpleType, v)
    ensures ValidateSimple(c, v, x) == SingleError(InvalidType(c.simpleType))
  {
  }

  /** With no constraint besides the type, every acceptable value is valid. */
  lemma UnconstrainedAcceptsAcceptable(c: SimpleConfig, v: JsonValue, x: Externals)
    requires HasNoConstraints(c)
    ensures ValidateSimple(c, v, x) == [] <==> IsAcceptable(c.simpleType, v)
  {
  }

  /** A well-typed value outside the enumeration gets one error carrying the value
      and every allowed member, in declared order. */
  lemma EnumerationViolation(c: SimpleConfig, v: JsonValue, x: Externals)
    requires IsAcceptable(c.simpleType, v)
    requires c.enumeration.Some? && v !in c.enumeration.value
    ensures ValidateSimple(c, v, x) == SingleError(NotInEnumeration(v, c.enumeration.value))
  {
  }

  /** The pattern check of a string that got past the type and enumeration checks:
      a string the pattern does not match gets one error naming it and the pattern. */
  lemma PatternViolation(c: SimpleConfig, s: string, x: Externals)
    requires IsAcceptable(c.simpleType, JString(s))
    requires c.enumeration.Some? ==> JString(s) in c.enumeration.value
    requires c.pattern.Some? && !x.matches(c.pattern.value.source, s)
    ensures ValidateSimple(c, JString(s), x) == SingleError(PatternMismatch(s, c.pattern.value.source))
  {
  }

  /** The length checks of a string that got past the type, enumeration and pattern
      checks: a length above maxLength, or (within it) below minLength, is the one error. */
  lemma LengthViolation(c: SimpleConfig, s: string, x: Externals)
    requires IsAcceptable(c.simpleType, JString(s))
    requires c.enumeration.Some? ==> JString(s) in c.enumeration.value
    requires c.pattern.Some? ==> x.matches(c.pattern.value.source, s)
    ensures c.maxLength.Some? && |s| > c.maxLength.value ==>
              ValidateSimple(c, JString(s), x) == SingleError(TooLong(s, c.maxLength.value))
    ensures (c.maxLength.Some? ==> |s| <= c.maxLength.value) && c.minLength.Some? && |s| < c.minLength.value ==>
              ValidateSimple(c, JString(s), x) == SingleError(TooShort(s, c.minLength.value))
  {
  }

  /** The bound checks of a number that got past the type and enumeration checks.
      An exclusive bound rejects a value equal to it, and the error then says so. */
  lemma BoundViolation(c: SimpleConfig, v: JsonValue, x: Externals)
    requires IsNumber(v) && IsAcceptable(c.simpleType, v)
    requires c.enumeration.Some? ==> v in c.enumeration.value
    ensures c.minimum.Some? && c.exclusiveMinimum && NumericValue(v) <= c.minimum.value ==>
              ValidateSimple(c, v, x) == SingleError(BelowMinimum(NumericValue(v), c.minimum.value, true))
    ensures c.minimum.Some? && !c.exclusiveMinimum && NumericValue(v) < c.minimum.value ==>
              ValidateSimple(c, v, x) == SingleError(BelowMinimum(NumericValue(v), c.minimum.value, false))
    ensures !BelowMinimumBound(c, NumericValue(v)) && c.maximum.Some? && c.exclusiveMaximum
              && NumericValue(v) >= c.maximum.value ==>
              ValidateSimple(c, v, x) == SingleError(AboveMaximum(NumericValue(v), c.maximum.value, true))
    ensures !BelowMinimumBound(c, NumericValue(v)) && c.maximum.Some? && !c.exclusiveMaximum
              && NumericValue(v) > c.maximum.value ==>
              ValidateSimple(c, v, x) == SingleError(AboveMaximum(NumericValue(v), c.maximum.value, false))
  {
  }

  /** A string that passes every other check and fails its format's check gets one
      error naming the value and the format. */
  lemma FormatViolation(c: SimpleConfig, s: string, x: Externals)
    requires IsAcceptable(c.simpleType, JString(s))
    requires c.enumeration.Some? ==> JString(s) in c.enumeration.value
    requires c.pattern.Some? ==> x.matches(c.pattern.value.source, s)
    requires c.maxLength.Some? ==> |s| <= c.maxLength.value
    requires c.minLength.Some? ==> c.minLength.value <= |s|
    requires c.format.Some? && !FormatHolds(x, c.format.value, s)
    ensures c.format.value in StringFormats
    ensures ValidateSimple(c, JString(s), x) == SingleError(InvalidFormat(s, c.format.value))
  {
  }

  /** utc-millisec and unknown format names never change the outcome of validation. */
  lemma FormatWithoutCheckIsIgnored(c: SimpleConfig, f: string, v: JsonValue, x: Externals)
    requires f !in StringFormats
    ensures ValidateSimple(c.(format := Some(f)), v, x) == ValidateSimple(c.(format := None), v, x)
  {
  }

  /** A STRING schema with one format and nothing else. */
  function StringWithFormat(f: string): SimpleConfig {
    Unconstrained.(simpleType := STRING, format := Some(f))
  }

  /** Every format example of the test suite, valid and invalid, given the library
      behaves as those tests show. */
  lemma TestSuiteFormatExamples(x: Externals)
    requires AgreesWithTestExamples(x)
    ensures ValidateSimple(StringWithFormat("date-time"), JString("2011-05-10T11:11:17Z"), x) == []
    ensures ValidateSimple(StringWithFormat("date"), JString("2011-05-10"), x) == []
    ensures ValidateSimple(StringWithFormat("time"), JString("13:15:47"), x) == []
    ensures ValidateSimple(StringWithFormat("regex"), JString(".*"), x) == []
    ensures ValidateSimple(StringWithFormat("uri"), JString("http://www.example.com"), x) == []
    ensures ValidateSimple(StringWithFormat("date-time"), JString("2011-05-44T11:11:17Z"), x)
              == SingleError(InvalidFormat("2011-05-44T11:11:17Z", "date-time"))
    ensures ValidateSimple(StringWithFormat("date-time"), JString("2011-May-10T165:11:17z"), x)
              == SingleError(InvalidFormat("2011-May-10T165:11:17z", "date-time"))
    ensures ValidateSimple(StringWithFormat("date"), JString("2011-May-10"), x)
              == SingleError(InvalidFormat("2011-May-10", "date"))
    ensures ValidateSimple(StringWithFormat("date"), JString("2011-05-44"), x)
              == SingleError(InvalidFormat("2011-05-44", "date"))
    ensures ValidateSimple(StringWithFormat("date"), JString("5-05-22"), x)
              == SingleError(InvalidFormat("5-05-22", "date"))
    ensures ValidateSimple(StringWithFormat("date"), JString("95-05-22"), x)
              == SingleError(InvalidFormat("95-05-22", "date"))
    ensures ValidateSimple(StringWithFormat("date"), JString("995-05-22"), x)
              == SingleError(InvalidFormat("995-05-22", "date"))
    ensures ValidateSimple(StringWithFormat("date"), JString("1995-5-22"), x)
              == SingleError(InvalidFormat("1995-5-22", "date"))
    ensures ValidateSimple(StringWithFormat("date"), JString("1992-05-2"), x)
              == SingleError(InvalidFormat("1992-05-2", "date"))
    ensures ValidateSimple(StringWithFormat("date"), JString("1111"), x)
              == SingleError(InvalidFormat("1111", "date"))
    ensures ValidateSimple(StringWithFormat("date"), JString("2011-05-10T11:47:16Z"), x)
              == SingleError(InvalidFormat("2011-05-10T11:47:16Z", "date"))
    ensures ValidateSimple(StringWithFormat("time"), JString("2011-05-10"), x)
              == SingleError(InvalidFormat("2011-05-10", "time"))
    ensures ValidateSimple(StringWithFormat("time"), JString("13:75:47"), x)
              == SingleError(InvalidFormat("13:75:47", "time"))
    ensures ValidateSimple(StringWithFormat("time"), JString("11:47:16-blah"), x)
              == SingleError(InvalidFormat("11:47:16-blah", "time"))
    ensures ValidateSimple(StringWithFormat("regex"), JString("+"), x)
              == SingleError(InvalidFormat("+", "regex"))
    ensures ValidateSimple(StringWithFormat("uri"), JString(":this-isn't-a-valid-uri"), x)
              == SingleError(InvalidFormat(":this-isn't-a-valid-uri", "uri"))
  {
  }

  // ---- the mutable schema object ----

  class SimpleTypeSchema {
    var simpleType: SimpleType
    var pattern: Option<Regex>
    var format: Option<string>
    var maxLength: Option<nat>
    var minLength: Option<nat>
    var minimum: Option<real>
    var maximum: Option<real>
    var exclusiveMinimum: bool
    var exclusiveMaximum: bool
    var enumeration: Option<seq<JsonValue>>

    function Config(): SimpleConfig
      reads this
    {
      SimpleConfig(simpleType, pattern, format, maxLength, minLength,
                   minimum, maximum, exclusiveMinimum, exclusiveMaximum, enumeration)
    }

    ghost predicate Valid()
      reads this
    {
      Consistent(Config())
    }

    constructor ()
      ensures Valid() && Config() == Unconstrained
    {
      simpleType, pattern, format := ANY, None, None;
      maxLength, minLength, minimum, maximum := None, None, None, None;
      exclusiveMinimum, exclusiveMaximum, enumeration := false, false, None;
    }

    /** Re-checks every constraint already present against the new type. */
    method SetType(t: SimpleType) returns (ok: bool)
      requires Valid()
      modifies this
      ensures Valid()
      ensures ok <==> Consistent(old(Config()).(simpleType := t))
      ensures Config() == if ok then old(Config()).(simpleType := t) else old(Config())
    {
      ok := && (pattern.Some? || maxLength.Some? || minLength.Some? ==> t == STRING)
            && (minimum.Some? || maximum.Some? || exclusiveMinimum || exclusiveMaximum ==> IsNumeric(t))
            && (format.Some? ==> FormatFitsType(format.value, t))
            && (enumeration.Some? ==> EnumerationFits(t, enumeration.value));
      if ok {
        simpleType := t;
      }
    }

    /** A pattern needs type STRING; clearing it (None) is always allowed. */
    method SetPattern(p: Option<Regex>) returns (ok: bool)
      requires Valid()
      modifies this
      ensures Valid()
      ensures ok <==> p.None? || old(simpleType) == STRING
      ensures Config() == if ok then old(Config()).(pattern := p) else old(Config())
    {
      ok := p.None? || simpleType == STRING;
      if ok {
        pattern := p;
      }
    }

    method SetFormat(f: string) returns (ok: bool)
      requires Valid()
      modifies this
      ensures Valid()
      ensures ok <==> FormatFitsType(f, old(simpleType))
      ensures Config() == if ok then old(Config()).(format := Some(f)) else old(Config())
    {
      ok := FormatFitsType(f, simpleType);
      if ok {
        format := Some(f);
      }
    }

    method SetMaxLength(n: nat) returns (ok: bool)
      requires Valid()
      modifies this
      ensures Valid()
      ensures ok <==> old(simpleType) == STRING
      ensures Config() == if ok then old(Config()).(maxLength := Some(n)) else old(Config())
    {
      ok := simpleType == STRING;
      if ok {
        maxLength := Some(n);
      }
    }

    method SetMinLength(n: nat) returns (ok: bool)
      requires Valid()
      modifies this
      ensures Valid()
      ensures ok <==> old(simpleType) == STRING
      ensures Config() == if ok then old(Config()).(minLength := Some(n)) else old(Config())
    {
      ok := simpleType == STRING;
      if ok {
        minLength := Some(n);
      }
    }

    method SetMinimum(bound: real) returns (ok: bool)
      requires Valid()
      modifies this
      ensures Valid()
      ensures ok <==> IsNumeric(old(simpleType))
      ensures Config() == if ok then old(Config()).(minimum := Some(bound)) else old(Config())
    {
      ok := IsNumeric(simpleType);
      if ok {
        minimum := Some(bound);
      }
    }

    method SetMaximum(bound: real) returns (ok: bool)
      requires Valid()
      modifies this
      ensures Valid()
      ensures ok <==> IsNumeric(old(simpleType))
      ensures Config() == if ok then old(Config()).(maximum := Some(bound)) else old(Config())
    {
      ok := IsNumeric(simpleType);
      if ok {
        maximum := Some(bound);
      }
    }

    method SetExclusiveMinimum(flag: bool) returns (ok: bool)
      requires Valid()
      modifies this
      ensures Valid()
      ensures ok <==> IsNumeric(old(simpleType))
      ensures Config() == if ok then old(Config()).(exclusiveMinimum := flag) else old(Config())
    {
      ok := IsNumeric(simpleType);
      if ok {
        exclusiveMinimum := flag;
      }
    }

    method SetExclusiveMaximum(flag: bool) returns (ok: bool)
      requires Valid()
      modifies this
      ensures Valid()
      ensures ok <==> IsNumeric(old(simpleType))
      ensures Config() == if ok then old(Config()).(exclusiveMaximum := flag) else old(Config())
    {
      ok := IsNumeric(simpleType);
      if ok {
        exclusiveMaximum := flag;
      }
    }

    /** The values must all be of the declared type, which must not be NULL or ANY. */
    method SetEnumeration(values: seq<JsonValue>) returns (ok: bool)
      requires Valid()
      modifies this
      ensures Valid()
      ensures ok <==> EnumerationFits(old(simpleType), values)
      ensures Config() == if ok then old(Config()).(enumeration := Some(values)) else old(Config())
    {
      ok := EnumerationFits(simpleType, values);
      if ok {
        enumeration := Some(values);
      }
    }

    function IsAcceptableType(v: JsonValue): (r: bool)
      reads this
      ensures r <==> Kind(v) in AcceptedKinds(simpleType)
    {
      IsAcceptable(simpleType, v)
    }

    function GetDescription(): (r: string)
      reads this
      ensures |r| > 0 && IsLowerCase(r)
      ensures r == Description(simpleType)
    {
      Description(simpleType)
    }

    function Validate(v: JsonValue, x: Externals): (r: seq<ErrorMessage>)
      reads this
      ensures |r| <= 1 && forall e <- r :: e.location == ""
      ensures r == [] <==> Conforms(Config(), v, x)
    {
      ValidateSimple(Config(), v, x)
    }
  }
}
